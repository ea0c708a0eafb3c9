/** The communication panel of the emergency response page: channels, the
    messages of the active channel, sending a message, and the relative-time
    and styling helpers of a message. */
module CommunicationCenter {
  import opened ListPipeline
  import opened Text
  import opened Wrappers

  /** A radio channel; `live` is the source's `active` flag. */
  datatype Channel = Channel(id: string, name: string, icon: string, live: bool)

  const Channels: seq<Channel> := [
    Channel("dispatch", "Dispatch", "Radio", true),
    Channel("police", "Police", "Shield", true),
    Channel("fire", "Fire Dept", "Flame", true),
    Channel("medical", "Medical", "Heart", false),
    Channel("maintenance", "Maintenance", "Wrench", true)
  ]

  /** One message; `timestamp` is its instant in milliseconds and `kind` the
      source's `type`. */
  datatype Message = Message(
    id: int,
    channel: string,
    sender: string,
    text: string,
    timestamp: int,
    priority: string,
    kind: string)

  /** The panel's state: the message list, the input box and the active channel. */
  datatype ChatState = ChatState(messages: seq<Message>, draft: string, activeChannel: string)

  /** The panel opens on the dispatch channel with an empty input. */
  function Initial(messages: seq<Message>): (st: ChatState)
    ensures st.activeChannel == "dispatch" && st.draft == "" && st.messages == messages
  {
    ChatState(messages, "", "dispatch")
  }

  /** `messages.filter(msg => msg.channel === activeChannel)`: there is no
      'all' value here, every view is one channel. */
  function Visible(messages: seq<Message>, activeChannel: string): (r: seq<Message>)
    ensures IsExactSelection(r, messages, (m: Message) => m.channel == activeChannel)
    ensures forall k :: 0 <= k < |r| ==> r[k].channel == activeChannel
  {
    var r := Filter(messages, (m: Message) => m.channel == activeChannel);
    assert forall k :: 0 <= k < |r| ==> ((m: Message) => m.channel == activeChannel)(r[k]);
    r
  }

  /** The message the operator sends: the next id, the active channel, the
      text exactly as typed (not trimmed), normal priority, a broadcast. */
  function Outgoing(st: ChatState, now: int): (m: Message)
    ensures m.id == |st.messages| + 1 && m.channel == st.activeChannel && m.text == st.draft
    ensures m.timestamp == now && m.priority == "normal" && m.kind == "broadcast"
    ensures SequentialIds(st.messages) ==> forall k :: 0 <= k < |st.messages| ==> st.messages[k].id != m.id
  {
    Message(|st.messages| + 1, st.activeChannel, "OPERATOR-01", st.draft, now, "normal", "broadcast")
  }

  /** `handleSendMessage()` at instant `now`. A blank input (empty or only
      whitespace) changes nothing; otherwise exactly one message is appended
      after the untouched old ones and the input is cleared. */
  function SendMessage(st: ChatState, now: int): (t: ChatState)
    ensures IsBlank(st.draft) ==> t == st
    ensures !IsBlank(st.draft) ==>
      && |t.messages| == |st.messages| + 1
      && t.messages[..|st.messages|] == st.messages
      && t.messages[|st.messages|] == Outgoing(st, now)
      && t.draft == ""
      && t.activeChannel == st.activeChannel
  {
    TrimEmptyIffBlank(st.draft);
    if Trim(st.draft) != "" then
      ChatState(st.messages + [Outgoing(st, now)], "", st.activeChannel)
    else
      st
  }

  /** `disabled={!newMessage.trim()}`. */
  function SendDisabled(draft: string): (disabled: bool)
    ensures disabled <==> IsBlank(draft)
  {
    TrimEmptyIffBlank(draft);
    Trim(draft) == ""
  }

  /** The send button is disabled exactly when sending would change nothing. */
  lemma SendDisabledIffNoOp(st: ChatState, now: int)
    ensures SendDisabled(st.draft) <==> SendMessage(st, now) == st
  {
    TrimEmptyIffBlank(st.draft);
  }

  /** The ids are 1, 2, 3, ... in list order. */
  predicate SequentialIds(messages: seq<Message>) {
    forall k :: 0 <= k < |messages| ==> messages[k].id == k + 1
  }

  /** Sequential ids are pairwise distinct. */
  lemma SequentialIdsDistinct(messages: seq<Message>)
    requires SequentialIds(messages)
    ensures forall i, j :: 0 <= i < j < |messages| ==> messages[i].id != messages[j].id
  {
  }

  /** Appending the next id keeps the ids sequential. */
  lemma AppendKeepsSequentialIds(messages: seq<Message>, m: Message)
    requires SequentialIds(messages) && m.id == |messages| + 1
    ensures SequentialIds(messages + [m])
  {
    var t := messages + [m];
    forall k | 0 <= k < |t|
      ensures t[k].id == k + 1
    {
      if k < |messages| {
        assert t[k] == messages[k];
      }
    }
  }

  /** Sending keeps the ids sequential, so no two messages share an id. */
  lemma SendKeepsSequentialIds(st: ChatState, now: int)
    requires SequentialIds(st.messages)
    ensures var t := SendMessage(st, now).messages;
            SequentialIds(t) && forall i, j :: 0 <= i < j < |t| ==> t[i].id != t[j].id
  {
    var t := SendMessage(st, now);
    if !IsBlank(st.draft) {
      assert t.messages == st.messages + [Outgoing(st, now)];
      AppendKeepsSequentialIds(st.messages, Outgoing(st, now));
    }
    SequentialIdsDistinct(t.messages);
  }

  /** After a send, the active channel shows the new message last and every
      other channel's view is unchanged. */
  lemma SendShowsInActiveChannel(st: ChatState, now: int, channel: string)
    requires !IsBlank(st.draft)
    ensures var t := SendMessage(st, now);
            channel == st.activeChannel ==> Visible(t.messages, channel) == Visible(st.messages, channel) + [Outgoing(st, now)]
    ensures var t := SendMessage(st, now);
            channel != st.activeChannel ==> Visible(t.messages, channel) == Visible(st.messages, channel)
  {
    FilterAppend(st.messages, Outgoing(st, now), (m: Message) => m.channel == channel);
  }

  // ---------------------------------------------------------------------------
  // Relative time
  // ---------------------------------------------------------------------------

  /** `getTimeAgo(timestamp)` at instant `now`: whole minutes elapsed, with a
      singular label for exactly one minute. */
  function TimeAgo(now: int, timestamp: int): (r: string)
    ensures r == "Just now" <==> now - timestamp < 60000
    ensures r == "1 min ago" <==> 60000 <= now - timestamp < 120000
    ensures now - timestamp >= 120000 ==> r == NatToString((now - timestamp) / 60000) + " min ago"
  {
    var minutes := (now - timestamp) / 60000;
    if minutes < 1 then "Just now"
    else if minutes == 1 then "1 min ago"
    else
      var r := NatToString(minutes) + " min ago";
      assert IsDigit(r[0]) && !IsDigit("Just now"[0]);
      assert |NatToString(minutes)| == 1 ==> r[0] != '1';
      r
  }

  /** The label never shows "1 min" for anything but one whole minute, and its
      number reads back as the whole minutes elapsed. */
  lemma TimeAgoReadsBack(now: int, timestamp: int)
    requires now - timestamp >= 60000
    ensures var r := TimeAgo(now, timestamp);
            ParseNat(r[..|r| - 8]) == (now - timestamp) / 60000
  {
    var m: nat := (now - timestamp) / 60000;
    var r := TimeAgo(now, timestamp);
    if m == 1 {
      assert r[..|r| - 8] == "1";
    } else {
      assert r[..|r| - 8] == NatToString(m);
      ParseNatToString(m);
    }
  }

  // ---------------------------------------------------------------------------
  // Styling
  // ---------------------------------------------------------------------------

  /** `channels.find(c => c.id === channelId)?.icon || 'Radio'`. Dispatch's own
      icon is also 'Radio', so the fallback looks like the dispatch channel. */
  function ChannelIcon(channelId: string): (icon: string)
    ensures forall k :: 0 <= k < |Channels| && Channels[k].id == channelId ==> icon == Channels[k].icon
    ensures (forall k :: 0 <= k < |Channels| ==> Channels[k].id != channelId) ==> icon == "Radio"
  {
    match Find(Channels, (c: Channel) => c.id == channelId)
    case Some(c) => if c.icon != "" then c.icon else "Radio"
    case None => "Radio"
  }

  /** The footer: "N messages in <channel name>"; the name is missing for an
      unknown channel. */
  function Footer(st: ChatState): (r: (nat, Option<string>))
    ensures r.0 == Count(st.messages, (m: Message) => m.channel == st.activeChannel)
    ensures r.1.Some? <==> exists k :: 0 <= k < |Channels| && Channels[k].id == st.activeChannel
    ensures r.1.Some? ==> exists k :: 0 <= k < |Channels| && Channels[k].id == st.activeChannel && r.1.value == Channels[k].name
  {
    var name := match Find(Channels, (c: Channel) => c.id == st.activeChannel)
                case Some(c) => Some(c.name)
                case None => None;
    (|Visible(st.messages, st.activeChannel)|, name)
  }

  const PriorityColors: map<string, string> :=
    map["high" := "text-error", "normal" := "text-foreground", "low" := "text-muted-foreground"]

  /** `getPriorityColor`: an unknown priority looks like a normal one. */
  function PriorityColor(priority: string): (c: string)
    ensures priority in PriorityColors ==> c == PriorityColors[priority]
    ensures priority !in PriorityColors ==> c == PriorityColors["normal"]
  {
    if priority == "high" then "text-error"
    else if priority == "normal" then "text-foreground"
    else if priority == "low" then "text-muted-foreground"
    else "text-foreground"
  }

  const MessageTypeIcons: map<string, string> :=
    map["broadcast" := "Megaphone", "response" := "MessageSquare", "request" := "HelpCircle",
        "update" := "Info", "report" := "FileText"]

  /** `getMessageTypeIcon`: an unknown type looks like a response. */
  function MessageTypeIcon(kind: string): (icon: string)
    ensures kind in MessageTypeIcons ==> icon == MessageTypeIcons[kind]
    ensures kind !in MessageTypeIcons ==> icon == "MessageSquare"
  {
    if kind == "broadcast" then "Megaphone"
    else if kind == "response" then "MessageSquare"
    else if kind == "request" then "HelpCircle"
    else if kind == "update" then "Info"
    else if kind == "report" then "FileText"
    else "MessageSquare"
  }
}
