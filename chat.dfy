/** The chat client: the registry of auto-joined channels, the login and
    JOIN replay, the dispatch of the server's lines, the keepalive guards and
    the disposal hook that marks every channel as not joined.
    It owns a `BaseClient` and runs its own hooks around the base steps. The
    line parser is not part of this model: a received line arrives already
    parsed, together with the connection it came from and its raw text. */
module Chat {
  import opened Wrappers
  import opened Errors
  import opened Text
  import opened Lists
  import opened Irc
  import opened ChatProtocol
  import opened Watchdog
  import opened Transport
  import opened Client

  /** ROOMSTATE: the channel and the settings its tags carry. The tag decoding
      belongs to the parser library, so the settings come decoded. */
  datatype RoomStateMessage = RoomStateMessage(channel: string, settings: RoomSettings)

  /** The notifications of the client and of its channels, in order; a
      channel raises `Joined` where the client raises `ChannelJoined`. */
  datatype ChatEvent =
    | AuthFinished(globalUserState: Option<IrcMessage>)
    | AuthFailed
    | ChannelJoined(channel: string)
    | Joined
    | PrivateMessageReceived(privateMessage: PrivateMessage)
    | RoomStateReceived(roomState: RoomStateMessage)
    | NoticeReceived(noticeMessage: NoticeMessage)
    | ClearChatReceived(clearChat: ClearChatMessage)

  /** The names of a list of channels, in order. */
  function Names(cs: seq<ChatAutoChannel>): (r: seq<string>)
    ensures |r| == |cs|
    ensures forall i :: 0 <= i < |cs| ==> r[i] == cs[i].channel
  {
    seq(|cs|, i requires 0 <= i < |cs| => cs[i].channel)
  }

  /** What a channel keeps, as a value. */
  datatype ChannelView = ChannelView(isJoined: bool, settings: RoomSettings, events: seq<ChatEvent>)

  /** The views of a list of channels, in order. */
  function Views(cs: seq<ChatAutoChannel>): (r: seq<ChannelView>)
    reads set c | c in cs
    ensures |r| == |cs| && forall i :: 0 <= i < |cs| ==> r[i] == cs[i].View()
  {
    seq(|cs|, i requires 0 <= i < |cs| reads cs => cs[i].View())
  }

  /** What the disposal hook does to the channels: each is marked as not
      joined and keeps its settings and its notifications. */
  function Unjoined(vs: seq<ChannelView>): (r: seq<ChannelView>)
    ensures |r| == |vs|
    ensures forall i :: 0 <= i < |vs| ==> r[i] == vs[i].(isJoined := false)
  {
    seq(|vs|, i requires 0 <= i < |vs| => vs[i].(isJoined := false))
  }

  /** A channel that a server line is forwarded to raises `ev`, merges
      `incoming` into its settings and, when `joins`, becomes joined. */
  function Delivered(v: ChannelView, ev: ChatEvent, joins: bool, incoming: RoomSettings): ChannelView {
    ChannelView(joins || v.isJoined, Merge(v.settings, incoming), v.events + [ev])
  }

  /** Forwarding to the channel at `target`, if any; the others are unchanged. */
  function Notify(vs: seq<ChannelView>, target: Option<nat>, ev: ChatEvent, joins: bool, incoming: RoomSettings): (r: seq<ChannelView>)
    ensures |r| == |vs|
    ensures forall i :: 0 <= i < |vs| && target != Some(i) ==> r[i] == vs[i]
  {
    if target.Some? && target.value < |vs| then vs[target.value := Delivered(vs[target.value], ev, joins, incoming)]
    else vs
  }

  /** Among names that are distinct ignoring case, a line for `name` reaches
      exactly the channel whose name equals it ignoring case, and every
      other channel is left as it was. */
  lemma NotifyReachesMatch(names: seq<string>, vs: seq<ChannelView>, name: string, ev: ChatEvent, joins: bool, incoming: RoomSettings)
    requires |names| == |vs| && DistinctIgnoreCase(names)
    ensures forall i :: 0 <= i < |vs| ==>
      Notify(vs, FindName(names, name), ev, joins, incoming)[i] ==
        if EqualsIgnoreCase(names[i], name) then Delivered(vs[i], ev, joins, incoming) else vs[i]
  {
    FindNameFirst(names, name);
    FindNameUnique(names, name);
  }

  /** A delivered line is appended to the channel's events, can only set the
      joined flag, and its known settings win over the kept ones. */
  lemma DeliveredSpec(v: ChannelView, ev: ChatEvent, joins: bool, incoming: RoomSettings)
    ensures Delivered(v, ev, joins, incoming).events == v.events + [ev]
    ensures Delivered(v, ev, joins, incoming).isJoined == (joins || v.isJoined)
    ensures incoming == Unknown ==> Delivered(v, ev, joins, incoming).settings == v.settings
    ensures Merge(Delivered(v, ev, joins, incoming).settings, incoming) == Delivered(v, ev, joins, incoming).settings
  {
    MergeUnknownIdentity(v.settings);
    MergeIdempotent(v.settings, incoming);
  }

  twostate predicate ChannelsKept(cs: seq<ChatAutoChannel>)
    reads set c | c in cs
  {
    Views(cs) == old(Views(cs))
  }

  twostate predicate ChannelsUnjoined(cs: seq<ChatAutoChannel>)
    reads set c | c in cs
  {
    Views(cs) == Unjoined(old(Views(cs)))
  }

  /** The line was forwarded to the first channel whose name equals `name`
      ignoring case, if there is one. */
  twostate predicate Notified(cs: seq<ChatAutoChannel>, name: string, ev: ChatEvent, joins: bool, incoming: RoomSettings)
    reads set c | c in cs
  {
    Views(cs) == Notify(old(Views(cs)), FindName(Names(cs), name), ev, joins, incoming)
  }

  /** A registry of channels: every channel belongs to `owner`, no two names
      are equal ignoring case, and so no channel is listed twice. */
  ghost predicate Registry(cs: seq<ChatAutoChannel>, owner: TwitchChatClient) {
    && (forall i :: 0 <= i < |cs| ==> cs[i].client == owner)
    && DistinctIgnoreCase(Names(cs))
    && NoDuplicates(cs)
  }

  /** Appending a channel whose name is not yet present keeps the registry
      invariant, and the name then resolves to the new, last channel. */
  lemma AppendRegistry(cs: seq<ChatAutoChannel>, c: ChatAutoChannel, owner: TwitchChatClient)
    requires Registry(cs, owner) && c.client == owner && c !in cs
    requires FindName(Names(cs), c.channel).None?
    ensures Registry(cs + [c], owner)
    ensures FindName(Names(cs + [c]), c.channel) == Some(|cs|)
  {
    var names := Names(cs);
    var grown := names + [c.channel];
    assert Names(cs + [c]) == grown;
    FindNameUnique(names, c.channel);
    FindNameFirst(names, c.channel);
    FindNameFirst(grown, c.channel);
    assert EqualsIgnoreCase(grown[|cs|], c.channel);
    assert forall j :: 0 <= j < |cs| ==> grown[j] == names[j];
  }

  /** Removing a channel keeps the registry invariant, and when the channel
      was listed no remaining channel answers to its name. */
  lemma RemoveRegistry(cs: seq<ChatAutoChannel>, c: ChatAutoChannel, owner: TwitchChatClient)
    requires Registry(cs, owner)
    ensures Registry(RemoveFirst(cs, c), owner) && c !in RemoveFirst(cs, c)
    ensures c in cs ==> forall j :: 0 <= j < |RemoveFirst(cs, c)| ==> !EqualsIgnoreCase(RemoveFirst(cs, c)[j].channel, c.channel)
  {
    RemoveFirstGone(cs, c);
    IndexOfItemFirst(cs, c);
    if c in cs {
      var i := IndexOfItem(cs, c).value;
      var r := cs[..i] + cs[i + 1..];
      assert RemoveFirst(cs, c) == r;
      RemovedAt(cs, i);
      assert forall j :: 0 <= j < |cs| && j != i ==> !EqualsIgnoreCase(cs[j].channel, cs[i].channel);
    }
  }

  /** The names and owners left after dropping the channel at `i`. */
  lemma RemovedAt(cs: seq<ChatAutoChannel>, i: nat)
    requires i < |cs| && DistinctIgnoreCase(Names(cs))
    ensures var r := cs[..i] + cs[i + 1..];
      && (forall p :: 0 <= p < |r| ==> r[p] == cs[if p < i then p else p + 1])
      && DistinctIgnoreCase(Names(r))
  {
    var r := cs[..i] + cs[i + 1..];
    assert forall p :: 0 <= p < |r| ==> r[p] == cs[if p < i then p else p + 1];
    assert Names(r) == Names(cs)[..i] + Names(cs)[i + 1..];
    DistinctWithout(Names(cs), i);
  }

  /** A channel the client joins on every connection. */
  class ChatAutoChannel {
    const channel: string
    const client: TwitchChatClient
    var isJoined: bool
    var settings: RoomSettings
    var events: seq<ChatEvent>

    function View(): ChannelView
      reads this
    {
      ChannelView(isJoined, settings, events)
    }

    constructor (channel: string, client: TwitchChatClient)
      ensures this.channel == channel && this.client == client
      ensures View() == ChannelView(false, Unknown, [])
    {
      this.channel := channel;
      this.client := client;
      isJoined := false;
      settings := Unknown;
      events := [];
    }

    /** The server confirmed the join. */
    method OnChannelJoined()
      modifies this`isJoined, this`events
      ensures isJoined && events == old(events) + [Joined]
    {
      isJoined := true;
      events := events + [Joined];
    }

    method OnPrivateMessageReceived(message: PrivateMessage)
      modifies this`events
      ensures events == old(events) + [PrivateMessageReceived(message)]
    {
      events := events + [PrivateMessageReceived(message)];
    }

    /** Each setting the message carries replaces the kept one; the others stay. */
    method OnRoomStateReceived(message: RoomStateMessage)
      modifies this`settings, this`events
      ensures settings == Merge(old(settings), message.settings)
      ensures events == old(events) + [RoomStateReceived(message)]
    {
      var incoming := message.settings;
      if incoming.emoteOnly.Some? {
        settings := settings.(emoteOnly := incoming.emoteOnly);
      }
      if incoming.followersOnly.Some? {
        settings := settings.(followersOnly := incoming.followersOnly);
      }
      if incoming.r9k.Some? {
        settings := settings.(r9k := incoming.r9k);
      }
      if incoming.slow.Some? {
        settings := settings.(slow := incoming.slow);
      }
      if incoming.subsOnly.Some? {
        settings := settings.(subsOnly := incoming.subsOnly);
      }
      events := events + [RoomStateReceived(message)];
    }

    method OnNoticeReceived(message: NoticeMessage)
      modifies this`events
      ensures events == old(events) + [NoticeReceived(message)]
    {
      events := events + [NoticeReceived(message)];
    }

    method OnClearChatReceived(message: ClearChatMessage)
      modifies this`events
      ensures events == old(events) + [ClearChatReceived(message)]
    {
      events := events + [ClearChatReceived(message)];
    }

    /** Writes a message to this channel through the client, under this
        channel's own name. */
    method SendMessage(text: string)
      requires client.Valid()
      modifies client.core.connection, client.core`pendingReconnects, client.core`events, client.Channels(), client.pingManager
      ensures client.Valid()
      ensures client.SentOn(old(client.core.connection), [PrivMsgCommand(channel, text)], client.autoChannels)
    {
      client.SendMessage(channel, text);
    }

    /** Writes a reply to the message `parentMessageId` in this channel. */
    method Reply(text: string, parentMessageId: string)
      requires client.Valid()
      modifies client.core.connection, client.core`pendingReconnects, client.core`events, client.Channels(), client.pingManager
      ensures client.Valid()
      ensures client.SentOn(old(client.core.connection), [ReplyCommand(channel, text, parentMessageId)], client.autoChannels)
    {
      client.Reply(channel, text, parentMessageId);
    }
  }

  class TwitchChatClient {
    const core: BaseClient<string>
    /** The login has no account; only then does the end of the message of
        the day finish the login. */
    const anonymous: bool
    const username: Option<string>
    const oauthToken: Option<string>
    var autoChannels: seq<ChatAutoChannel>
    var pingManager: PingManager?
    var events: seq<ChatEvent>

    /** The registry invariant holds for the channel list. */
    ghost predicate Valid()
      reads this, core, core.connection
    {
      core.Valid() && Registry(autoChannels, this)
    }

    ghost function Channels(): set<ChatAutoChannel>
      reads this
    {
      set c | c in autoChannels
    }

    constructor (anonymous: bool, username: Option<string>, oauthToken: Option<string>,
                 minReconnectMs: int, maxReconnectMs: int)
      ensures Valid()
      ensures this.anonymous == anonymous && this.username == username && this.oauthToken == oauthToken
      ensures fresh(core) && fresh(core.backoff) && core.connection == null && !core.closed
      ensures core.events == [] && core.pendingReconnects == 0 && core.backoff.attempts == 0
      ensures core.backoff.minTime == minReconnectMs && core.backoff.maxTime == maxReconnectMs
      ensures autoChannels == [] && pingManager == null && events == []
    {
      core := new BaseClient<string>(minReconnectMs, maxReconnectMs);
      this.anonymous := anonymous;
      this.username := username;
      this.oauthToken := oauthToken;
      autoChannels := [];
      pingManager := null;
      events := [];
    }

    // ---------------------------------------------------------------------
    // The registry

    /** The first channel whose name equals `name` ignoring case: null exactly
        when no channel has that name. */
    function GetChannel(name: string): (r: ChatAutoChannel?)
      reads this
      ensures r == null <==> forall i :: 0 <= i < |autoChannels| ==> !EqualsIgnoreCase(autoChannels[i].channel, name)
      ensures r != null ==> r in autoChannels && EqualsIgnoreCase(r.channel, name)
    {
      FindNameFirst(Names(autoChannels), name);
      match FindName(Names(autoChannels), name)
      case None => null
      case Some(k) => autoChannels[k]
    }

    /** Registers a channel by name, before or after the client starts. A
        name already registered, ignoring case, gives the channel it names;
        otherwise a new, not joined channel is appended. Either way the name
        then resolves to the returned channel. */
    method AddAutoJoinChannel(name: string) returns (ch: ChatAutoChannel)
      requires Valid()
      modifies this`autoChannels
      ensures Valid() && GetChannel(name) == ch
      ensures old(GetChannel(name)) != null ==> ch == old(GetChannel(name)) && autoChannels == old(autoChannels)
      ensures old(GetChannel(name)) == null ==>
        && fresh(ch) && ch.channel == name && ch.client == this
        && !ch.isJoined && ch.settings == Unknown && ch.events == []
        && autoChannels == old(autoChannels) + [ch]
    {
      var existing := GetChannel(name);
      if existing != null {
        return existing;
      }
      ch := new ChatAutoChannel(name, this);
      AppendRegistry(autoChannels, ch, this);
      autoChannels := autoChannels + [ch];
    }

    /** `AddAutoChannel` and `AddAutoChannelAsync`: registers like
        `AddAutoJoinChannel` and, when a new channel was registered while
        connected, sends its JOIN under the name given. The JOIN is written
        here before the channel is appended: the only thing a failed write
        runs is the disposal hook, which leaves a new channel not joined
        either way, so the final state is the same. */
    method AddAutoChannel(name: string) returns (ch: ChatAutoChannel)
      requires Valid()
      modifies this`autoChannels, core.connection, Channels(), pingManager, core`pendingReconnects, core`events
      ensures Valid() && GetChannel(name) == ch
      ensures old(GetChannel(name)) != null ==>
        && ch == old(GetChannel(name)) && autoChannels == old(autoChannels)
        && Kept(autoChannels) && (core.connection != null ==> core.connection.View() == old(core.connection.View()))
      ensures old(GetChannel(name)) == null ==>
        && fresh(ch) && ch.channel == name && ch.client == this
        && !ch.isJoined && ch.settings == Unknown && ch.events == []
        && autoChannels == old(autoChannels) + [ch]
        && (old(core.IsConnected()) ==> SentOn(old(core.connection), [JoinCommand(name)], old(autoChannels)))
        && (!old(core.IsConnected()) ==> Kept(old(autoChannels)) && (core.connection != null ==> core.connection.View() == old(core.connection.View())))
    {
      if GetChannel(name) == null && core.IsConnected() {
        Join(name);
      }
      ch := AddAutoJoinChannel(name);
    }

    /** `List.Remove` on the registry, by identity. Afterwards no channel
        answers to the name of a channel that was removed. */
    method Unregister(ch: ChatAutoChannel) returns (removed: bool)
      requires Valid()
      modifies this`autoChannels
      ensures Valid() && removed == (ch in old(autoChannels))
      ensures autoChannels == RemoveFirst(old(autoChannels), ch) && ch !in autoChannels
      ensures removed ==> GetChannel(ch.channel) == null
    {
      RemoveRegistry(autoChannels, ch, this);
      removed := ch in autoChannels;
      autoChannels := RemoveFirst(autoChannels, ch);
    }

    /** `RemoveAutoChannel` and `RemoveAutoChannelAsync` on a channel: the
        channel is unregistered, then a PART under its own name is written
        when it was listed and the client is connected. The removed channel
        itself is left as it was, so it keeps its joined flag. */
    method RemoveAutoChannel(ch: ChatAutoChannel) returns (removed: bool)
      requires Valid()
      modifies this`autoChannels, core.connection, Channels(), pingManager, core`pendingReconnects, core`events
      ensures Valid() && removed == (ch in old(autoChannels))
      ensures autoChannels == RemoveFirst(old(autoChannels), ch) && ch !in autoChannels
      ensures removed ==> GetChannel(ch.channel) == null
      ensures ch.View() == old(ch.View())
      ensures removed && old(core.IsConnected()) ==>
        SentOn(old(core.connection), [PartCommand(ch.channel)], autoChannels)
      ensures !(removed && old(core.IsConnected())) ==>
        Kept(autoChannels) && (core.connection != null ==> core.connection.View() == old(core.connection.View()))
    {
      removed := Unregister(ch);
      if removed && core.IsConnected() {
        label unregistered:
        Leave(ch.channel);
        assert SentOn@unregistered(old(core.connection), [PartCommand(ch.channel)], autoChannels);
      }
    }

    /** The by-name overloads: false when no channel has the name; otherwise
        that channel is removed as above. Afterwards no channel answers to
        the name. */
    method RemoveAutoChannelNamed(name: string) returns (removed: bool)
      requires Valid()
      modifies this`autoChannels, core.connection, Channels(), pingManager, core`pendingReconnects, core`events
      ensures Valid() && GetChannel(name) == null
      ensures removed == (old(GetChannel(name)) != null)
      ensures !removed ==> autoChannels == old(autoChannels) && Kept(autoChannels) && (core.connection != null ==> core.connection.View() == old(core.connection.View()))
      ensures removed ==> autoChannels == RemoveFirst(old(autoChannels), old(GetChannel(name)) as ChatAutoChannel)
      ensures removed && old(core.IsConnected()) ==>
        SentOn(old(core.connection), [PartCommand(old(GetChannel(name)).channel)], autoChannels)
    {
      var ch := GetChannel(name);
      if ch == null {
        return false;
      }
      removed := RemoveAutoChannel(ch);
    }

    /** A snapshot of the registry, in order. */
    method CopyAutoChannels() returns (r: seq<ChatAutoChannel>)
      ensures r == autoChannels && forall c :: c in r <==> c in Channels()
    {
      r := autoChannels;
    }

    // ---------------------------------------------------------------------
    // What a step leaves alone, and what the disposal hook does

    /** Nothing the client and the channels `cs` keep changed. */
    twostate predicate Kept(cs: seq<ChatAutoChannel>)
      reads this`pingManager, core, pingManager, set c | c in cs
    {
      pingManager == old(pingManager) && ChannelsKept(cs) && WatchKept(pingManager) && core.View() == old(core.View())
    }

    /** The disposal hook ran once, for `reason`, with `pm` as the watchdog:
        the channels `cs` are marked as not joined, the watchdog is stopped,
        and the base hook ran. */
    twostate predicate Handled(reason: Option<Fault>, cs: seq<ChatAutoChannel>, pm: PingManager?)
      reads core, pm, set c | c in cs
    {
      ChannelsUnjoined(cs) && WatchStopped(pm) && core.View() == AfterDisposing(old(core.View()), reason)
    }

    /** The lines `messages` were written to `conn`, in order, with the
        connection's failure handling: nothing when it is not open; all of
        them when writes succeed; when writes throw, the first write disposes
        the connection, the disposal hook runs with `pm` as the watchdog, and
        the rest are no-ops. A null connection writes nothing. */
    twostate predicate Wrote(conn: WsConnection?<string>, messages: seq<string>, cs: seq<ChatAutoChannel>, pm: PingManager?)
      reads core, pm, conn, set c | c in cs
    {
      var quiet := ChannelsKept(cs) && WatchKept(pm) && core.View() == old(core.View());
      if conn == null then quiet
      else
        var before := old(conn.View());
        && conn.View() == AfterWrites(before, messages)
        && if WriteFails(before, messages) then Handled(Some(SendFailed), cs, pm) else quiet
    }

    /** `Wrote`, with the client's own watchdog left in place. */
    twostate predicate SentOn(conn: WsConnection?<string>, messages: seq<string>, cs: seq<ChatAutoChannel>)
      reads this`pingManager, core, pingManager, conn, set c | c in cs
    {
      pingManager == old(pingManager) && Wrote(conn, messages, cs, pingManager)
    }

    /** The chat client's disposal hook: every registered channel is marked
        as not joined, the watchdog is stopped, then the base hook runs. */
    method ConnectionDisposing(reason: Option<Fault>)
      requires Valid()
      modifies Channels(), pingManager, core`pendingReconnects, core`events
      ensures Valid() && pingManager == old(pingManager) && Handled(reason, autoChannels, pingManager)
    {
      for i := 0 to |autoChannels|
        invariant forall j :: 0 <= j < |autoChannels| ==>
           autoChannels[j].View() == if j < i then old(autoChannels[j].View()).(isJoined := false) else old(autoChannels[j].View())
        invariant pingManager != null ==> pingManager.Current() == old(pingManager.Current())
        invariant core.pendingReconnects == old(core.pendingReconnects) && core.events == old(core.events)
      {
        autoChannels[i].isJoined := false;
      }
      if pingManager != null {
        pingManager.Stop();
      }
      core.ConnectionDisposing(reason);
    }

    // ---------------------------------------------------------------------
    // Writing

    /** `SendRawAsync(connection, line)`: a write to the given connection,
        whose disposal, if the write causes it, runs the disposal hook. */
    method SendOn(conn: WsConnection?<string>, message: string)
      requires Valid() && (conn != null ==> conn.Valid())
      modifies conn, Channels(), pingManager, core`pendingReconnects, core`events
      ensures Valid() && (conn != null ==> conn.Valid())
      ensures SentOn(conn, [message], autoChannels)
    {
      if conn != null {
        var wasDisposed := conn.disposed;
        conn.SendAsync(message);
        if !wasDisposed && conn.disposed {
          ConnectionDisposing(Some(SendFailed));
        }
      }
    }

    /** Writes the lines in order, each with `SendOn`. */
    method SendAllOn(conn: WsConnection<string>, messages: seq<string>)
      requires Valid() && conn.Valid()
      modifies conn, Channels(), pingManager, core`pendingReconnects, core`events
      ensures Valid() && conn.Valid()
      ensures SentOn(conn, messages, autoChannels)
    {
      for i := 0 to |messages|
        invariant Valid() && conn.Valid()
        invariant SentOn(conn, messages[..i], autoChannels)
      {
        WritesCompose(old(conn.View()), messages[..i], [messages[i]]);
        SendOn(conn, messages[i]);
        assert messages[..i + 1] == messages[..i] + [messages[i]];
      }
      assert messages[..|messages|] == messages;
    }

    /** `SendMessageAsync(channel, text)`: a PRIVMSG on the current connection. */
    method SendMessage(channel: string, text: string)
      requires Valid()
      modifies core.connection, Channels(), pingManager, core`pendingReconnects, core`events
      ensures Valid()
      ensures SentOn(old(core.connection), [PrivMsgCommand(channel, text)], autoChannels)
    {
      SendOn(core.connection, PrivMsgCommand(channel, text));
    }

    /** The reply overload of `SendMessageAsync`. */
    method Reply(channel: string, text: string, parentMessageId: string)
      requires Valid()
      modifies core.connection, Channels(), pingManager, core`pendingReconnects, core`events
      ensures Valid()
      ensures SentOn(old(core.connection), [ReplyCommand(channel, text, parentMessageId)], autoChannels)
    {
      SendOn(core.connection, ReplyCommand(channel, text, parentMessageId));
    }

    method Join(channel: string)
      requires Valid()
      modifies core.connection, Channels(), pingManager, core`pendingReconnects, core`events
      ensures Valid()
      ensures SentOn(old(core.connection), [JoinCommand(channel)], autoChannels)
    {
      SendOn(core.connection, JoinCommand(channel));
    }

    method Leave(channel: string)
      requires Valid()
      modifies core.connection, Channels(), pingManager, core`pendingReconnects, core`events
      ensures Valid()
      ensures SentOn(old(core.connection), [PartCommand(channel)], autoChannels)
    {
      SendOn(core.connection, PartCommand(channel));
    }

    // ---------------------------------------------------------------------
    // Connecting

    /** The post-connect hook: the three login lines are written, in order, on
        the new connection, then a watchdog that compares pong texts is made
        for that connection and started. The watchdog is made even when a
        login write disposed the connection; its guards keep it from acting
        on a connection that is not current and open. */
    method ConnectedAsync(conn: WsConnection<string>)
      requires Valid() && conn.Valid()
      modifies conn, Channels(), pingManager, this`pingManager, core`pendingReconnects, core`events
      ensures Valid() && conn.Valid()
      ensures Wrote(conn, LoginCommands(oauthToken, username), autoChannels, old(pingManager))
      ensures fresh(pingManager) && pingManager.compareText && pingManager.state == conn
      ensures pingManager.Current() == Step(true, Initial, Event.Start)
    {
      SendAllOn(conn, LoginCommands(oauthToken, username));
      StartWatchdog(conn);
    }

    /** A started watchdog that compares pong texts, made for `conn`,
        replaces the client's one. */
    method StartWatchdog(conn: WsConnection<string>)
      modifies this`pingManager
      ensures fresh(pingManager) && pingManager.compareText && pingManager.state == conn
      ensures pingManager.Current() == Step(true, Initial, Event.Start)
    {
      var pm := new PingManager(true, conn);
      pm.Start();
      pingManager := pm;
    }

    /** `ConnectAsync`: a new connection replaces the old one and is started.
        A failed connect disposes it, and the disposal hook runs. A
        successful one resets the backoff, runs the post-connect hook and
        raises `Connected`, in that order. Whether the connect succeeds and
        whether writes on the new socket throw are up to the environment. */
    method ConnectAsync(connectSucceeds: bool, writesFail: bool)
      requires Valid()
      modifies core, core.backoff, this`pingManager, Channels(), pingManager
      ensures Valid() && fresh(core.connection) && !core.closed
      ensures !connectSucceeds ==>
        && core.connection.View() == StartedView(false)
        && core.backoff.attempts == old(core.backoff.attempts)
        && pingManager == old(pingManager) && ChannelsUnjoined(autoChannels) && WatchStopped(pingManager)
        && core.pendingReconnects == old(core.pendingReconnects) + 1
        && core.events == old(core.events) + [ConnectionClosed(Some(ConnectFailed))]
      ensures connectSucceeds ==>
        && core.backoff.attempts == 0
        && fresh(pingManager) && pingManager.compareText && pingManager.state == core.connection
        && pingManager.Current() == Step(true, Initial, Event.Start)
      ensures connectSucceeds ==> Opened(autoChannels, writesFail, old(pingManager), old(core.events), old(core.pendingReconnects))
    {
      var ok := core.StartConnection(connectSucceeds);
      if !ok {
        ConnectionDisposing(Some(ConnectFailed));
        return;
      }
      if writesFail {
        core.connection.Break();
      }
      ConnectionOpened(writesFail);
    }

    /** What the rest of a successful connect leaves behind, given what the
        watchdog, the events and the count of pending reconnects were
        before: with working writes the three login lines are sent and
        `Connected` is raised; with throwing writes the first login line
        disposes the connection, the disposal hook runs for the old
        watchdog, and `Connected` is raised after it all the same. */
    twostate predicate Opened(cs: seq<ChatAutoChannel>, writesFail: bool, pm: PingManager?, events0: seq<ClientEvent>, pending0: nat)
      reads core, core.connection, pm, set c | c in cs
    {
      && core.connection != null
      && (!writesFail ==>
        && core.connection.View() == StartedView(true).(sent := LoginCommands(oauthToken, username))
        && ChannelsKept(cs) && WatchKept(pm)
        && core.pendingReconnects == pending0
        && core.events == events0 + [Connected])
      && (writesFail ==>
        && core.connection.View() == StartedView(true).(faulty := true, disposed := true, open := false,
                                                        disposals := [Some(SendFailed)])
        && ChannelsUnjoined(cs) && WatchStopped(pm)
        && core.pendingReconnects == pending0 + 1
        && core.events == events0 + [ConnectionClosed(Some(SendFailed)), Connected])
    }

    /** The part of `ConnectAsync` after a connect that succeeded, on a
        socket whose writes throw when `writesFail`. */
    method ConnectionOpened(writesFail: bool)
      requires Valid() && !core.closed && core.connection != null
      requires core.connection.View() == StartedView(true).(faulty := writesFail)
      modifies core.connection, this`pingManager, Channels(), pingManager, core`pendingReconnects, core`events
      ensures Valid() && core.connection == old(core.connection)
      ensures fresh(pingManager) && pingManager.compareText && pingManager.state == core.connection
      ensures pingManager.Current() == Step(true, Initial, Event.Start)
      ensures Opened(autoChannels, writesFail, old(pingManager), old(core.events), old(core.pendingReconnects))
    {
      var conn := core.connection;
      ConnectedAsync(conn);
      core.RaiseConnected();
    }

    /** `Close`: sets `Closed` and disposes the current connection. When that
        disposal is the connection's first, the disposal hook runs, and
        because the client is closed it schedules no reconnect. */
    method Close()
      requires Valid()
      modifies core`closed, core.connection, Channels(), pingManager, core`pendingReconnects, core`events
      ensures Valid() && core.closed && core.connection == old(core.connection) && pingManager == old(pingManager)
      ensures core.pendingReconnects == old(core.pendingReconnects)
      ensures core.connection == null || old(core.connection.disposed) ==>
        && (core.connection != null ==> core.connection.View() == old(core.connection.View()))
        && ChannelsKept(autoChannels) && WatchKept(pingManager) && core.events == old(core.events)
      ensures core.connection != null && !old(core.connection.disposed) ==>
        && core.connection.View() == old(core.connection.View()).(disposed := true, open := false,
                                                                  disposals := old(core.connection.disposals) + [None])
        && ChannelsUnjoined(autoChannels) && WatchStopped(pingManager)
        && core.events == old(core.events) + [ConnectionClosed(None)]
    {
      var disposedNow := core.Close();
      if disposedNow {
        ConnectionDisposing(None);
      }
    }

    /** A scheduled reconnect task runs: the backoff wait plus the jitter is
        taken, and unless the client's token fired during the wait the client
        connects again. `Closed` is not consulted, so a client closed while
        the task waited connects again too, and is no longer closed. */
    method RunReconnectTask(jitterMs: int, cancelled: bool, connectSucceeds: bool, writesFail: bool)
      requires Valid() && MinJitterMs <= jitterMs < MaxJitterMs
      modifies core, core.backoff, this`pingManager, Channels(), pingManager
      ensures Valid()
      ensures old(core.pendingReconnects) == 0 ==>
        && core.View() == old(core.View()) && core.backoff.attempts == old(core.backoff.attempts)
        && pingManager == old(pingManager) && ChannelsKept(autoChannels) && WatchKept(pingManager)
      ensures old(core.pendingReconnects) > 0 ==>
        && |core.events| > |old(core.events)|
        && core.events[..|old(core.events)| + 1] ==
             old(core.events) + [ReconnectWait(ReconnectWaitMs(core.backoff.minTime, core.backoff.maxTime, old(core.backoff.attempts), jitterMs))]
      ensures old(core.pendingReconnects) > 0 && cancelled ==>
        && core.connection == old(core.connection) && core.closed == old(core.closed)
        && core.pendingReconnects == old(core.pendingReconnects) - 1
        && core.backoff.attempts == old(core.backoff.attempts) + 1
        && |core.events| == |old(core.events)| + 1
        && pingManager == old(pingManager) && ChannelsKept(autoChannels) && WatchKept(pingManager)
      ensures old(core.pendingReconnects) > 0 && !cancelled ==>
        && fresh(core.connection) && !core.closed
        && core.connection.open == (connectSucceeds && !writesFail)
        && core.backoff.attempts == (if connectSucceeds then 0 else old(core.backoff.attempts) + 1)
        && core.pendingReconnects == old(core.pendingReconnects) - 1 + (if core.connection.open then 0 else 1)
    {
      var reconnect := core.RunReconnectTask(jitterMs, cancelled);
      if reconnect {
        ConnectAsync(connectSucceeds, writesFail);
      }
    }

    // ---------------------------------------------------------------------
    // Keepalive

    /** The watchdog was made for the current connection, is the client's
        current one, and the client is connected: only then do its
        notifications act. */
    predicate Owns(pm: PingManager)
      reads this, core, core.connection
    {
      pm == pingManager && pm.state == core.connection && core.IsConnected()
    }

    /** `Pinging`: the probe `PING :<text>` is written only when the client
        owns the watchdog. */
    method Pinging(pm: PingManager, text: string)
      requires Valid()
      modifies core.connection, Channels(), pingManager, core`pendingReconnects, core`events
      ensures Valid()
      ensures old(Owns(pm)) ==> SentOn(old(core.connection), [PingCommand(text)], autoChannels)
      ensures !old(Owns(pm)) ==>
        Kept(autoChannels) && (core.connection != null ==> core.connection.View() == old(core.connection.View()))
    {
      if Owns(pm) {
        SendOn(core.connection, PingCommand(text));
      }
    }

    /** `Timeouted`: when the client owns the watchdog, the current
        connection is disposed with the ping timeout and the disposal hook
        runs, which stops the watchdog. */
    method Timeouted(pm: PingManager)
      requires Valid()
      modifies core.connection, Channels(), pingManager, core`pendingReconnects, core`events
      ensures Valid() && pingManager == old(pingManager)
      ensures old(Owns(pm)) ==>
        && core.connection.View() == old(core.connection.View()).(disposed := true, open := false,
                                                                  disposals := old(core.connection.disposals) + [Some(PingTimeout)])
        && Handled(Some(PingTimeout), autoChannels, pingManager)
      ensures !old(Owns(pm)) ==>
        Kept(autoChannels) && (core.connection != null ==> core.connection.View() == old(core.connection.View()))
    {
      if Owns(pm) {
        core.connection.Dispose(Some(PingTimeout));
        ConnectionDisposing(Some(PingTimeout));
      }
    }

    /** A server PONG reaches the watchdog only when it was made for the
        connection the PONG came on. */
    method ProcessPong(from: WsConnection<string>, text: string)
      modifies pingManager
      ensures pingManager == old(pingManager)
      ensures pingManager != null && pingManager.state == from ==>
        pingManager.Current() == Step(pingManager.compareText, old(pingManager.Current()), Event.Pong(text))
      ensures !(pingManager != null && pingManager.state == from) ==> WatchKept(pingManager)
    {
      if pingManager != null && pingManager.state == from {
        pingManager.PongReceived(text);
      }
    }

    /** A server PING `t` is answered with `PONG :t` on the connection it
        came on. */
    method ProcessPing(from: WsConnection<string>, text: string)
      requires Valid() && from.Valid()
      modifies from, Channels(), pingManager, core`pendingReconnects, core`events
      ensures Valid() && from.Valid()
      ensures SentOn(from, [PongCommand(text)], autoChannels)
    {
      SendOn(from, PongCommand(text));
    }

    // ---------------------------------------------------------------------
    // Login and the server's lines

    /** `ProcessAuthAsync`: `AuthFinished` is raised, then one JOIN per
        registered channel is written on the connection the login finished
        on, in registry order. */
    method ProcessAuth(from: WsConnection<string>, globalUserState: Option<IrcMessage>)
      requires Valid() && from.Valid()
      modifies this`events, from, Channels(), pingManager, core`pendingReconnects, core`events
      ensures Valid() && from.Valid()
      ensures events == old(events) + [AuthFinished(globalUserState)]
      ensures SentOn(from, JoinCommands(Names(autoChannels)), autoChannels)
    {
      events := events + [AuthFinished(globalUserState)];
      var channels := autoChannels;
      SendAllOn(from, JoinCommands(Names(channels)));
    }

    /** The end of the message of the day finishes the login only for an
        anonymous client, which gets no GLOBALUSERSTATE. */
    method Process376(from: WsConnection<string>)
      requires Valid() && from.Valid()
      modifies this`events, from, Channels(), pingManager, core`pendingReconnects, core`events
      ensures Valid() && from.Valid()
      ensures anonymous ==>
        events == old(events) + [AuthFinished(None)] && SentOn(from, JoinCommands(Names(autoChannels)), autoChannels)
      ensures !anonymous ==> events == old(events) && Kept(autoChannels) && from.View() == old(from.View())
    {
      if anonymous {
        ProcessAuth(from, None);
      }
    }

    /** 366: `ChannelJoined` is raised with the name, and the matching channel
        is marked as joined. */
    method ProcessChannelJoined(channel: string)
      requires Valid()
      modifies this`events, Channels()
      ensures events == old(events) + [ChannelJoined(channel)]
      ensures Notified(autoChannels, channel, Joined, true, Unknown)
    {
      events := events + [ChannelJoined(channel)];
      var ch := GetChannel(channel);
      if ch != null {
        ch.OnChannelJoined();
      }
    }

    method ProcessPrivateMessage(message: PrivateMessage)
      requires Valid()
      modifies this`events, Channels()
      ensures events == old(events) + [PrivateMessageReceived(message)]
      ensures Notified(autoChannels, message.channel, PrivateMessageReceived(message), false, Unknown)
    {
      events := events + [PrivateMessageReceived(message)];
      var ch := GetChannel(message.channel);
      if ch != null {
        ch.OnPrivateMessageReceived(message);
      }
    }

    /** ROOMSTATE: raised on the client, then merged into the matching
        channel's settings. */
    method ProcessRoomState(message: RoomStateMessage)
      requires Valid()
      modifies this`events, Channels()
      ensures events == old(events) + [RoomStateReceived(message)]
      ensures Notified(autoChannels, message.channel, RoomStateReceived(message), false, message.settings)
    {
      events := events + [RoomStateReceived(message)];
      var ch := GetChannel(message.channel);
      if ch != null {
        ch.OnRoomStateReceived(message);
      }
    }

    method ProcessClearChat(message: ClearChatMessage)
      requires Valid()
      modifies this`events, Channels()
      ensures events == old(events) + [ClearChatReceived(message)]
      ensures Notified(autoChannels, message.channel, ClearChatReceived(message), false, Unknown)
    {
      events := events + [ClearChatReceived(message)];
      var ch := GetChannel(message.channel);
      if ch != null {
        ch.OnClearChatReceived(message);
      }
    }

    /** NOTICE: raised on the client. The failed-login notice closes the
        client, so no reconnect follows, and then raises `AuthFailed`; any
        other notice goes to the matching channel. */
    method ProcessNotice(message: NoticeMessage)
      requires Valid()
      modifies this`events, core`closed, core.connection, Channels(), pingManager, core`pendingReconnects, core`events
      ensures Valid() && pingManager == old(pingManager) && core.connection == old(core.connection)
      ensures message.notice == AuthFailedNotice ==>
        && events == old(events) + [NoticeReceived(message), AuthFailed]
        && core.closed && core.pendingReconnects == old(core.pendingReconnects)
        && (core.connection != null ==> core.connection.disposed && !core.connection.open)
      ensures message.notice != AuthFailedNotice ==>
        && events == old(events) + [NoticeReceived(message)]
        && Notified(autoChannels, message.channel, NoticeReceived(message), false, Unknown)
        && WatchKept(pingManager) && core.View() == old(core.View())
        && (core.connection != null ==> core.connection.View() == old(core.connection.View()))
    {
      events := events + [NoticeReceived(message)];
      if message.notice == AuthFailedNotice {
        Close();
        events := events + [AuthFailed];
      } else {
        ForwardNotice(message);
      }
    }

    /** Any other notice goes to the channel it names. */
    method ForwardNotice(message: NoticeMessage)
      requires Valid()
      modifies Channels()
      ensures Notified(autoChannels, message.channel, NoticeReceived(message), false, Unknown)
    {
      var ch := GetChannel(message.channel);
      if ch != null {
        ch.OnNoticeReceived(message);
      }
    }

    /** One parsed line from the connection `from`, with its raw text: the
        handler its command selects runs (see `Classify`). */
    method IrcMessageReceived(from: WsConnection<string>, m: IrcMessage, raw: string, roomSettings: RoomSettings)
      requires Valid() && from.Valid()
      modifies this`events, core`closed, core.connection, from, Channels(), pingManager, core`pendingReconnects, core`events
      ensures Valid() && pingManager == old(pingManager) && core.connection == old(core.connection)
      ensures Classify(m, roomSettings).Ignored? ==>
        events == old(events) && Kept(autoChannels) && core.closed == old(core.closed)
        && from.View() == old(from.View())
      ensures Classify(m, roomSettings).Malformed? ==>
        && events == old(events) && ChannelsKept(autoChannels) && WatchKept(pingManager)
        && core.closed == old(core.closed) && core.pendingReconnects == old(core.pendingReconnects)
        && core.events == old(core.events) + [MessageProcessingException(raw)]
        && from.View() == old(from.View())
      ensures ForConnection(Classify(m, roomSettings)) ==> ConnectionLineHandled(from, Classify(m, roomSettings), autoChannels)
      ensures ForChannels(Classify(m, roomSettings)) ==> ChannelLineHandled(Classify(m, roomSettings), autoChannels)
    {
      Dispatch(from, Classify(m, roomSettings), raw);
    }

    /** The handler for a classified line runs. A line whose reading threw
        runs none; the base client reports it with the raw text. */
    method Dispatch(from: WsConnection<string>, inbound: Inbound, raw: string)
      requires Valid() && from.Valid()
      modifies this`events, core`closed, core.connection, from, Channels(), pingManager, core`pendingReconnects, core`events
      ensures Valid() && pingManager == old(pingManager) && core.connection == old(core.connection)
      ensures inbound.Ignored? ==>
        events == old(events) && Kept(autoChannels) && core.closed == old(core.closed)
        && from.View() == old(from.View())
      ensures inbound.Malformed? ==>
        && events == old(events) && ChannelsKept(autoChannels) && WatchKept(pingManager)
        && core.closed == old(core.closed) && core.pendingReconnects == old(core.pendingReconnects)
        && core.events == old(core.events) + [MessageProcessingException(raw)]
        && from.View() == old(from.View())
      ensures ForConnection(inbound) ==> ConnectionLineHandled(from, inbound, autoChannels)
      ensures ForChannels(inbound) ==> ChannelLineHandled(inbound, autoChannels)
    {
      if inbound.Malformed? {
        core.ReportProcessingException(raw);
      } else if ForConnection(inbound) {
        DispatchConnectionLine(from, inbound);
      } else if ForChannels(inbound) {
        DispatchChannelLine(inbound);
      }
    }

    /** What a line about the login or the keepalive did: the end of the
        message of the day and GLOBALUSERSTATE finish the login (the former
        only for an anonymous client), a PING is answered with its text and
        a PONG from the watchdog's connection reaches the watchdog. */
    twostate predicate ConnectionLineHandled(from: WsConnection<string>, inbound: Inbound, cs: seq<ChatAutoChannel>)
      reads this, core, from, pingManager, set c | c in cs
    {
      && (inbound.EndOfMotd? && anonymous ==>
        events == old(events) + [AuthFinished(None)] && SentOn(from, JoinCommands(Names(cs)), cs))
      && (inbound.EndOfMotd? && !anonymous ==>
        events == old(events) && Kept(cs) && from.View() == old(from.View()))
      && (inbound.GlobalUserState? ==>
        events == old(events) + [AuthFinished(Some(inbound.globalUserState))]
        && SentOn(from, JoinCommands(Names(cs)), cs))
      && (inbound.ServerPing? ==>
        events == old(events) && SentOn(from, [PongCommand(inbound.text)], cs))
      && (inbound.ServerPong? ==>
        events == old(events) && pingManager == old(pingManager) && ChannelsKept(cs)
        && (if pingManager != null && pingManager.state == from
            then pingManager.Current() == Step(pingManager.compareText, old(pingManager.Current()), Event.Pong(inbound.text))
            else WatchKept(pingManager)))
    }

    /** What a line about a channel did: the client raises its notification
        and forwards it to the first registered channel with that name; the
        failed-login notice closes the client instead. */
    twostate predicate ChannelLineHandled(inbound: Inbound, cs: seq<ChatAutoChannel>)
      reads this, core, set c | c in cs
    {
      && (inbound.JoinedReply? ==>
        events == old(events) + [ChannelJoined(inbound.channel)]
        && Notified(cs, inbound.channel, Joined, true, Unknown))
      && (inbound.Private? ==>
        var pm := inbound.privateMessage;
        events == old(events) + [PrivateMessageReceived(pm)]
        && Notified(cs, pm.channel, PrivateMessageReceived(pm), false, Unknown))
      && (inbound.RoomState? ==>
        var rs := inbound.roomState;
        events == old(events) + [RoomStateReceived(rs)]
        && Notified(cs, rs.channel, RoomStateReceived(rs), false, rs.settings))
      && (inbound.Notice? ==>
        var nm := inbound.noticeMessage;
        if nm.notice == AuthFailedNotice then
          events == old(events) + [NoticeReceived(nm), AuthFailed] && core.closed
          && core.pendingReconnects == old(core.pendingReconnects)
        else
          events == old(events) + [NoticeReceived(nm)]
          && Notified(cs, nm.channel, NoticeReceived(nm), false, Unknown))
      && (inbound.ClearChat? ==>
        var cc := inbound.clearChat;
        events == old(events) + [ClearChatReceived(cc)]
        && Notified(cs, cc.channel, ClearChatReceived(cc), false, Unknown))
    }

    method DispatchConnectionLine(from: WsConnection<string>, inbound: Inbound)
      requires Valid() && from.Valid() && ForConnection(inbound)
      modifies this`events, from, Channels(), pingManager, core`pendingReconnects, core`events
      ensures Valid() && pingManager == old(pingManager)
      ensures ConnectionLineHandled(from, inbound, autoChannels)
    {
      match inbound
      case EndOfMotd => Process376(from);
      case ServerPing(text) => ProcessPing(from, text);
      case ServerPong(text) => ProcessPong(from, text);
      case GlobalUserState(g) => ProcessAuth(from, Some(g));
    }

    method DispatchChannelLine(inbound: Inbound)
      requires Valid() && ForChannels(inbound)
      modifies this`events, core`closed, core.connection, Channels(), pingManager, core`pendingReconnects, core`events
      ensures Valid() && pingManager == old(pingManager) && core.connection == old(core.connection)
      ensures ChannelLineHandled(inbound, autoChannels)
    {
      match inbound
      case JoinedReply(channel) => ProcessChannelJoined(channel);
      case Private(pm) => ProcessPrivateMessage(pm);
      case RoomState(rs) => ProcessRoomState(rs);
      case Notice(nm) => ProcessNotice(nm);
      case ClearChat(cc) => ProcessClearChat(cc);
    }
  }

  // -----------------------------------------------------------------------
  // Dispatch of the server's lines

  /** What the chat client makes of one parsed line. `Malformed` is a line of
      a handled command whose reading throws: a parameter it indexes is
      missing, or a channel parameter is empty. */
  datatype Inbound =
    | Ignored
    | JoinedReply(channel: string)
    | EndOfMotd
    | ServerPing(text: string)
    | ServerPong(text: string)
    | GlobalUserState(globalUserState: IrcMessage)
    | Private(privateMessage: PrivateMessage)
    | RoomState(roomState: RoomStateMessage)
    | Notice(noticeMessage: NoticeMessage)
    | ClearChat(clearChat: ClearChatMessage)
    | Malformed(error: ParseError)

  /** Lines about the login or the keepalive, handled on their connection. */
  predicate ForConnection(i: Inbound) {
    i.EndOfMotd? || i.ServerPing? || i.ServerPong? || i.GlobalUserState?
  }

  /** Lines about a channel, forwarded to it. */
  predicate ForChannels(i: Inbound) {
    i.JoinedReply? || i.Private? || i.RoomState? || i.Notice? || i.ClearChat?
  }

  /** The commands the chat client acts on. 353, RECONNECT and USERSTATE are
      matched by the source only to be dropped, like any other command. */
  const HandledCommands: set<string> :=
    {"366", "376", "PING", "PONG", "GLOBALUSERSTATE", "PRIVMSG", "ROOMSTATE", "NOTICE", "CLEARCHAT"}

  /** The switch on the command. The settings of a ROOMSTATE line are
      decoded from its tags by the parser library and come as `roomSettings`. */
  function Classify(m: IrcMessage, roomSettings: RoomSettings): (r: Inbound)
    ensures r.Ignored? <==> m.command !in HandledCommands
    ensures m.command in {"376", "GLOBALUSERSTATE"} ==> !r.Malformed?
    ensures m.command == "376" ==> r == EndOfMotd
    ensures m.command == "GLOBALUSERSTATE" ==> r == GlobalUserState(m)
    ensures m.command == "366" ==>
      if 2 <= |m.parameters| && m.parameters[1] != [] then r == JoinedReply(m.parameters[1][1..]) else r.Malformed?
    ensures m.command == "PING" ==>
      if m.parameters != [] then r == ServerPing(m.parameters[0]) else r.Malformed?
    ensures m.command == "PONG" ==>
      if m.parameters != [] then r == ServerPong(m.parameters[|m.parameters| - 1]) else r.Malformed?
    ensures m.command == "PRIVMSG" ==>
      (r.Malformed? <==> ParsePrivateMessage(m).Err?) && (r.Private? ==> r.privateMessage == ParsePrivateMessage(m).value)
    ensures m.command == "ROOMSTATE" ==>
      if m.parameters != [] && m.parameters[0] != [] then r == RoomState(RoomStateMessage(m.parameters[0][1..], roomSettings))
      else r.Malformed?
    ensures m.command == "NOTICE" ==>
      if 2 <= |m.parameters| && m.parameters[0] != [] then r == Notice(NoticeMessage(m.parameters[0][1..], m.parameters[1]))
      else r.Malformed?
    ensures m.command == "CLEARCHAT" ==>
      (r.Malformed? <==> ParseClearChat(m).Err?)
      && (r.Malformed? <==> m.parameters == [] || m.parameters[0] == [] || !HasTag(m, "room-id") || !HasTag(m, "tmi-sent-ts"))
      && (r.ClearChat? ==> r.clearChat == ParseClearChat(m).value)
  {
    match m.command
    case "366" => Read(ChannelParameter(m, 1), (channel: string) => JoinedReply(channel))
    case "376" => EndOfMotd
    case "PING" => Read(Parameter(m, 0), (text: string) => ServerPing(text))
    case "PONG" => Read(LastParameter(m), (text: string) => ServerPong(text))
    case "GLOBALUSERSTATE" => GlobalUserState(m)
    case "PRIVMSG" => Read(ParsePrivateMessage(m), (pm: PrivateMessage) => Private(pm))
    case "ROOMSTATE" => Read(ChannelParameter(m, 0), (channel: string) => RoomState(RoomStateMessage(channel, roomSettings)))
    case "NOTICE" => Read(ParseNotice(m), (nm: NoticeMessage) => Notice(nm))
    case "CLEARCHAT" => Read(ParseClearChat(m), (cc: ClearChatMessage) => ClearChat(cc))
    case _ => Ignored
  }

  /** A read that throws makes the line malformed. */
  function Read<T>(x: Result<T, ParseError>, make: T -> Inbound): (r: Inbound)
    ensures x.Err? ==> r == Malformed(x.error)
    ensures x.Ok? ==> r == make(x.value)
  {
    match x
    case Err(e) => Malformed(e)
    case Ok(v) => make(v)
  }
}
