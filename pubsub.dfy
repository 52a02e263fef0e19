/** The pubsub client: its registry of topics, kept in registration order
    with no de-duplication, the LISTEN and UNLISTEN it writes when topics are
    added or removed while connected, the grouped LISTEN replay and the
    watchdog on connect, the routing of received messages to their topic, and
    the keepalive guards. It owns a `BaseClient` whose connection writes
    `PubsubOut` records. The JSON decoding of a received frame is not part of
    this model: a frame arrives decoded, as a `PubsubFrame`, together with its
    raw text and the connection it came on. */
module Pubsub {
  import opened Wrappers
  import opened Errors
  import opened Lists
  import opened PubsubTopics
  import opened Watchdog
  import opened Transport
  import opened Client

  /** What the decoding of one received frame yields. `Undecodable` is a
      frame whose reading throws (not JSON, no `type` property); `Untyped` is
      one whose `type` is null; `EmptyBody` is a RESPONSE or MESSAGE whose
      body deserializes to null. */
  datatype PubsubFrame =
    | Undecodable
    | Untyped
    | PongFrame
    | ReconnectFrame
    | ResponseFrame(nonce: Option<string>, error: string)
    | MessageFrame(topic: string, message: string)
    | EmptyBody
    | OtherType(typeName: string)

  // -----------------------------------------------------------------------
  // Lists of topics

  /** The full names of a list of topics, in order. */
  function FullTopics(ts: seq<PubsubAutoTopic>): (r: seq<string>)
    ensures |r| == |ts| && forall i :: 0 <= i < |ts| ==> r[i] == ts[i].fullTopic
  {
    seq(|ts|, i requires 0 <= i < |ts| => ts[i].fullTopic)
  }

  /** Each topic keyed by its effective token (`token ?? OauthToken`). */
  function Entries(ts: seq<PubsubAutoTopic>, oauthToken: Option<string>): (r: seq<(Option<string>, string)>)
    ensures |r| == |ts|
    ensures forall i :: 0 <= i < |ts| ==> r[i] == (OrDefault(ts[i].token, oauthToken), ts[i].fullTopic)
  {
    seq(|ts|, i requires 0 <= i < |ts| => (OrDefault(ts[i].token, oauthToken), ts[i].fullTopic))
  }

  /** The topics of a channel, in order (`Where`). */
  function WithChannel(ts: seq<PubsubAutoTopic>, channelTwitchId: string): (r: seq<PubsubAutoTopic>)
    ensures |r| <= |ts|
    ensures forall k :: 0 <= k < |r| ==> r[k].channelTwitchId == channelTwitchId
    decreases |ts|
  {
    if ts == [] then []
    else (if ts[0].channelTwitchId == channelTwitchId then [ts[0]] else []) + WithChannel(ts[1..], channelTwitchId)
  }

  /** The topics of every other channel, in order. */
  function WithoutChannel(ts: seq<PubsubAutoTopic>, channelTwitchId: string): (r: seq<PubsubAutoTopic>)
    ensures |r| <= |ts|
    ensures forall k :: 0 <= k < |r| ==> r[k].channelTwitchId != channelTwitchId
    decreases |ts|
  {
    if ts == [] then []
    else (if ts[0].channelTwitchId != channelTwitchId then [ts[0]] else []) + WithoutChannel(ts[1..], channelTwitchId)
  }

  /** The two selections split the list: the first holds exactly the topics
      of the channel, the second exactly the others, and together they hold
      every topic once. */
  lemma {:induction false} ChannelSplit(ts: seq<PubsubAutoTopic>, channelTwitchId: string)
    ensures forall t :: t in WithChannel(ts, channelTwitchId) <==> t in ts && t.channelTwitchId == channelTwitchId
    ensures forall t :: t in WithoutChannel(ts, channelTwitchId) <==> t in ts && t.channelTwitchId != channelTwitchId
    ensures multiset(WithChannel(ts, channelTwitchId)) + multiset(WithoutChannel(ts, channelTwitchId)) == multiset(ts)
    decreases |ts|
  {
    if ts != [] {
      ChannelSplit(ts[1..], channelTwitchId);
      assert ts == [ts[0]] + ts[1..];
    }
  }

  /** The LISTENs of a connect cover every registered topic name exactly as
      often as it is registered: grouping by token loses and adds nothing. */
  lemma ConnectListensAll(ts: seq<PubsubAutoTopic>, oauthToken: Option<string>)
    ensures Bag(GroupBy(Entries(ts, oauthToken))) == multiset(FullTopics(ts))
  {
    GroupByPartition(Entries(ts, oauthToken));
    assert AllValues(Entries(ts, oauthToken)) == FullTopics(ts);
  }

  /** As written, removing a channel's topics leaves the registry as it was,
      so every topic it returned (and UNLISTENed) is LISTENed to again by the
      next connect. */
  lemma ChannelRemovalAsWrittenRelistens(ts: seq<PubsubAutoTopic>, channelTwitchId: string, oauthToken: Option<string>, t: PubsubAutoTopic)
    requires t in ts && t.channelTwitchId == channelTwitchId
    ensures t in WithChannel(ts, channelTwitchId)
    ensures t.fullTopic in Bag(GroupBy(Entries(ts, oauthToken)))
  {
    ChannelSplit(ts, channelTwitchId);
    ConnectListensAll(ts, oauthToken);
    var i :| 0 <= i < |ts| && ts[i] == t;
    assert FullTopics(ts)[i] == t.fullTopic;
  }

  /** With the removal corrected, the next connect LISTENs to exactly the
      topics of the other channels. */
  lemma ChannelRemovalCorrectedForgets(ts: seq<PubsubAutoTopic>, channelTwitchId: string, oauthToken: Option<string>)
    ensures var rest := WithoutChannel(ts, channelTwitchId);
      && (forall t :: t in rest ==> t.channelTwitchId != channelTwitchId)
      && (forall t :: t in ts && t.channelTwitchId != channelTwitchId ==> t in rest)
      && Bag(GroupBy(Entries(rest, oauthToken))) == multiset(FullTopics(rest))
  {
    ChannelSplit(ts, channelTwitchId);
    ConnectListensAll(WithoutChannel(ts, channelTwitchId), oauthToken);
  }

  /** `r` is `ts` with at most `removals` elements taken out. */
  predicate Shortened<T>(ts: seq<T>, r: seq<T>, removals: nat) {
    |ts| - removals <= |r| <= |ts|
  }

  /** Removing each of `rs` in turn, with `List.Remove`: each removal takes
      out one topic at most. */
  function RemoveAll(ts: seq<PubsubAutoTopic>, rs: seq<PubsubAutoTopic>): (r: seq<PubsubAutoTopic>)
    ensures Shortened(ts, r, |rs|)
    decreases |rs|
  {
    if rs == [] then ts else RemoveFirst(RemoveAll(ts, rs[..|rs| - 1]), rs[|rs| - 1])
  }

  /** Without duplicates, removing a list of topics leaves exactly the others,
      still without duplicates. */
  lemma {:induction false} RemoveAllSpec(ts: seq<PubsubAutoTopic>, rs: seq<PubsubAutoTopic>)
    requires NoDuplicates(ts)
    ensures NoDuplicates(RemoveAll(ts, rs))
    ensures forall t :: t in RemoveAll(ts, rs) <==> t in ts && t !in rs
    decreases |rs|
  {
    if rs != [] {
      var init := rs[..|rs| - 1];
      var last := rs[|rs| - 1];
      RemoveAllSpec(ts, init);
      RemoveFirstGone(RemoveAll(ts, init), last);
      RemoveFirstMembers(RemoveAll(ts, init), last);
      assert rs == init + [last];
    }
  }

  /** What a list of topics has received, in order. */
  function Received(ts: seq<PubsubAutoTopic>): (r: seq<seq<string>>)
    reads set t | t in ts
    ensures |r| == |ts| && forall i :: 0 <= i < |ts| ==> r[i] == ts[i].received
  {
    seq(|ts|, i requires 0 <= i < |ts| reads ts => ts[i].received)
  }

  /** `data` is delivered to the topic at `target`, if any. */
  function Deliver(rs: seq<seq<string>>, target: Option<nat>, data: string): (r: seq<seq<string>>)
    ensures |r| == |rs|
    ensures forall i :: 0 <= i < |rs| ==> r[i] == if target == Some(i) then rs[i] + [data] else rs[i]
  {
    if target.Some? && target.value < |rs| then rs[target.value := rs[target.value] + [data]] else rs
  }

  twostate predicate TopicsKept(ts: seq<PubsubAutoTopic>)
    reads set t | t in ts
  {
    Received(ts) == old(Received(ts))
  }

  /** The payload reached the first topic named `topic`, and no other. */
  twostate predicate DeliveredTo(ts: seq<PubsubAutoTopic>, topic: string, data: string)
    reads set t | t in ts
  {
    Received(ts) == Deliver(old(Received(ts)), FindTopic(FullTopics(ts), topic), data)
  }

  /** A received message for `topic` reaches exactly the first registered
      topic of that name, and none when no topic has that name, even when
      several topics share it. */
  lemma DeliverFirstMatch(ts: seq<PubsubAutoTopic>, rs: seq<seq<string>>, topic: string, data: string)
    requires |rs| == |ts|
    ensures topic !in FullTopics(ts) ==> Deliver(rs, FindTopic(FullTopics(ts), topic), data) == rs
    ensures forall i :: 0 <= i < |ts| ==>
      Deliver(rs, FindTopic(FullTopics(ts), topic), data)[i] ==
        if ts[i].fullTopic == topic && topic !in FullTopics(ts)[..i] then rs[i] + [data] else rs[i]
  {
    var names := FullTopics(ts);
    forall i | 0 <= i < |ts|
      ensures Deliver(rs, FindTopic(names, topic), data)[i] ==
        if ts[i].fullTopic == topic && topic !in names[..i] then rs[i] + [data] else rs[i]
    {
      if ts[i].fullTopic == topic && topic !in names[..i] {
        assert names[i] == topic;
      }
    }
  }

  // -----------------------------------------------------------------------
  // Topics

  class PubsubAutoTopic {
    const channelTwitchId: string
    const fullTopic: string
    /** When present, the topic is authenticated with this token instead of
        the client's. */
    const token: Option<string>
    const client: TwitchPubsubClient
    /** The payloads raised through `RawDataReceived`, in order. */
    var received: seq<string>

    constructor (channelTwitchId: string, fullTopic: string, token: Option<string>, client: TwitchPubsubClient)
      ensures this.channelTwitchId == channelTwitchId && this.fullTopic == fullTopic
      ensures this.token == token && this.client == client && received == []
    {
      this.channelTwitchId := channelTwitchId;
      this.fullTopic := fullTopic;
      this.token := token;
      this.client := client;
      received := [];
    }

    /** `UnlistenAsync`: the topic removes itself from its client. */
    method Unlisten()
      requires client.Valid()
      modifies client`autoTopics, client.core.connection, client.pingManager, client.core`pendingReconnects, client.core`events
      ensures client.Valid() && client.autoTopics == RemoveFirst(old(client.autoTopics), this) && this !in client.autoTopics
      ensures old(client.core.IsConnected()) ==> client.SentOn(old(client.core.connection), [UnlistenMessage([fullTopic])])
    {
      client.RemoveAutoTopic(this);
    }

    method OnRawDataReceived(data: string)
      modifies this`received
      ensures received == old(received) + [data]
    {
      received := received + [data];
    }
  }

  // -----------------------------------------------------------------------
  // The client

  class TwitchPubsubClient {
    const core: BaseClient<PubsubOut>
    const oauthToken: Option<string>
    var autoTopics: seq<PubsubAutoTopic>
    var pingManager: PingManager?

    /** Every registered topic belongs to this client, and no topic object
        is registered twice (each registration makes a new one). */
    ghost predicate Valid()
      reads this, core, core.connection
    {
      && core.Valid()
      && NoDuplicates(autoTopics)
      && forall i :: 0 <= i < |autoTopics| ==> autoTopics[i].client == this
    }

    ghost function Topics(): set<PubsubAutoTopic>
      reads this
    {
      set t | t in autoTopics
    }

    constructor (oauthToken: Option<string>, minReconnectMs: int, maxReconnectMs: int)
      ensures Valid() && this.oauthToken == oauthToken
      ensures fresh(core) && fresh(core.backoff) && core.connection == null && !core.closed
      ensures core.events == [] && core.pendingReconnects == 0 && core.backoff.attempts == 0
      ensures core.backoff.minTime == minReconnectMs && core.backoff.maxTime == maxReconnectMs
      ensures autoTopics == [] && pingManager == null
    {
      core := new BaseClient<PubsubOut>(minReconnectMs, maxReconnectMs);
      this.oauthToken := oauthToken;
      autoTopics := [];
      pingManager := null;
    }

    /** `CountTopics`: the number of registered topics. */
    method CountTopics() returns (n: nat)
      ensures n == |autoTopics|
    {
      n := |autoTopics|;
    }

    // ---------------------------------------------------------------------
    // Registration

    /** `AddManualTopic`: a new topic is appended, even when one of that name
        is already registered. */
    method AddManualTopic(channelTwitchId: string, fullTopic: string, token: Option<string>) returns (t: PubsubAutoTopic)
      requires Valid()
      modifies this`autoTopics
      ensures Valid() && fresh(t)
      ensures t.channelTwitchId == channelTwitchId && t.fullTopic == fullTopic && t.token == token
      ensures t.client == this && t.received == []
      ensures autoTopics == old(autoTopics) + [t] && |autoTopics| == |old(autoTopics)| + 1
    {
      t := new PubsubAutoTopic(channelTwitchId, fullTopic, token, this);
      autoTopics := autoTopics + [t];
    }

    method AddPredictionsTopic(channelTwitchId: string) returns (t: PubsubAutoTopic)
      requires Valid()
      modifies this`autoTopics
      ensures Valid() && fresh(t) && autoTopics == old(autoTopics) + [t]
      ensures t.channelTwitchId == channelTwitchId && t.fullTopic == TopicName(PredictionsTopic, channelTwitchId)
      ensures t.token == None && t.received == []
    {
      t := AddManualTopic(channelTwitchId, TopicName(PredictionsTopic, channelTwitchId), None);
    }

    method AddPlaybackTopic(channelTwitchId: string) returns (t: PubsubAutoTopic)
      requires Valid()
      modifies this`autoTopics
      ensures Valid() && fresh(t) && autoTopics == old(autoTopics) + [t]
      ensures t.channelTwitchId == channelTwitchId && t.fullTopic == TopicName(VideoPlaybackTopic, channelTwitchId)
      ensures t.token == None && t.received == []
    {
      t := AddManualTopic(channelTwitchId, TopicName(VideoPlaybackTopic, channelTwitchId), None);
    }

    method AddBroadcastSettingsTopic(channelTwitchId: string) returns (t: PubsubAutoTopic)
      requires Valid()
      modifies this`autoTopics
      ensures Valid() && fresh(t) && autoTopics == old(autoTopics) + [t]
      ensures t.channelTwitchId == channelTwitchId && t.fullTopic == TopicName(BroadcastSettingsTopic, channelTwitchId)
      ensures t.token == None && t.received == []
    {
      t := AddManualTopic(channelTwitchId, TopicName(BroadcastSettingsTopic, channelTwitchId), None);
    }

    /** `AddManualAutoTopic`: registers the topic, then, when connected,
        LISTENs to it alone with its token. */
    method AddManualAutoTopic(channelTwitchId: string, fullTopic: string, token: Option<string>) returns (t: PubsubAutoTopic)
      requires Valid()
      modifies this`autoTopics, core.connection, pingManager, core`pendingReconnects, core`events
      ensures Valid() && fresh(t) && autoTopics == old(autoTopics) + [t]
      ensures t.channelTwitchId == channelTwitchId && t.fullTopic == fullTopic && t.token == token && t.received == []
      ensures old(core.IsConnected()) ==>
        SentOn(old(core.connection), [ListenMessage([fullTopic], token, oauthToken)])
      ensures !old(core.IsConnected()) ==> Kept() && ConnectionKept()
    {
      t := AddManualTopic(channelTwitchId, fullTopic, token);
      if core.IsConnected() {
        Listen([t.fullTopic], token);
      }
    }

    /** Takes `t` out of the registry, if it is there. */
    method Unregister(t: PubsubAutoTopic) returns (removed: bool)
      requires Valid()
      modifies this`autoTopics
      ensures Valid() && removed == (t in old(autoTopics))
      ensures autoTopics == RemoveFirst(old(autoTopics), t) && t !in autoTopics
      ensures forall u :: u in autoTopics <==> u in old(autoTopics) && u != t
    {
      removed := t in autoTopics;
      RemoveFirstGone(autoTopics, t);
      RemoveFirstMembers(autoTopics, t);
      autoTopics := RemoveFirst(autoTopics, t);
    }

    /** `RemoveAutoTopic`: removes that one topic object if it is registered
        and leaves the list alone otherwise; when connected it UNLISTENs the
        topic's name either way. */
    method RemoveAutoTopic(t: PubsubAutoTopic)
      requires Valid()
      modifies this`autoTopics, core.connection, pingManager, core`pendingReconnects, core`events
      ensures Valid() && autoTopics == RemoveFirst(old(autoTopics), t) && t !in autoTopics
      ensures forall u :: u in autoTopics <==> u in old(autoTopics) && u != t
      ensures old(core.IsConnected()) ==> SentOn(old(core.connection), [UnlistenMessage([t.fullTopic])])
      ensures !old(core.IsConnected()) ==> Kept() && ConnectionKept()
    {
      var removed := Unregister(t);
      if core.IsConnected() {
        Unlisten([t.fullTopic]);
      }
    }

    /** `RemoveAutoTopics(topics)`: removes each in turn and, when
        connected, UNLISTENs all their names in one message, whether or not
        they were registered (an empty list included). */
    method RemoveAutoTopics(toRemove: seq<PubsubAutoTopic>)
      requires Valid()
      modifies this`autoTopics, core.connection, pingManager, core`pendingReconnects, core`events
      ensures Valid() && autoTopics == RemoveAll(old(autoTopics), toRemove)
      ensures forall u :: u in autoTopics <==> u in old(autoTopics) && u !in toRemove
      ensures old(core.IsConnected()) ==> SentOn(old(core.connection), [UnlistenMessage(FullTopics(toRemove))])
      ensures !old(core.IsConnected()) ==> Kept() && ConnectionKept()
    {
      var topics := UnregisterAll(toRemove);
      if core.IsConnected() {
        Unlisten(topics);
      }
    }

    /** The loop of `RemoveAutoTopics`: each topic is removed in turn, and its
        name collected whether or not it was registered. */
    method UnregisterAll(toRemove: seq<PubsubAutoTopic>) returns (topics: seq<string>)
      requires Valid()
      modifies this`autoTopics
      ensures Valid() && autoTopics == RemoveAll(old(autoTopics), toRemove)
      ensures forall u :: u in autoTopics <==> u in old(autoTopics) && u !in toRemove
      ensures topics == FullTopics(toRemove)
    {
      topics := [];
      for i := 0 to |toRemove|
        invariant Valid()
        invariant autoTopics == RemoveAll(old(autoTopics), toRemove[..i])
        invariant topics == FullTopics(toRemove[..i])
      {
        var removed := Unregister(toRemove[i]);
        topics := topics + [toRemove[i].fullTopic];
        assert toRemove[..i + 1][..i] == toRemove[..i];
      }
      assert toRemove[..|toRemove|] == toRemove;
      RemoveAllSpec(old(autoTopics), toRemove);
    }

    /** `RemoveAutoTopics(channelTwitchId)` as written: it selects the
        channel's topics and, when connected and there are any, UNLISTENs
        their names, but it leaves every one of them registered, so the next
        connect LISTENs to them again. */
    method RemoveAutoTopicsOfChannelAsWritten(channelTwitchId: string) returns (r: seq<PubsubAutoTopic>)
      requires Valid()
      modifies core.connection, pingManager, core`pendingReconnects, core`events
      ensures Valid() && r == WithChannel(autoTopics, channelTwitchId)
      ensures forall t :: t in r <==> t in autoTopics && t.channelTwitchId == channelTwitchId
      ensures old(core.IsConnected()) && r != [] ==> SentOn(old(core.connection), [UnlistenMessage(FullTopics(r))])
      ensures !(old(core.IsConnected()) && r != []) ==> Kept() && ConnectionKept()
    {
      r := WithChannel(autoTopics, channelTwitchId);
      ChannelSplit(autoTopics, channelTwitchId);
      if core.IsConnected() && |r| > 0 {
        Unlisten(FullTopics(r));
      }
    }

    /** `RemoveAutoTopics(channelTwitchId)` as its documentation says ("removes
        all the topics of a channel"): the same selection and UNLISTEN, and
        the selected topics leave the registry, the others staying in order. */
    method RemoveAutoTopicsOfChannel(channelTwitchId: string) returns (r: seq<PubsubAutoTopic>)
      requires Valid()
      modifies this`autoTopics, core.connection, pingManager, core`pendingReconnects, core`events
      ensures Valid() && r == WithChannel(old(autoTopics), channelTwitchId)
      ensures autoTopics == WithoutChannel(old(autoTopics), channelTwitchId)
      ensures forall t :: t in autoTopics <==> t in old(autoTopics) && t.channelTwitchId != channelTwitchId
      ensures forall t :: t in r <==> t in old(autoTopics) && t.channelTwitchId == channelTwitchId
      ensures multiset(r) + multiset(autoTopics) == multiset(old(autoTopics))
      ensures old(core.IsConnected()) && r != [] ==> SentOn(old(core.connection), [UnlistenMessage(FullTopics(r))])
      ensures !(old(core.IsConnected()) && r != []) ==> Kept() && ConnectionKept()
    {
      r := DropChannel(channelTwitchId);
      if core.IsConnected() && |r| > 0 {
        Unlisten(FullTopics(r));
      }
    }

    /** The registry part of the corrected removal. */
    method DropChannel(channelTwitchId: string) returns (r: seq<PubsubAutoTopic>)
      requires Valid()
      modifies this`autoTopics
      ensures Valid() && r == WithChannel(old(autoTopics), channelTwitchId)
      ensures autoTopics == WithoutChannel(old(autoTopics), channelTwitchId)
      ensures forall t :: t in autoTopics <==> t in old(autoTopics) && t.channelTwitchId != channelTwitchId
      ensures forall t :: t in r <==> t in old(autoTopics) && t.channelTwitchId == channelTwitchId
      ensures multiset(r) + multiset(autoTopics) == multiset(old(autoTopics))
    {
      r := WithChannel(autoTopics, channelTwitchId);
      ChannelSplit(autoTopics, channelTwitchId);
      WithoutChannelRegistry(autoTopics, channelTwitchId, this);
      autoTopics := WithoutChannel(autoTopics, channelTwitchId);
    }

    // ---------------------------------------------------------------------
    // Frames of the writing methods

    /** The current connection is as it was. */
    twostate predicate ConnectionKept()
      reads core, core.connection
    {
      core.connection == old(core.connection)
      && (core.connection != null ==> core.connection.View() == old(core.connection.View()))
    }

    /** Nothing the writes can touch changed. */
    twostate predicate Kept()
      reads this`pingManager, core, pingManager
    {
      pingManager == old(pingManager) && WatchKept(pingManager) && core.View() == old(core.View())
    }

    /** The disposal hook ran once, for `reason`, with `pm` as the watchdog. */
    twostate predicate Handled(reason: Option<Fault>, pm: PingManager?)
      reads core, pm
    {
      WatchStopped(pm) && core.View() == AfterDisposing(old(core.View()), reason)
    }

    /** The records `messages` were written to `conn`, in order, with the
        connection's failure handling (see `AfterWrites`); a write that
        disposes the connection runs the disposal hook with `pm`. */
    twostate predicate Wrote(conn: WsConnection?<PubsubOut>, messages: seq<PubsubOut>, pm: PingManager?)
      reads core, pm, conn
    {
      var quiet := WatchKept(pm) && core.View() == old(core.View());
      if conn == null then quiet
      else
        var before := old(conn.View());
        && conn.View() == AfterWrites(before, messages)
        && if WriteFails(before, messages) then Handled(Some(SendFailed), pm) else quiet
    }

    twostate predicate SentOn(conn: WsConnection?<PubsubOut>, messages: seq<PubsubOut>)
      reads this`pingManager, core, pingManager, conn
    {
      pingManager == old(pingManager) && Wrote(conn, messages, pingManager)
    }

    /** The pubsub client's disposal hook: the watchdog is stopped, then the
        base hook runs. */
    method ConnectionDisposing(reason: Option<Fault>)
      requires Valid()
      modifies pingManager, core`pendingReconnects, core`events
      ensures Valid() && pingManager == old(pingManager) && Handled(reason, pingManager)
    {
      if pingManager != null {
        pingManager.Stop();
      }
      core.ConnectionDisposing(reason);
    }

    // ---------------------------------------------------------------------
    // Writing

    /** `SendRawAsync(connection, serialized message)`. */
    method SendOn(conn: WsConnection?<PubsubOut>, message: PubsubOut)
      requires Valid() && (conn != null ==> conn.Valid())
      modifies conn, pingManager, core`pendingReconnects, core`events
      ensures Valid() && (conn != null ==> conn.Valid())
      ensures SentOn(conn, [message])
    {
      if conn != null {
        var wasDisposed := conn.disposed;
        conn.SendAsync(message);
        if !wasDisposed && conn.disposed {
          ConnectionDisposing(Some(SendFailed));
        }
      }
    }

    method SendAllOn(conn: WsConnection<PubsubOut>, messages: seq<PubsubOut>)
      requires Valid() && conn.Valid()
      modifies conn, pingManager, core`pendingReconnects, core`events
      ensures Valid() && conn.Valid()
      ensures SentOn(conn, messages)
    {
      for i := 0 to |messages|
        invariant Valid() && conn.Valid()
        invariant SentOn(conn, messages[..i])
      {
        WritesCompose(old(conn.View()), messages[..i], [messages[i]]);
        SendOn(conn, messages[i]);
        assert messages[..i + 1] == messages[..i] + [messages[i]];
      }
      assert messages[..|messages|] == messages;
    }

    /** `SendMessageAsync(message)`: on the current connection. */
    method SendMessage(message: PubsubOut)
      requires Valid()
      modifies core.connection, pingManager, core`pendingReconnects, core`events
      ensures Valid() && core.connection == old(core.connection)
      ensures SentOn(old(core.connection), [message])
    {
      SendOn(core.connection, message);
    }

    /** `ListenAsync(topics, token)`: a LISTEN on the current connection. */
    method Listen(topics: seq<string>, token: Option<string>)
      requires Valid()
      modifies core.connection, pingManager, core`pendingReconnects, core`events
      ensures Valid() && core.connection == old(core.connection)
      ensures SentOn(old(core.connection), [ListenMessage(topics, token, oauthToken)])
    {
      SendMessage(ListenMessage(topics, token, oauthToken));
    }

    /** `UnListenAsync(topics)`: an UNLISTEN on the current connection. */
    method Unlisten(topics: seq<string>)
      requires Valid()
      modifies core.connection, pingManager, core`pendingReconnects, core`events
      ensures Valid() && core.connection == old(core.connection)
      ensures SentOn(old(core.connection), [UnlistenMessage(topics)])
    {
      SendMessage(UnlistenMessage(topics));
    }

    // ---------------------------------------------------------------------
    // Connecting

    /** The LISTENs of a connect: one per group of topics with the same
        effective token. */
    function ConnectListens(): (r: seq<PubsubOut>)
      reads this
      ensures |r| == |Keys(Entries(autoTopics, oauthToken))|
      ensures autoTopics == [] ==> r == []
    {
      ListenMessages(GroupBy(Entries(autoTopics, oauthToken)), oauthToken)
    }

    /** The post-connect hook: one LISTEN per token group is written, in
        group order (none when there are no topics), on the current
        connection, which is `conn`; then a watchdog that does not compare
        pong texts is made for `conn` and started. */
    method ConnectedAsync(conn: WsConnection<PubsubOut>)
      requires Valid() && conn == core.connection
      modifies conn, pingManager, this`pingManager, core`pendingReconnects, core`events
      ensures Valid() && core.connection == conn
      ensures Wrote(conn, ConnectListens(), old(pingManager))
      ensures fresh(pingManager) && !pingManager.compareText && pingManager.state == conn
      ensures pingManager.Current() == Step(false, Initial, Event.Start)
    {
      SendAllOn(conn, ConnectListens());
      StartWatchdog(conn);
    }

    method StartWatchdog(conn: WsConnection<PubsubOut>)
      modifies this`pingManager
      ensures fresh(pingManager) && !pingManager.compareText && pingManager.state == conn
      ensures pingManager.Current() == Step(false, Initial, Event.Start)
    {
      var pm := new PingManager(false, conn);
      pm.Start();
      pingManager := pm;
    }

    /** `ConnectAsync`: a new connection replaces the old one and is started;
        a failed connect runs the disposal hook, a successful one resets the
        backoff, runs the post-connect hook and raises `Connected`. */
    method ConnectAsync(connectSucceeds: bool, writesFail: bool)
      requires Valid()
      modifies core, core.backoff, this`pingManager, pingManager
      ensures Valid() && fresh(core.connection) && !core.closed
      ensures !connectSucceeds ==>
        && core.connection.View() == StartedView(false)
        && core.backoff.attempts == old(core.backoff.attempts)
        && pingManager == old(pingManager) && WatchStopped(pingManager)
        && core.pendingReconnects == old(core.pendingReconnects) + 1
        && core.events == old(core.events) + [ConnectionClosed(Some(ConnectFailed))]
      ensures connectSucceeds ==>
        && core.backoff.attempts == 0
        && fresh(pingManager) && !pingManager.compareText && pingManager.state == core.connection
        && pingManager.Current() == Step(false, Initial, Event.Start)
        && Opened(writesFail, old(pingManager), old(core.events), old(core.pendingReconnects))
    {
      var ok := core.StartConnection(connectSucceeds);
      if !ok {
        ConnectionDisposing(Some(ConnectFailed));
        return;
      }
      if writesFail {
        core.connection.Break();
      }
      ConnectionOpened(writesFail);
    }

    /** What the rest of a successful connect leaves behind: with working
        writes the LISTENs are all sent and `Connected` is raised; with
        throwing writes (and at least one topic) the first LISTEN disposes
        the connection and the disposal hook runs for the old watchdog, and
        `Connected` is raised after it all the same. */
    twostate predicate Opened(writesFail: bool, pm: PingManager?, events0: seq<ClientEvent>, pending0: nat)
      reads this, core, core.connection, pm
    {
      var fails := writesFail && ConnectListens() != [];
      && core.connection != null
      && (!fails ==>
        && core.connection.View() == StartedView(true).(faulty := writesFail, sent := if writesFail then [] else ConnectListens())
        && WatchKept(pm)
        && core.pendingReconnects == pending0
        && core.events == events0 + [Connected])
      && (fails ==>
        && core.connection.View() == StartedView(true).(faulty := true, disposed := true, open := false,
                                                        disposals := [Some(SendFailed)])
        && WatchStopped(pm)
        && core.pendingReconnects == pending0 + 1
        && core.events == events0 + [ConnectionClosed(Some(SendFailed)), Connected])
    }

    method ConnectionOpened(writesFail: bool)
      requires Valid() && !core.closed && core.connection != null
      requires core.connection.View() == StartedView(true).(faulty := writesFail)
      modifies core.connection, this`pingManager, pingManager, core`pendingReconnects, core`events
      ensures Valid() && core.connection == old(core.connection)
      ensures fresh(pingManager) && !pingManager.compareText && pingManager.state == core.connection
      ensures pingManager.Current() == Step(false, Initial, Event.Start)
      ensures Opened(writesFail, old(pingManager), old(core.events), old(core.pendingReconnects))
    {
      ConnectedAsync(core.connection);
      core.RaiseConnected();
    }

    /** `Close`: sets `Closed` and disposes the current connection; a first
        disposal runs the disposal hook, which schedules no reconnect. */
    method Close()
      requires Valid()
      modifies core`closed, core.connection, pingManager, core`pendingReconnects, core`events
      ensures Valid() && core.closed && core.connection == old(core.connection) && pingManager == old(pingManager)
      ensures core.pendingReconnects == old(core.pendingReconnects)
      ensures core.connection == null || old(core.connection.disposed) ==>
        && (core.connection != null ==> core.connection.View() == old(core.connection.View()))
        && WatchKept(pingManager) && core.events == old(core.events)
      ensures core.connection != null && !old(core.connection.disposed) ==>
        && core.connection.View() == old(core.connection.View()).(disposed := true, open := false,
                                                                  disposals := old(core.connection.disposals) + [None])
        && WatchStopped(pingManager)
        && core.events == old(core.events) + [ConnectionClosed(None)]
    {
      var disposedNow := core.Close();
      if disposedNow {
        ConnectionDisposing(None);
      }
    }

    /** A scheduled reconnect task runs (see the chat client's). */
    method RunReconnectTask(jitterMs: int, cancelled: bool, connectSucceeds: bool, writesFail: bool)
      requires Valid() && MinJitterMs <= jitterMs < MaxJitterMs
      modifies core, core.backoff, this`pingManager, pingManager
      ensures Valid()
      ensures old(core.pendingReconnects) == 0 ==>
        && core.View() == old(core.View()) && core.backoff.attempts == old(core.backoff.attempts)
        && pingManager == old(pingManager) && WatchKept(pingManager)
      ensures old(core.pendingReconnects) > 0 && cancelled ==>
        && core.connection == old(core.connection) && core.closed == old(core.closed)
        && core.pendingReconnects == old(core.pendingReconnects) - 1
        && core.backoff.attempts == old(core.backoff.attempts) + 1
        && core.events == old(core.events) + [ReconnectWait(ReconnectWaitMs(core.backoff.minTime, core.backoff.maxTime, old(core.backoff.attempts), jitterMs))]
        && pingManager == old(pingManager) && WatchKept(pingManager)
      ensures old(core.pendingReconnects) > 0 && !cancelled ==>
        && fresh(core.connection) && !core.closed
        && core.connection.open == (connectSucceeds && (!writesFail || ConnectListens() == []))
        && core.backoff.attempts == (if connectSucceeds then 0 else old(core.backoff.attempts) + 1)
    {
      var reconnect := core.RunReconnectTask(jitterMs, cancelled);
      if reconnect {
        ConnectAsync(connectSucceeds, writesFail);
      }
    }

    // ---------------------------------------------------------------------
    // Keepalive

    predicate Owns(pm: PingManager)
      reads this, core, core.connection
    {
      pm == pingManager && pm.state == core.connection && core.IsConnected()
    }

    /** `Pinging`: a PING on the current connection, only when the client
        owns the watchdog. */
    method Pinging(pm: PingManager)
      requires Valid()
      modifies core.connection, pingManager, core`pendingReconnects, core`events
      ensures Valid()
      ensures old(Owns(pm)) ==> SentOn(old(core.connection), [Ping])
      ensures !old(Owns(pm)) ==> Kept() && ConnectionKept()
    {
      if Owns(pm) {
        SendMessage(Ping);
      }
    }

    /** `Timeouted`: when the client owns the watchdog, the current
        connection is disposed with the ping timeout and the hook runs. */
    method Timeouted(pm: PingManager)
      requires Valid()
      modifies core.connection, pingManager, core`pendingReconnects, core`events
      ensures Valid() && pingManager == old(pingManager)
      ensures old(Owns(pm)) ==>
        && core.connection.View() == old(core.connection.View()).(disposed := true, open := false,
                                                                  disposals := old(core.connection.disposals) + [Some(PingTimeout)])
        && Handled(Some(PingTimeout), pingManager)
      ensures !old(Owns(pm)) ==> Kept() && ConnectionKept()
    {
      if Owns(pm) {
        core.connection.Dispose(Some(PingTimeout));
        ConnectionDisposing(Some(PingTimeout));
      }
    }

    // ---------------------------------------------------------------------
    // Received frames

    /** `MessageReceived`: a PONG reaches the watchdog only when it was made
        for the connection the PONG came on; a MESSAGE is routed to its
        topic; a frame whose reading throws is reported by the base client
        with its raw text; every other frame is only logged. */
    method MessageReceived(from: WsConnection<PubsubOut>, frame: PubsubFrame, raw: string)
      requires Valid()
      modifies Topics(), pingManager, core`events
      ensures Valid() && pingManager == old(pingManager)
      ensures frame.Undecodable? ==>
        core.events == old(core.events) + [MessageProcessingException(raw)]
        && WatchKept(pingManager) && TopicsKept(autoTopics)
      ensures frame.PongFrame? ==>
        && core.events == old(core.events) && TopicsKept(autoTopics)
        && (if pingManager != null && pingManager.state == from
            then pingManager.Current() == Step(pingManager.compareText, old(pingManager.Current()), Event.Pong(""))
            else WatchKept(pingManager))
      ensures frame.MessageFrame? ==>
        && core.events == old(core.events) && WatchKept(pingManager)
        && DeliveredTo(autoTopics, frame.topic, Unescape(frame.message))
      ensures !(frame.Undecodable? || frame.PongFrame? || frame.MessageFrame?) ==>
        core.events == old(core.events) && WatchKept(pingManager) && TopicsKept(autoTopics)
    {
      match frame
      case Undecodable => core.ReportProcessingException(raw);
      case PongFrame =>
        if pingManager != null && pingManager.state == from {
          pingManager.PongReceived("");
        }
      case MessageFrame(topic, message) => ProcessMessage(topic, message);
      case _ =>
    }

    /** `ProcessMessage`: the payload, unescaped, goes to the first topic whose
        name equals the message's topic; with no such topic it is dropped. */
    method ProcessMessage(topic: string, message: string)
      requires Valid()
      modifies Topics()
      ensures DeliveredTo(autoTopics, topic, Unescape(message))
    {
      var unescaped := Unescape(message);
      match FindTopic(FullTopics(autoTopics), topic)
      case None =>
      case Some(i) =>
        autoTopics[i].OnRawDataReceived(unescaped);
    }
  }

  /** The topics of the other channels of a registry are a registry of the
      same client. */
  lemma {:induction false} WithoutChannelRegistry(ts: seq<PubsubAutoTopic>, channelTwitchId: string, owner: TwitchPubsubClient)
    requires NoDuplicates(ts) && forall i :: 0 <= i < |ts| ==> ts[i].client == owner
    ensures var rest := WithoutChannel(ts, channelTwitchId);
      && (forall t :: t in rest ==> t in ts)
      && NoDuplicates(rest) && forall i :: 0 <= i < |rest| ==> rest[i].client == owner
    decreases |ts|
  {
    if ts != [] {
      var tail := ts[1..];
      assert NoDuplicates(tail);
      WithoutChannelRegistry(tail, channelTwitchId, owner);
      var rt := WithoutChannel(tail, channelTwitchId);
      assert ts[0] !in rt;
      var rest := WithoutChannel(ts, channelTwitchId);
      assert rest == rt || rest == [ts[0]] + rt;
      forall t | t in rest ensures t in ts {
        if t != ts[0] { assert t in rt; }
      }
    }
  }
}
