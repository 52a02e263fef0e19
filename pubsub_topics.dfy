/** The pure part of the pubsub client: topic names, the messages it writes,
    the grouping of topics by token on connect, the unescaping of a received
    payload, and the routing of a received message to its topic. The JSON
    encoding of the messages is not part of this model; a message is written
    as the record it serializes. */
module PubsubTopics {
  import opened Wrappers

  /** The keys of the three built-in topics. */
  const PredictionsTopic: string := "predictions-channel-v1"
  const VideoPlaybackTopic: string := "video-playback-by-id"
  const BroadcastSettingsTopic: string := "broadcast-settings-update"

  /** The nonce every LISTEN and UNLISTEN carries. */
  const StartingNonce: string := "Starting"

  // -----------------------------------------------------------------------
  // Topic names

  /** A built-in topic's full name: `<key>.<channel id>`. */
  function TopicName(key: string, channelTwitchId: string): (r: string)
    ensures |r| == |key| + 1 + |channelTwitchId|
    ensures r[..|key|] == key && r[|key|] == '.' && r[|key| + 1..] == channelTwitchId
  {
    key + "." + channelTwitchId
  }

  /** Splits a full topic name at its first dot: the key and the rest. */
  function SplitTopic(fullTopic: string): (r: Option<(string, string)>)
    ensures r.Some? ==> '.' !in r.value.0
  {
    if fullTopic == [] then None
    else if fullTopic[0] == '.' then Some(([], fullTopic[1..]))
    else match SplitTopic(fullTopic[1..])
      case None => None
      case Some((key, rest)) => Some(([fullTopic[0]] + key, rest))
  }

  /** A name built from a key without a dot splits back into that key and
      the channel id. */
  lemma {:induction false} TopicNameSplits(key: string, channelTwitchId: string)
    requires '.' !in key
    ensures SplitTopic(TopicName(key, channelTwitchId)) == Some((key, channelTwitchId))
  {
    if key != [] {
      assert TopicName(key, channelTwitchId)[1..] == TopicName(key[1..], channelTwitchId);
      TopicNameSplits(key[1..], channelTwitchId);
      assert key == [key[0]] + key[1..];
    } else {
      assert TopicName(key, channelTwitchId)[1..] == channelTwitchId;
    }
  }

  /** The three built-in keys contain no dot, so their topic names name the
      key and the channel, and topics of different kinds never share a name. */
  lemma BuiltInTopicsSplit(channelTwitchId: string, other: string)
    ensures SplitTopic(TopicName(PredictionsTopic, channelTwitchId)) == Some((PredictionsTopic, channelTwitchId))
    ensures SplitTopic(TopicName(VideoPlaybackTopic, channelTwitchId)) == Some((VideoPlaybackTopic, channelTwitchId))
    ensures SplitTopic(TopicName(BroadcastSettingsTopic, channelTwitchId)) == Some((BroadcastSettingsTopic, channelTwitchId))
    ensures TopicName(PredictionsTopic, channelTwitchId) != TopicName(VideoPlaybackTopic, other)
    ensures TopicName(PredictionsTopic, channelTwitchId) != TopicName(BroadcastSettingsTopic, other)
    ensures TopicName(VideoPlaybackTopic, channelTwitchId) != TopicName(BroadcastSettingsTopic, other)
    ensures channelTwitchId != other ==> TopicName(PredictionsTopic, channelTwitchId) != TopicName(PredictionsTopic, other)
  {
    TopicNameSplits(PredictionsTopic, channelTwitchId);
    TopicNameSplits(VideoPlaybackTopic, channelTwitchId);
    TopicNameSplits(BroadcastSettingsTopic, channelTwitchId);
    TopicNameSplits(PredictionsTopic, other);
    TopicNameSplits(VideoPlaybackTopic, other);
    TopicNameSplits(BroadcastSettingsTopic, other);
  }

  // -----------------------------------------------------------------------
  // Written messages

  /** The records the client writes: `LISTEN` with its topics and auth
      token, `UNLISTEN` with its topics only, and `PING` with neither. */
  datatype PubsubOut =
    | Listen(topics: seq<string>, authToken: Option<string>, nonce: Option<string>)
    | Unlisten(topics: seq<string>, nonce: Option<string>)
    | Ping

  /** The `type` field of the serialized record. */
  function TypeName(m: PubsubOut): string {
    match m
    case Listen(_, _, _) => "LISTEN"
    case Unlisten(_, _) => "UNLISTEN"
    case Ping => "PING"
  }

  /** A token, or the client's OAuth token when it is null (`??`). */
  function OrDefault(token: Option<string>, oauthToken: Option<string>): (r: Option<string>)
    ensures token.Some? ==> r == token
    ensures token.None? ==> r == oauthToken
  {
    if token.Some? then token else oauthToken
  }

  /** `ListenAsync(topics, token)`. */
  function ListenMessage(topics: seq<string>, token: Option<string>, oauthToken: Option<string>): (r: PubsubOut)
    ensures r.Listen? && TypeName(r) == "LISTEN" && r.topics == topics && r.nonce == Some(StartingNonce)
    ensures r.authToken == OrDefault(token, oauthToken)
  {
    Listen(topics, OrDefault(token, oauthToken), Some(StartingNonce))
  }

  /** `UnListenAsync(topics)`. */
  function UnlistenMessage(topics: seq<string>): (r: PubsubOut)
    ensures r.Unlisten? && TypeName(r) == "UNLISTEN" && r.topics == topics && r.nonce == Some(StartingNonce)
  {
    Unlisten(topics, Some(StartingNonce))
  }

  /** Falling back twice is falling back once: the token a group is keyed by
      is the one its LISTEN carries. */
  lemma OrDefaultIdempotent(token: Option<string>, oauthToken: Option<string>)
    ensures OrDefault(OrDefault(token, oauthToken), oauthToken) == OrDefault(token, oauthToken)
    ensures ListenMessage([], OrDefault(token, oauthToken), oauthToken).authToken == OrDefault(token, oauthToken)
  {
  }

  // -----------------------------------------------------------------------
  // Grouping by token (`GroupBy` then `Select`)

  /** The distinct keys of `entries`, in the order they first appear. */
  function Keys<K(==), V>(entries: seq<(K, V)>): (r: seq<K>)
    decreases |entries|
  {
    if entries == [] then []
    else
      var ks := Keys(entries[..|entries| - 1]);
      var k := entries[|entries| - 1].0;
      if k in ks then ks else ks + [k]
  }

  /** The values of the entries with key `k`, in order. */
  function Values<K(==), V>(entries: seq<(K, V)>, k: K): (r: seq<V>)
    decreases |entries|
  {
    if entries == [] then []
    else
      var vs := Values(entries[..|entries| - 1], k);
      if entries[|entries| - 1].0 == k then vs + [entries[|entries| - 1].1] else vs
  }

  /** One group per distinct key, in first-appearance order, each holding the
      values with that key in their original order. */
  function GroupBy<K(==), V>(entries: seq<(K, V)>): (r: seq<(K, seq<V>)>)
    ensures |r| == |Keys(entries)|
    ensures forall j :: 0 <= j < |r| ==> r[j] == (Keys(entries)[j], Values(entries, Keys(entries)[j]))
  {
    var ks := Keys(entries);
    seq(|ks|, j requires 0 <= j < |ks| => (ks[j], Values(entries, ks[j])))
  }

  /** All the values of a list of groups, as a multiset. */
  function Bag<K, V>(groups: seq<(K, seq<V>)>): multiset<V>
    decreases |groups|
  {
    if groups == [] then multiset{} else multiset(groups[0].1) + Bag(groups[1..])
  }

  function AllValues<K, V>(entries: seq<(K, V)>): (r: seq<V>)
    ensures |r| == |entries| && forall i :: 0 <= i < |entries| ==> r[i] == entries[i].1
  {
    seq(|entries|, i requires 0 <= i < |entries| => entries[i].1)
  }

  predicate Distinct<T(==)>(s: seq<T>) {
    forall i, j :: 0 <= i < j < |s| ==> s[i] != s[j]
  }

  /** The keys are distinct and are exactly the keys that occur, and a
      longer list only adds keys after those of its prefix. */
  lemma {:induction false} KeysSpec<K, V>(entries: seq<(K, V)>)
    ensures Distinct(Keys(entries))
    ensures forall k :: k in Keys(entries) <==> exists i :: 0 <= i < |entries| && entries[i].0 == k
    decreases |entries|
  {
    if entries != [] {
      var init := entries[..|entries| - 1];
      KeysSpec(init);
      forall k
        ensures k in Keys(entries) <==> exists i :: 0 <= i < |entries| && entries[i].0 == k
      {
        if k in Keys(init) {
          var i :| 0 <= i < |init| && init[i].0 == k;
          assert entries[i].0 == k;
        }
        if i :| 0 <= i < |entries| && entries[i].0 == k {
          if i < |init| {
            assert init[i].0 == k;
          }
        }
      }
    }
  }

  /** The groups of a prefix come first, in the same order. */
  lemma {:induction false} KeysPrefix<K, V>(entries: seq<(K, V)>, n: nat)
    requires n <= |entries|
    ensures Keys(entries[..n]) <= Keys(entries)
    decreases |entries| - n
  {
    if n < |entries| {
      var longer := entries[..n + 1];
      assert longer[..n] == entries[..n];
      KeysPrefix(entries, n + 1);
    } else {
      assert entries[..n] == entries;
    }
  }

  /** A key has values exactly when it occurs. */
  lemma {:induction false} ValuesNonEmpty<K, V>(entries: seq<(K, V)>, k: K)
    ensures Values(entries, k) != [] <==> exists i :: 0 <= i < |entries| && entries[i].0 == k
    decreases |entries|
  {
    if entries != [] {
      var init := entries[..|entries| - 1];
      ValuesNonEmpty(init, k);
      if i :| 0 <= i < |init| && init[i].0 == k {
        assert entries[i].0 == k;
      }
      if i :| 0 <= i < |entries| && entries[i].0 == k {
        if i < |init| {
          assert init[i].0 == k;
        }
      }
    }
  }

  lemma {:induction false} BagAppend<K, V>(groups: seq<(K, seq<V>)>, g: (K, seq<V>))
    ensures Bag(groups + [g]) == Bag(groups) + multiset(g.1)
    decreases |groups|
  {
    if groups == [] {
      assert ([] + [g])[1..] == [];
    } else {
      assert (groups + [g])[1..] == groups[1..] + [g];
      BagAppend(groups[1..], g);
    }
  }

  lemma {:induction false} BagUpdate<K, V>(groups: seq<(K, seq<V>)>, j: nat, v: V)
    requires j < |groups|
    ensures Bag(groups[j := (groups[j].0, groups[j].1 + [v])]) == Bag(groups) + multiset{v}
    decreases |groups|
  {
    var updated := groups[j := (groups[j].0, groups[j].1 + [v])];
    if j == 0 {
      assert updated[1..] == groups[1..];
    } else {
      assert updated[1..] == groups[1..][j - 1 := (groups[j].0, groups[j].1 + [v])];
      BagUpdate(groups[1..], j - 1, v);
    }
  }

  /** Appending one entry to the list adds its value to its key's group, or
      opens a new group for it at the end. */
  lemma GroupByAppend<K, V>(entries: seq<(K, V)>, e: (K, V))
    ensures Bag(GroupBy(entries + [e])) == Bag(GroupBy(entries)) + multiset{e.1}
  {
    var longer := entries + [e];
    assert longer[..|longer| - 1] == entries;
    var ks := Keys(entries);
    var grouped := GroupBy(entries);
    var regrouped := GroupBy(longer);
    if e.0 in ks {
      var j :| 0 <= j < |ks| && ks[j] == e.0;
      KeysSpec(entries);
      assert regrouped == grouped[j := (grouped[j].0, grouped[j].1 + [e.1])] by {
        forall p | 0 <= p < |regrouped|
          ensures regrouped[p] == grouped[j := (grouped[j].0, grouped[j].1 + [e.1])][p]
        {
          if p != j {
            assert ks[p] != e.0;
          }
        }
      }
      BagUpdate(grouped, j, e.1);
    } else {
      KeysSpec(entries);
      ValuesNonEmpty(entries, e.0);
      assert Keys(longer) == ks + [e.0];
      assert Values(longer, e.0) == [e.1];
      assert regrouped == grouped + [(e.0, [e.1])] by {
        forall p | 0 <= p < |grouped|
          ensures regrouped[p] == grouped[p]
        {
          assert ks[p] != e.0;
        }
      }
      BagAppend(grouped, (e.0, [e.1]));
    }
  }

  /** The groups partition the topics: every value lands in exactly one
      group, so the groups hold exactly the values of the list. */
  lemma {:induction false} GroupByPartition<K, V>(entries: seq<(K, V)>)
    ensures Bag(GroupBy(entries)) == multiset(AllValues(entries))
    decreases |entries|
  {
    if entries != [] {
      var init := entries[..|entries| - 1];
      var e := entries[|entries| - 1];
      assert entries == init + [e];
      GroupByPartition(init);
      GroupByAppend(init, e);
      assert AllValues(entries) == AllValues(init) + [e.1];
    }
  }

  /** On connect: the group keys are distinct and are exactly the tokens
      that occur, each group is non-empty and holds exactly the values with
      its key, in order, and every value is in exactly one group. */
  lemma GroupBySpec<K, V>(entries: seq<(K, V)>)
    ensures Distinct(Keys(entries))
    ensures forall k :: k in Keys(entries) <==> exists i :: 0 <= i < |entries| && entries[i].0 == k
    ensures forall j :: 0 <= j < |GroupBy(entries)| ==>
      GroupBy(entries)[j].1 != [] && GroupBy(entries)[j].1 == Values(entries, GroupBy(entries)[j].0)
    ensures Bag(GroupBy(entries)) == multiset(AllValues(entries))
  {
    KeysSpec(entries);
    forall j | 0 <= j < |GroupBy(entries)|
      ensures GroupBy(entries)[j].1 != []
    {
      ValuesNonEmpty(entries, Keys(entries)[j]);
    }
    GroupByPartition(entries);
  }

  /** One LISTEN per group, in group order, each with the group's topics and
      token. */
  function ListenMessages(groups: seq<(Option<string>, seq<string>)>, oauthToken: Option<string>): (r: seq<PubsubOut>)
    ensures |r| == |groups|
    ensures forall j :: 0 <= j < |groups| ==> r[j] == ListenMessage(groups[j].1, groups[j].0, oauthToken)
  {
    seq(|groups|, j requires 0 <= j < |groups| => ListenMessage(groups[j].1, groups[j].0, oauthToken))
  }

  // -----------------------------------------------------------------------
  // Received messages

  /** `Replace("\\\"", "\"")`: every backslash-quote pair, scanning left to
      right without overlap, becomes a quote. */
  function Unescape(s: string): (r: string)
    ensures |r| <= |s|
    decreases |s|
  {
    if |s| >= 2 && s[0] == '\\' && s[1] == '"' then "\"" + Unescape(s[2..])
    else if s == [] then []
    else [s[0]] + Unescape(s[1..])
  }

  /** The escaping that `Unescape` undoes: a backslash before each quote. */
  function Escape(s: string): (r: string)
    ensures |r| >= |s|
    ensures r != [] ==> r[0] != '"'
    decreases |s|
  {
    if s == [] then []
    else if s[0] == '"' then "\\\"" + Escape(s[1..])
    else [s[0]] + Escape(s[1..])
  }

  /** Unescaping undoes escaping, for every text, backslashes included. */
  lemma {:induction false} UnescapeEscape(s: string)
    ensures Unescape(Escape(s)) == s
    decreases |s|
  {
    if s != [] {
      var e := Escape(s);
      UnescapeEscape(s[1..]);
      if s[0] == '"' {
        assert e[2..] == Escape(s[1..]);
      } else {
        assert e[1..] == Escape(s[1..]);
        assert !(|e| >= 2 && e[0] == '\\' && e[1] == '"');
      }
      assert s == [s[0]] + s[1..];
    }
  }

  /** A text with no backslash-quote pair is delivered unchanged. */
  lemma {:induction false} UnescapePlain(s: string)
    requires forall i :: 0 <= i < |s| - 1 ==> !(s[i] == '\\' && s[i + 1] == '"')
    ensures Unescape(s) == s
    decreases |s|
  {
    if s != [] {
      var t := s[1..];
      assert forall i :: 0 <= i < |t| ==> t[i] == s[i + 1];
      UnescapePlain(t);
      assert s == [s[0]] + s[1..];
    }
  }

  /** The first position whose topic name equals `topic`, exactly
      (`FirstOrDefault` with ordinal string equality). */
  function FindTopic(names: seq<string>, topic: string): (r: Option<nat>)
    ensures r.Some? ==> r.value < |names| && names[r.value] == topic && topic !in names[..r.value]
    ensures r.None? <==> topic !in names
    decreases |names|
  {
    if names == [] then None
    else
      match FindTopic(names[..|names| - 1], topic)
      case Some(i) => Some(i)
      case None => if names[|names| - 1] == topic then Some(|names| - 1) else None
  }
}
