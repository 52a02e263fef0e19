/** The lines the chat client writes, and the chat room settings a channel
    keeps: the pure part of the chat client. */
module ChatProtocol {
  import opened Wrappers
  import opened Text

  /** The capabilities requested right after connecting. */
  const CapRequest: string := "CAP REQ :twitch.tv/tags twitch.tv/commands"

  /** The notice text that ends the client for good. */
  const AuthFailedNotice: string := "Login authentication failed"

  // -----------------------------------------------------------------------
  // Outbound lines

  /** `#` and the channel name in lower case: the target names the same
      channel ignoring case, and lower-casing it again changes nothing. */
  function ChannelTarget(channel: string): (r: string)
    ensures |r| == |channel| + 1 && r[0] == '#'
    ensures EqualsIgnoreCase(r[1..], channel) && ToLower(r[1..]) == r[1..]
  {
    ToLowerIdempotent(channel);
    "#" + ToLower(channel)
  }

  function JoinCommand(channel: string): (r: string)
    ensures "JOIN #" <= r && EqualsIgnoreCase(r[6..], channel) && ToLower(r[6..]) == r[6..]
  {
    "JOIN " + ChannelTarget(channel)
  }

  function PartCommand(channel: string): (r: string)
    ensures "PART #" <= r && EqualsIgnoreCase(r[6..], channel) && ToLower(r[6..]) == r[6..]
  {
    "PART " + ChannelTarget(channel)
  }

  /** The text goes last, unchanged, after the lower-case target. */
  function PrivMsgCommand(channel: string, text: string): (r: string)
    ensures "PRIVMSG #" <= r && |r| == 11 + |channel| + |text|
    ensures r[|r| - |text|..] == text
  {
    "PRIVMSG " + ChannelTarget(channel) + " :" + text
  }

  /** A reply: the PRIVMSG line behind a `reply-parent-msg-id` tag. */
  function ReplyCommand(channel: string, text: string, parentMessageId: string): (r: string)
    ensures "@reply-parent-msg-id=" <= r
    ensures |PrivMsgCommand(channel, text)| < |r|
    ensures r[|r| - |PrivMsgCommand(channel, text)|..] == PrivMsgCommand(channel, text)
  {
    "@" + ReplyTag(parentMessageId) + " " + PrivMsgCommand(channel, text)
  }

  function ReplyTag(parentMessageId: string): string {
    "reply-parent-msg-id=" + parentMessageId
  }

  function PongCommand(text: string): (r: string)
    ensures "PONG :" <= r && r[6..] == text
  {
    "PONG :" + text
  }

  function PingCommand(text: string): (r: string)
    ensures "PING :" <= r && r[6..] == text
  {
    "PING :" + text
  }

  /** A null token or user name contributes nothing to the line. */
  function PassCommand(oauthToken: Option<string>): (r: string)
    ensures "PASS " <= r
    ensures oauthToken.None? ==> r == "PASS "
    ensures oauthToken.Some? ==> r[5..] == oauthToken.value
  {
    "PASS " + oauthToken.GetOr("")
  }

  function NickCommand(username: Option<string>): (r: string)
    ensures "NICK " <= r
    ensures username.None? ==> r == "NICK "
    ensures username.Some? ==> r[5..] == username.value
  {
    "NICK " + username.GetOr("")
  }

  /** What the post-connect hook writes, in order: the capability request
      first, the token before the user name. */
  function LoginCommands(oauthToken: Option<string>, username: Option<string>): (r: seq<string>)
    ensures |r| == 3 && r[0] == CapRequest && "PASS " <= r[1] && "NICK " <= r[2]
  {
    [CapRequest, PassCommand(oauthToken), NickCommand(username)]
  }

  /** One JOIN per channel name, in order. */
  function JoinCommands(channels: seq<string>): (r: seq<string>)
    ensures |r| == |channels|
    ensures forall i :: 0 <= i < |channels| ==> r[i] == JoinCommand(channels[i])
  {
    seq(|channels|, i requires 0 <= i < |channels| => JoinCommand(channels[i]))
  }

  // -----------------------------------------------------------------------
  // Reading the lines back

  /** The text after `verb + " :"`, when the line starts with it. */
  function ReadTrailing(verb: string, line: string): Option<string> {
    var head := verb + " :";
    if head <= line then Some(line[|head|..]) else None
  }

  /** The channel target and the text of a `PRIVMSG #target :text` line; the
      target ends at the first space. */
  function ReadPrivMsg(line: string): Option<(string, string)> {
    var head := "PRIVMSG #";
    if !(head <= line) then None
    else
      var rest := line[|head|..];
      match IndexOf(rest, ' ')
      case None => None
      case Some(i) =>
        if i + 1 < |rest| && rest[i + 1] == ':' then Some((rest[..i], rest[i + 2..])) else None
  }

  /** The tag and the rest of a line that starts with `@`; the tag ends at the
      first space. */
  function ReadTag(line: string): Option<(string, string)> {
    if line == [] || line[0] != '@' then None
    else
      match IndexOf(line, ' ')
      case None => None
      case Some(i) => Some((line[1..i], line[i + 1..]))
  }

  /** Lower-casing neither adds nor removes spaces. */
  lemma LowerKeepsSpaces(s: string)
    ensures ' ' in ToLower(s) <==> ' ' in s
  {
    assert forall i :: 0 <= i < |s| ==> (ToLower(s)[i] == ' ' <==> s[i] == ' ');
  }

  /** The answer to a server PING carries the PING's text, and so does a
      probe. */
  lemma PingPongRoundTrip(text: string)
    ensures ReadTrailing("PONG", PongCommand(text)) == Some(text)
    ensures ReadTrailing("PING", PingCommand(text)) == Some(text)
    ensures ReadTrailing("PING", PongCommand(text)).None?
  {
    assert "PONG :" <= PongCommand(text);
    assert "PING :" <= PingCommand(text);
    assert PongCommand(text)[1] != "PING :"[1];
  }

  /** A PRIVMSG line gives back the lower-cased channel and the text, for any
      channel name without a space. */
  lemma PrivMsgRoundTrip(channel: string, text: string)
    requires ' ' !in channel
    ensures ReadPrivMsg(PrivMsgCommand(channel, text)) == Some((ToLower(channel), text))
  {
    LowerKeepsSpaces(channel);
    PrivMsgTargetRead(ToLower(channel), text);
  }

  lemma PrivMsgTargetRead(target: string, text: string)
    requires ' ' !in target
    ensures ReadPrivMsg("PRIVMSG " + ("#" + target) + " :" + text) == Some((target, text))
  {
    var line := "PRIVMSG " + ("#" + target) + " :" + text;
    var rest := target + " :" + text;
    assert line == "PRIVMSG #" + rest;
    assert "PRIVMSG #" <= line && line[9..] == rest;
    assert rest[..|target|] == target;
    IndexOfAt(rest, ' ', |target|);
    assert rest[|target| + 2..] == text;
  }

  /** A reply line, for an id without a space, is the reply tag followed by
      exactly the PRIVMSG line the plain send writes. */
  lemma ReplyRoundTrip(channel: string, text: string, parentMessageId: string)
    requires ' ' !in parentMessageId
    ensures ReadTag(ReplyCommand(channel, text, parentMessageId))
      == Some((ReplyTag(parentMessageId), PrivMsgCommand(channel, text)))
  {
    NoSpaceConcat("reply-parent-msg-id=", parentMessageId);
    TagRead(ReplyTag(parentMessageId), PrivMsgCommand(channel, text));
  }

  lemma NoSpaceConcat(a: string, b: string)
    requires ' ' !in a && ' ' !in b
    ensures ' ' !in a + b
  {
    assert forall k :: 0 <= k < |a + b| ==> (a + b)[k] == if k < |a| then a[k] else b[k - |a|];
  }

  lemma TagRead(tag: string, rest: string)
    requires ' ' !in tag
    ensures ReadTag("@" + tag + " " + rest) == Some((tag, rest))
  {
    var line := "@" + tag + " " + rest;
    assert line[1..|tag| + 1] == tag;
    assert line[..|tag| + 1] == "@" + tag;
    IndexOfAt(line, ' ', |tag| + 1);
    assert line[|tag| + 2..] == rest;
  }

  /** JOIN and PART address the same channel exactly when the names are equal
      ignoring case, and a JOIN is never a PART. */
  lemma CommandsIgnoreCase(a: string, b: string)
    ensures JoinCommand(a) == JoinCommand(b) <==> EqualsIgnoreCase(a, b)
    ensures PartCommand(a) == PartCommand(b) <==> EqualsIgnoreCase(a, b)
    ensures JoinCommand(a) != PartCommand(b)
  {
    if JoinCommand(a) == JoinCommand(b) {
      assert ToLower(a) == JoinCommand(a)[6..];
    }
    if PartCommand(a) == PartCommand(b) {
      assert ToLower(a) == PartCommand(a)[6..];
    }
    assert JoinCommand(a)[0] != PartCommand(b)[0];
  }

  /** The login lines are the capability request, then PASS, then NICK. */
  lemma LoginOrder(oauthToken: Option<string>, username: Option<string>)
    ensures var ls := LoginCommands(oauthToken, username);
      && |ls| == 3 && ls[0] == CapRequest
      && "PASS " <= ls[1] && ls[1][5..] == oauthToken.GetOr("")
      && "NICK " <= ls[2] && ls[2][5..] == username.GetOr("")
  {
    var ls := LoginCommands(oauthToken, username);
    assert ls[1][4] == ' ';
  }

  // -----------------------------------------------------------------------
  // Channel names

  /** The first position whose name equals `name` ignoring case
      (`FirstOrDefault` with `OrdinalIgnoreCase`). */
  function FindName(names: seq<string>, name: string): (r: Option<nat>)
    ensures r.Some? ==> r.value < |names|
  {
    FindNameFrom(names, name, 0)
  }

  function FindNameFrom(names: seq<string>, name: string, i: nat): (r: Option<nat>)
    requires i <= |names|
    ensures r.Some? ==> i <= r.value < |names|
    decreases |names| - i
  {
    if i == |names| then None
    else if EqualsIgnoreCase(names[i], name) then Some(i)
    else FindNameFrom(names, name, i + 1)
  }

  lemma {:induction false} FindNameFromFirst(names: seq<string>, name: string, i: nat)
    requires i <= |names|
    ensures FindNameFrom(names, name, i).None? <==> forall j :: i <= j < |names| ==> !EqualsIgnoreCase(names[j], name)
    ensures FindNameFrom(names, name, i).Some? ==>
      var k := FindNameFrom(names, name, i).value;
      EqualsIgnoreCase(names[k], name) && forall j :: i <= j < k ==> !EqualsIgnoreCase(names[j], name)
    decreases |names| - i
  {
    if i < |names| && !EqualsIgnoreCase(names[i], name) {
      FindNameFromFirst(names, name, i + 1);
    }
  }

  /** The search finds the first name that matches, and nothing only when no
      name matches. */
  lemma FindNameFirst(names: seq<string>, name: string)
    ensures FindName(names, name).None? <==> forall j :: 0 <= j < |names| ==> !EqualsIgnoreCase(names[j], name)
    ensures FindName(names, name).Some? ==>
      var k := FindName(names, name).value;
      EqualsIgnoreCase(names[k], name) && forall j :: 0 <= j < k ==> !EqualsIgnoreCase(names[j], name)
  {
    FindNameFromFirst(names, name, 0);
  }

  /** No two names are equal ignoring case. */
  predicate DistinctIgnoreCase(names: seq<string>) {
    forall i, j :: 0 <= i < j < |names| ==> !EqualsIgnoreCase(names[i], names[j])
  }

  /** Among distinct names a match is the only one, and a name absent from
      the list may be appended. */
  lemma FindNameUnique(names: seq<string>, name: string)
    requires DistinctIgnoreCase(names)
    ensures FindName(names, name).Some? ==>
      forall j :: 0 <= j < |names| && j != FindName(names, name).value ==> !EqualsIgnoreCase(names[j], name)
    ensures FindName(names, name).None? ==> DistinctIgnoreCase(names + [name])
  {
    FindNameFirst(names, name);
    var r := names + [name];
    if FindName(names, name).None? {
      assert forall j :: 0 <= j < |names| ==> r[j] == names[j];
    }
  }

  /** Leaving a name out keeps the others distinct. */
  lemma DistinctWithout(names: seq<string>, i: nat)
    requires DistinctIgnoreCase(names) && i < |names|
    ensures DistinctIgnoreCase(names[..i] + names[i + 1..])
  {
    var r := names[..i] + names[i + 1..];
    assert forall p :: 0 <= p < |r| ==> r[p] == names[if p < i then p else p + 1];
  }

  // -----------------------------------------------------------------------
  // Room settings

  /** A channel's room settings; `None` means not known yet. Followers-only
      is in minutes and slow mode in seconds. */
  datatype RoomSettings = RoomSettings(
    emoteOnly: Option<bool>,
    followersOnly: Option<int>,
    r9k: Option<bool>,
    slow: Option<int>,
    subsOnly: Option<bool>)

  /** Every setting starts unknown. */
  const Unknown: RoomSettings := RoomSettings(None, None, None, None, None)

  /** A field of a ROOMSTATE replaces the kept value only when present. */
  function Overwrite<T>(kept: Option<T>, incoming: Option<T>): (r: Option<T>)
    ensures incoming.Some? ==> r == incoming
    ensures incoming.None? ==> r == kept
  {
    if incoming.Some? then incoming else kept
  }

  /** Every setting present. */
  predicate Complete(r: RoomSettings) {
    r.emoteOnly.Some? && r.followersOnly.Some? && r.r9k.Some? && r.slow.Some? && r.subsOnly.Some?
  }

  /** What a channel keeps after it receives the settings of one ROOMSTATE: a
      message with no setting changes nothing, one with all of them replaces
      everything. */
  function Merge(kept: RoomSettings, incoming: RoomSettings): (r: RoomSettings)
    ensures incoming == Unknown ==> r == kept
    ensures Complete(incoming) ==> r == incoming
    ensures Complete(kept) ==> Complete(r)
  {
    RoomSettings(
      Overwrite(kept.emoteOnly, incoming.emoteOnly),
      Overwrite(kept.followersOnly, incoming.followersOnly),
      Overwrite(kept.r9k, incoming.r9k),
      Overwrite(kept.slow, incoming.slow),
      Overwrite(kept.subsOnly, incoming.subsOnly))
  }

  /** The settings after a sequence of ROOMSTATE messages, in order: messages
      without settings change nothing, and a complete message last decides
      every setting. */
  function MergeAll(kept: RoomSettings, incoming: seq<RoomSettings>): (r: RoomSettings)
    ensures (forall k :: 0 <= k < |incoming| ==> incoming[k] == Unknown) ==> r == kept
    ensures incoming != [] && Complete(incoming[|incoming| - 1]) ==> r == incoming[|incoming| - 1]
    ensures Complete(kept) ==> Complete(r)
    decreases |incoming|
  {
    if incoming == [] then kept else MergeAll(Merge(kept, incoming[0]), incoming[1..])
  }

  /** A value after a sequence of overwrites. */
  function Latest<T>(kept: Option<T>, incoming: seq<Option<T>>): Option<T>
    decreases |incoming|
  {
    if incoming == [] then kept else Latest(Overwrite(kept, incoming[0]), incoming[1..])
  }

  /** One setting of each of a sequence of messages. */
  function Project<T>(incoming: seq<RoomSettings>, field: RoomSettings -> Option<T>): (r: seq<Option<T>>)
    ensures |r| == |incoming|
    decreases |incoming|
  {
    if incoming == [] then [] else [field(incoming[0])] + Project(incoming[1..], field)
  }

  /** Each field is overwritten exactly when the message carries it. */
  lemma MergeFieldwise(kept: RoomSettings, incoming: RoomSettings)
    ensures var r := Merge(kept, incoming);
      && (incoming.emoteOnly.Some? ==> r.emoteOnly == incoming.emoteOnly)
      && (incoming.emoteOnly.None? ==> r.emoteOnly == kept.emoteOnly)
      && (incoming.followersOnly.Some? ==> r.followersOnly == incoming.followersOnly)
      && (incoming.followersOnly.None? ==> r.followersOnly == kept.followersOnly)
      && (incoming.r9k.Some? ==> r.r9k == incoming.r9k)
      && (incoming.r9k.None? ==> r.r9k == kept.r9k)
      && (incoming.slow.Some? ==> r.slow == incoming.slow)
      && (incoming.slow.None? ==> r.slow == kept.slow)
      && (incoming.subsOnly.Some? ==> r.subsOnly == incoming.subsOnly)
      && (incoming.subsOnly.None? ==> r.subsOnly == kept.subsOnly)
  {
  }

  /** A message without any setting changes nothing. */
  lemma MergeUnknownIdentity(kept: RoomSettings)
    ensures Merge(kept, Unknown) == kept
  {
  }

  /** Receiving the same message twice is receiving it once. */
  lemma MergeIdempotent(kept: RoomSettings, incoming: RoomSettings)
    ensures Merge(Merge(kept, incoming), incoming) == Merge(kept, incoming)
  {
  }

  /** Two messages in a row act as the one message that carries the second's
      settings and, where the second has none, the first's. */
  lemma MergeAssociative(kept: RoomSettings, a: RoomSettings, b: RoomSettings)
    ensures Merge(Merge(kept, a), b) == Merge(kept, Merge(a, b))
  {
  }

  /** The value after a run of overwrites is the last one present, or the kept
      one when none is. */
  lemma {:induction false} LatestWins<T>(kept: Option<T>, incoming: seq<Option<T>>, k: nat)
    requires LastPresent(incoming, k)
    ensures Latest(kept, incoming) == incoming[k]
    decreases |incoming|
  {
    if k == 0 {
      LatestAllAbsent(Overwrite(kept, incoming[0]), incoming[1..]);
    } else {
      LatestWins(Overwrite(kept, incoming[0]), incoming[1..], k - 1);
    }
  }

  lemma {:induction false} LatestAllAbsent<T>(kept: Option<T>, incoming: seq<Option<T>>)
    requires NonePresent(incoming)
    ensures Latest(kept, incoming) == kept
    decreases |incoming|
  {
    if incoming != [] {
      LatestAllAbsent(Overwrite(kept, incoming[0]), incoming[1..]);
    }
  }

  /** After a sequence of messages, each setting is the latest value that
      field received. */
  lemma {:induction false} MergeAllLatest(kept: RoomSettings, incoming: seq<RoomSettings>)
    ensures MergeAll(kept, incoming) == RoomSettings(
      Latest(kept.emoteOnly, Project(incoming, (s: RoomSettings) => s.emoteOnly)),
      Latest(kept.followersOnly, Project(incoming, (s: RoomSettings) => s.followersOnly)),
      Latest(kept.r9k, Project(incoming, (s: RoomSettings) => s.r9k)),
      Latest(kept.slow, Project(incoming, (s: RoomSettings) => s.slow)),
      Latest(kept.subsOnly, Project(incoming, (s: RoomSettings) => s.subsOnly)))
    decreases |incoming|
  {
    if incoming != [] {
      MergeAllLatest(Merge(kept, incoming[0]), incoming[1..]);
    }
  }

  /** Position `k` holds the last present value. */
  predicate LastPresent<T>(vals: seq<Option<T>>, k: int) {
    0 <= k < |vals| && vals[k].Some? && forall j :: k < j < |vals| ==> vals[j].None?
  }

  predicate NonePresent<T>(vals: seq<Option<T>>) {
    forall j :: 0 <= j < |vals| ==> vals[j].None?
  }

  /** One setting over a sequence of messages: the last message that carries
      it decides it, and without one the kept value stays. */
  lemma FieldLatest<T>(kept: Option<T>, incoming: seq<RoomSettings>, field: RoomSettings -> Option<T>)
    ensures forall k :: LastPresent(Project(incoming, field), k) ==>
      Latest(kept, Project(incoming, field)) == field(incoming[k])
    ensures NonePresent(Project(incoming, field)) ==> Latest(kept, Project(incoming, field)) == kept
  {
    var vals := Project(incoming, field);
    ProjectAt(incoming, field);
    forall k | LastPresent(vals, k)
      ensures Latest(kept, vals) == field(incoming[k])
    {
      LatestWins(kept, vals, k);
    }
    if NonePresent(vals) {
      LatestAllAbsent(kept, vals);
    }
  }

  /** For each of the five settings on its own, the most recent message that
      carries it decides it; a setting no message carries keeps its value. */
  lemma LatestSettingsWin(kept: RoomSettings, incoming: seq<RoomSettings>)
    ensures var r := MergeAll(kept, incoming);
      && (forall k :: LastPresent(Project(incoming, (s: RoomSettings) => s.emoteOnly), k) ==> r.emoteOnly == incoming[k].emoteOnly)
      && (NonePresent(Project(incoming, (s: RoomSettings) => s.emoteOnly)) ==> r.emoteOnly == kept.emoteOnly)
      && (forall k :: LastPresent(Project(incoming, (s: RoomSettings) => s.followersOnly), k) ==> r.followersOnly == incoming[k].followersOnly)
      && (NonePresent(Project(incoming, (s: RoomSettings) => s.followersOnly)) ==> r.followersOnly == kept.followersOnly)
      && (forall k :: LastPresent(Project(incoming, (s: RoomSettings) => s.r9k), k) ==> r.r9k == incoming[k].r9k)
      && (NonePresent(Project(incoming, (s: RoomSettings) => s.r9k)) ==> r.r9k == kept.r9k)
      && (forall k :: LastPresent(Project(incoming, (s: RoomSettings) => s.slow), k) ==> r.slow == incoming[k].slow)
      && (NonePresent(Project(incoming, (s: RoomSettings) => s.slow)) ==> r.slow == kept.slow)
      && (forall k :: LastPresent(Project(incoming, (s: RoomSettings) => s.subsOnly), k) ==> r.subsOnly == incoming[k].subsOnly)
      && (NonePresent(Project(incoming, (s: RoomSettings) => s.subsOnly)) ==> r.subsOnly == kept.subsOnly)
  {
    MergeAllLatest(kept, incoming);
    FieldLatest(kept.emoteOnly, incoming, (s: RoomSettings) => s.emoteOnly);
    FieldLatest(kept.followersOnly, incoming, (s: RoomSettings) => s.followersOnly);
    FieldLatest(kept.r9k, incoming, (s: RoomSettings) => s.r9k);
    FieldLatest(kept.slow, incoming, (s: RoomSettings) => s.slow);
    FieldLatest(kept.subsOnly, incoming, (s: RoomSettings) => s.subsOnly);
  }

  lemma {:induction false} ProjectAt<T>(incoming: seq<RoomSettings>, field: RoomSettings -> Option<T>)
    ensures forall j :: 0 <= j < |incoming| ==> Project(incoming, field)[j] == field(incoming[j])
    decreases |incoming|
  {
    if incoming != [] {
      ProjectAt(incoming[1..], field);
    }
  }
}
