/** Parsed IRC lines and the fields the chat client reads from them: the
    channel and text of a private message, its sender and its badge list.
    The IRC line parser itself belongs to a library that is not part of this
    model; its output is the `IrcMessage` record. A missing parameter, tag or
    prefix that the source dereferences throws there; here it is an error
    result. */
module Irc {
  import opened Wrappers
  import opened Text

  /** One parsed line: its tags (absent when the line has none), prefix,
      command and parameters. */
  datatype IrcMessage = IrcMessage(
    tags: Option<map<string, string>>,
    prefix: Option<string>,
    command: string,
    parameters: seq<string>)

  datatype ParseError =
    | MissingParameter        // a parameter index past the end
    | EmptyChannelParameter   // `[1..]` of an empty parameter
    | MissingPrefix           // `prefix!` on a line without a prefix
    | BadgeWithoutSlash       // a badge item with no `/` (also the empty item)
    | DuplicateBadge          // `Dictionary.Add` of a key already present
    | MissingTag              // `Tag(key)` of a tag the line does not carry

  /** Parameter `i`, which throws when there are not that many. */
  function Parameter(m: IrcMessage, i: nat): (r: Result<string, ParseError>)
    ensures r.Ok? <==> i < |m.parameters|
    ensures r.Ok? ==> r.value == m.parameters[i]
  {
    if i < |m.parameters| then Ok(m.parameters[i]) else Err(MissingParameter)
  }

  function LastParameter(m: IrcMessage): (r: Result<string, ParseError>)
    ensures r.Ok? <==> m.parameters != []
    ensures r.Ok? ==> r.value == m.parameters[|m.parameters| - 1]
  {
    if m.parameters == [] then Err(MissingParameter) else Ok(m.parameters[|m.parameters| - 1])
  }

  /** A channel parameter `#name` without its first character. */
  function ChannelName(p: string): (r: Result<string, ParseError>)
    ensures r.Ok? <==> p != []
    ensures r.Ok? ==> [p[0]] + r.value == p
  {
    if p == [] then Err(EmptyChannelParameter) else Ok(p[1..])
  }

  /** The channel named by parameter `i`. */
  function ChannelParameter(m: IrcMessage, i: nat): (r: Result<string, ParseError>)
    ensures r.Ok? <==> i < |m.parameters| && m.parameters[i] != []
    ensures r.Ok? ==> r.value == m.parameters[i][1..]
  {
    match Parameter(m, i)
    case Err(e) => Err(e)
    case Ok(p) => ChannelName(p)
  }

  function OptionalTag(m: IrcMessage, key: string): (r: Option<string>)
    ensures r.Some? <==> m.tags.Some? && key in m.tags.value
    ensures r.Some? ==> r.value == m.tags.value[key]
  {
    if m.tags.Some? && key in m.tags.value then Some(m.tags.value[key]) else None
  }

  /** `Tag(key)` finds a value exactly when this holds. */
  predicate HasTag(m: IrcMessage, key: string)
    ensures HasTag(m, key) <==> OptionalTag(m, key).Some?
  {
    m.tags.Some? && key in m.tags.value
  }

  /** `s.Split(c)[0]`: the text before the first `c`, or all of `s`. */
  function UpToFirst(s: string, c: char): (r: string)
    ensures r <= s && c !in r
    ensures c in s ==> |r| < |s| && s[|r|] == c
    ensures c !in s ==> r == s
  {
    IndexOfFirst(s, c);
    match IndexOf(s, c)
    case None => s
    case Some(i) => s[..i]
  }

  // -----------------------------------------------------------------------
  // The badges tag

  /** The comma-separated items of a non-empty badges tag, empty items kept. */
  function Items(s: string): (r: seq<string>)
    ensures |r| >= 1
    decreases |s|
  {
    match IndexOf(s, ',')
    case None => [s]
    case Some(d) => [s[..d]] + Items(s[d + 1..])
  }

  /** The items put back together with commas. */
  function JoinItems(items: seq<string>): string
    decreases |items|
  {
    if |items| <= 1 then (if items == [] then "" else items[0])
    else items[0] + "," + JoinItems(items[1..])
  }

  /** `item` is `key`, a `/` and `version`, and the key holds no `/`. */
  predicate SplitAtSlash(item: string, key: string, version: string) {
    item == key + "/" + version && '/' !in key
  }

  /** One item `badge/version`: the key is the text before the first `/`,
      the value the text after it. */
  function BadgeOf(item: string): (r: Result<(string, string), ParseError>)
    ensures r.Err? ==> r.error == BadgeWithoutSlash
    ensures r.Ok? ==> SplitAtSlash(item, r.value.0, r.value.1)
  {
    IndexOfFirst(item, '/');
    match IndexOf(item, '/')
    case None => Err(BadgeWithoutSlash)
    case Some(k) => Ok((item[..k], item[k + 1..]))
  }

  /** An item reads as a badge exactly when it holds a `/`; the badge and the
      version, joined by `/`, give the item back, and the badge holds no `/`. */
  lemma BadgeOfSplits(item: string)
    ensures BadgeOf(item).Ok? <==> '/' in item
    ensures BadgeOf(item).Ok? ==>
      var kv := BadgeOf(item).value;
      kv.0 + "/" + kv.1 == item && '/' !in kv.0
  {
    IndexOfFirst(item, '/');
    if IndexOf(item, '/').Some? {
      var k := IndexOf(item, '/').value;
      assert item[..k] + "/" + item[k + 1..] == item;
    }
  }

  /** `big` keeps every entry of `small`. */
  predicate Extends(small: map<string, string>, big: map<string, string>) {
    forall k :: k in small ==> k in big && big[k] == small[k]
  }

  /** Every key `big` holds beyond those of `small` is free of `/`. */
  predicate NewKeysSlashFree(small: map<string, string>, big: map<string, string>) {
    forall k :: k in big && k !in small ==> '/' !in k
  }

  /** `Dictionary.Add` of one item's badge and version. */
  function AddBadge(dict: map<string, string>, item: string): (r: Result<map<string, string>, ParseError>)
    ensures r.Ok? <==> BadgeOf(item).Ok? && BadgeOf(item).value.0 !in dict
    ensures r.Ok? ==> Extends(map[BadgeOf(item).value.0 := BadgeOf(item).value.1], r.value)
    ensures r.Ok? ==> Extends(dict, r.value) && NewKeysSlashFree(dict, r.value)
  {
    match BadgeOf(item)
    case Err(e) => Err(e)
    case Ok(kv) => if kv.0 in dict then Err(DuplicateBadge) else Ok(dict[kv.0 := kv.1])
  }

  /** Adds the items to `dict` in order; the first failing item decides the error. */
  function AddBadges(dict: map<string, string>, items: seq<string>): (r: Result<map<string, string>, ParseError>)
    ensures r.Ok? ==> Extends(dict, r.value) && NewKeysSlashFree(dict, r.value)
    decreases |items|
  {
    if items == [] then Ok(dict)
    else match AddBadge(dict, items[0])
      case Err(e) => Err(e)
      case Ok(next) => AddBadges(next, items[1..])
  }

  /** The badge map of a `badges` tag: a missing or empty tag gives no badges. */
  function ParseBadges(tag: Option<string>): (r: Result<map<string, string>, ParseError>)
    ensures tag.None? || tag.value == "" ==> r == Ok(map[])
    ensures r.Ok? ==> NewKeysSlashFree(map[], r.value)
  {
    if tag.None? || tag.value == "" then Ok(map[]) else AddBadges(map[], Items(tag.value))
  }

  /** The do-while loop over the tag: `remaining` and the current item are
      spans of the tag, kept as start and length; the loop stops after the
      item that is the whole remaining span, the one with no comma after it. */
  method ReadBadges(badges: string) returns (r: Result<map<string, string>, ParseError>)
    ensures r == ParseBadges(Some(badges))
  {
    var dict: map<string, string> := map[];
    if badges == "" {
      return Ok(dict);
    }
    var remStart: nat, remLen: nat := 0, |badges|;
    var more := true;
    ghost var goal := ParseBadges(Some(badges));
    assert badges[0..] == badges;
    while more
      invariant remStart + remLen == |badges|
      invariant more ==> goal == AddBadges(dict, Items(badges[remStart..]))
      invariant !more ==> goal == Ok(dict)
      decreases remLen, more
    {
      var itemStart, itemLen, added;
      itemStart := remStart;
      added, itemLen, remStart, remLen := ReadItem(badges, remStart, remLen, dict);
      if added.Err? {
        return Err(added.error);
      }
      dict := added.value;
      more := (itemStart, itemLen) != (remStart, remLen);
    }
    r := Ok(dict);
  }

  /** One pass of the loop body: the item is the remaining span up to its
      first comma, or all of it; the remaining span moves past the comma.
      The item's badge is then added. */
  method ReadItem(badges: string, remStart: nat, remLen: nat, dict: map<string, string>)
    returns (added: Result<map<string, string>, ParseError>, itemLen: nat, nextStart: nat, nextLen: nat)
    requires remStart + remLen == |badges|
    ensures nextStart + nextLen == |badges|
    ensures var stop := (remStart, itemLen) == (nextStart, nextLen);
      && (!stop ==> nextLen < remLen)
      && (added.Err? ==> AddBadges(dict, Items(badges[remStart..])) == added)
      && (added.Ok? && !stop ==> AddBadges(dict, Items(badges[remStart..])) == AddBadges(added.value, Items(badges[nextStart..])))
      && (added.Ok? && stop ==> AddBadges(dict, Items(badges[remStart..])) == added)
  {
    var delimiter := IndexOf(badges[remStart..], ',');
    if delimiter.None? {
      itemLen, nextStart, nextLen := remLen, remStart, remLen;
      added := AddItem(dict, badges[remStart..]);
      ItemStep(dict, badges, remStart, delimiter);
    } else {
      var d := delimiter.value;
      itemLen, nextStart, nextLen := d, remStart + d + 1, remLen - d - 1;
      added := AddItem(dict, badges[remStart..remStart + d]);
      ItemStep(dict, badges, remStart, delimiter);
      assert (remStart, itemLen) != (nextStart, nextLen);
    }
  }

  /** One item taken off the tag from `start`: it ends at the next comma, or
      at the end, and the parse goes on with the items after it. */
  lemma ItemStep(dict: map<string, string>, s: string, start: nat, delimiter: Option<nat>)
    requires start <= |s| && delimiter == IndexOf(s[start..], ',')
    ensures delimiter.None? ==> AddBadges(dict, Items(s[start..])) == AddBadge(dict, s[start..])
    ensures delimiter.Some? ==>
      var item := s[start..start + delimiter.value];
      && (AddBadge(dict, item).Err? ==> AddBadges(dict, Items(s[start..])) == AddBadge(dict, item))
      && (AddBadge(dict, item).Ok? ==>
            AddBadges(dict, Items(s[start..])) == AddBadges(AddBadge(dict, item).value, Items(s[start + delimiter.value + 1..])))
  {
    var t := s[start..];
    if delimiter.Some? {
      var d := delimiter.value;
      assert t[..d] == s[start..start + d];
      assert t[d + 1..] == s[start + d + 1..];
      var items := Items(t);
      assert items[0] == s[start..start + d] && items[1..] == Items(s[start + d + 1..]);
    } else {
      assert Items(t) == [t];
    }
  }

  /** One pass of the loop body on one item: split at the first `/` and add. */
  method AddItem(dict: map<string, string>, item: string) returns (r: Result<map<string, string>, ParseError>)
    ensures r == AddBadge(dict, item)
  {
    var split := IndexOf(item, '/');
    if split.None? {
      return Err(BadgeWithoutSlash);
    }
    var key := item[..split.value];
    if key in dict {
      return Err(DuplicateBadge);
    }
    r := Ok(dict[key := item[split.value + 1..]]);
  }

  /** Splitting on commas undoes joining items that hold no comma. */
  lemma {:induction false} ItemsJoin(items: seq<string>)
    requires |items| >= 1
    requires forall i :: 0 <= i < |items| ==> ',' !in items[i]
    ensures Items(JoinItems(items)) == items
    decreases |items|
  {
    if |items| == 1 {
      IndexOfFirst(items[0], ',');
    } else {
      var s := JoinItems(items);
      assert s == items[0] + "," + JoinItems(items[1..]);
      var d := |items[0]|;
      assert s[d] == ',' && s[..d] == items[0];
      IndexOfAt(s, ',', d);
      assert s[d + 1..] == JoinItems(items[1..]);
      ItemsJoin(items[1..]);
    }
  }

  /** Joining the items of a tag gives the tag back. */
  lemma {:induction false} JoinSplit(s: string)
    ensures JoinItems(Items(s)) == s
    decreases |s|
  {
    IndexOfFirst(s, ',');
    match IndexOf(s, ',')
    case None =>
    case Some(d) =>
      var rest := s[d + 1..];
      var items := Items(s);
      assert items == [s[..d]] + Items(rest);
      assert |items| > 1 && items[1..] == Items(rest);
      assert JoinItems(items) == s[..d] + "," + JoinItems(Items(rest));
      JoinSplit(rest);
      assert s[..d] + "," + rest == s;
  }

  /** A tag ending in a comma has an empty last item. */
  lemma {:induction false} TrailingCommaItem(s: string)
    requires s != [] && s[|s| - 1] == ','
    ensures Items(s)[|Items(s)| - 1] == ""
    decreases |s|
  {
    IndexOfFirst(s, ',');
    assert s[|s| - 1] in s;
    match IndexOf(s, ',')
    case None =>
    case Some(d) =>
      var rest := s[d + 1..];
      if rest != [] {
        TrailingCommaItem(rest);
      }
  }

  /** An item without a slash anywhere makes the whole parse fail. */
  lemma {:induction false} BadItemFails(dict: map<string, string>, items: seq<string>, i: nat)
    requires i < |items| && '/' !in items[i]
    ensures AddBadges(dict, items).Err?
    decreases |items|
  {
    BadgeOfSplits(items[0]);
    match BadgeOf(items[0])
    case Err(_) =>
    case Ok(kv) =>
      if kv.0 !in dict {
        BadItemFails(dict[kv.0 := kv.1], items[1..], i - 1);
      }
  }

  /** A trailing comma is an error. */
  lemma TrailingCommaRejected(s: string)
    requires s != [] && s[|s| - 1] == ','
    ensures ParseBadges(Some(s)).Err?
  {
    TrailingCommaItem(s);
    BadItemFails(map[], Items(s), |Items(s)| - 1);
  }

  /** Two well-formed items with the same badge make the parse fail. */
  lemma {:induction false} DuplicateFails(dict: map<string, string>, items: seq<string>, i: nat, j: nat)
    requires i < j < |items|
    requires BadgeOf(items[i]).Ok? && BadgeOf(items[j]).Ok?
    requires BadgeOf(items[i]).value.0 == BadgeOf(items[j]).value.0
    ensures AddBadges(dict, items).Err?
    decreases |items|
  {
    match BadgeOf(items[0])
    case Err(_) =>
    case Ok(kv) =>
    if kv.0 !in dict {
      if i == 0 {
        PresentKeyFails(dict[kv.0 := kv.1], items[1..], j - 1, kv.0);
      } else {
        DuplicateFails(dict[kv.0 := kv.1], items[1..], i - 1, j - 1);
      }
    }
  }

  /** An item whose badge is already in the map makes the parse fail. */
  lemma {:induction false} PresentKeyFails(dict: map<string, string>, items: seq<string>, j: nat, key: string)
    requires j < |items| && key in dict
    requires BadgeOf(items[j]).Ok? && BadgeOf(items[j]).value.0 == key
    ensures AddBadges(dict, items).Err?
    decreases |items|
  {
    match BadgeOf(items[0])
    case Err(_) =>
    case Ok(kv) =>
      if kv.0 !in dict {
        PresentKeyFails(dict[kv.0 := kv.1], items[1..], j - 1, key);
      }
  }

  /** A successful parse maps each item's badge to its version, keeps what was
      there before, and adds exactly one entry per item. */
  lemma {:induction false} AddBadgesContents(dict: map<string, string>, items: seq<string>, m: map<string, string>)
    requires AddBadges(dict, items) == Ok(m)
    ensures |m| == |dict| + |items|
    ensures forall k :: k in dict ==> k in m && m[k] == dict[k]
    ensures forall i :: 0 <= i < |items| ==>
      BadgeOf(items[i]).Ok? && BadgeOf(items[i]).value.0 !in dict
      && BadgeOf(items[i]).value.0 in m && m[BadgeOf(items[i]).value.0] == BadgeOf(items[i]).value.1
    decreases |items|
  {
    if items != [] {
      var kv := BadgeOf(items[0]).value;
      var next := dict[kv.0 := kv.1];
      AddBadgesContents(next, items[1..], m);
      assert |next| == |dict| + 1;
      forall i | 0 <= i < |items|
        ensures BadgeOf(items[i]).Ok? && BadgeOf(items[i]).value.0 !in dict
          && BadgeOf(items[i]).value.0 in m && m[BadgeOf(items[i]).value.0] == BadgeOf(items[i]).value.1
      {
        if i > 0 {
          assert items[i] == items[1..][i - 1];
        }
      }
    }
  }

  /** Whenever the badges parse, there is one entry per item, each mapping the
      text before the item's first `/` to the text after it. */
  lemma ParsedBadges(s: string, m: map<string, string>)
    requires s != "" && ParseBadges(Some(s)) == Ok(m)
    ensures |m| == |Items(s)|
    ensures forall i :: 0 <= i < |Items(s)| ==>
      var badge := BadgeOf(Items(s)[i]);
      badge.Ok? && badge.value.0 in m && m[badge.value.0] == badge.value.1
  {
    AddBadgesContents(map[], Items(s), m);
  }

  /** The badge list written by the server: `badge/version` items joined by
      commas. Badges hold neither `/` nor `,`, versions hold no `,`, and no
      badge appears twice. */
  predicate WellFormedBadges(pairs: seq<(string, string)>) {
    && (forall i :: 0 <= i < |pairs| ==> '/' !in pairs[i].0 && ',' !in pairs[i].0 && ',' !in pairs[i].1)
    && (forall i, j :: 0 <= i < j < |pairs| ==> pairs[i].0 != pairs[j].0)
  }

  function BadgeItems(pairs: seq<(string, string)>): (r: seq<string>)
    ensures |r| == |pairs|
  {
    seq(|pairs|, i requires 0 <= i < |pairs| => pairs[i].0 + "/" + pairs[i].1)
  }

  /** The map the pairs describe, added in order onto `dict`. */
  function PairsMap(dict: map<string, string>, pairs: seq<(string, string)>): map<string, string>
    decreases |pairs|
  {
    if pairs == [] then dict else PairsMap(dict[pairs[0].0 := pairs[0].1], pairs[1..])
  }

  lemma {:induction false} AddBadgeItems(dict: map<string, string>, pairs: seq<(string, string)>)
    requires WellFormedBadges(pairs)
    requires forall i :: 0 <= i < |pairs| ==> pairs[i].0 !in dict
    ensures AddBadges(dict, BadgeItems(pairs)) == Ok(PairsMap(dict, pairs))
    ensures |PairsMap(dict, pairs)| == |dict| + |pairs|
    decreases |pairs|
  {
    if pairs != [] {
      var items := BadgeItems(pairs);
      var k := |pairs[0].0|;
      assert items[0] == pairs[0].0 + "/" + pairs[0].1;
      assert items[0][k] == '/' && items[0][..k] == pairs[0].0 && items[0][k + 1..] == pairs[0].1;
      IndexOfAt(items[0], '/', k);
      assert items[1..] == BadgeItems(pairs[1..]);
      var next := dict[pairs[0].0 := pairs[0].1];
      assert forall i :: 0 <= i < |pairs[1..]| ==> pairs[1..][i].0 == pairs[i + 1].0;
      AddBadgeItems(next, pairs[1..]);
    }
  }

  /** Round trip: parsing a well-formed badge list gives back exactly its
      badges, one entry per item. */
  lemma BadgesRoundTrip(pairs: seq<(string, string)>)
    requires WellFormedBadges(pairs)
    ensures ParseBadges(Some(JoinItems(BadgeItems(pairs)))) == Ok(PairsMap(map[], pairs))
    ensures |PairsMap(map[], pairs)| == |pairs|
  {
    var items := BadgeItems(pairs);
    AddBadgeItems(map[], pairs);
    if pairs != [] {
      forall i | 0 <= i < |items| ensures ',' !in items[i] {
        assert items[i] == pairs[i].0 + "/" + pairs[i].1;
      }
      ItemsJoin(items);
      assert items[0][|pairs[0].0|] == '/';
      assert JoinItems(items) != "" by {
        if |items| > 1 {
          assert JoinItems(items) == items[0] + "," + JoinItems(items[1..]);
        }
      }
    }
  }

  // -----------------------------------------------------------------------
  // Twitch messages

  /** The fields of a PRIVMSG the chat client and its channels use. */
  datatype PrivateMessage = PrivateMessage(
    channel: string,
    text: string,
    username: string,
    badges: map<string, string>,
    vip: bool)

  /** The tags the `TwitchPrivateMessage` constructor reads with `Tag`,
      `BoolTag` or `UnixMillisecondsTag`, each of which throws when the tag is
      missing. */
  const RequiredPrivateTags: seq<string> :=
    ["id", "mod", "room-id", "subscriber", "tmi-sent-ts", "turbo", "user-id"]

  predicate HasTags(m: IrcMessage, keys: seq<string>) {
    forall i :: 0 <= i < |keys| ==> HasTag(m, keys[i])
  }

  /** The `TwitchPrivateMessage` constructor, in its order of evaluation. */
  function ParsePrivateMessage(m: IrcMessage): (r: Result<PrivateMessage, ParseError>)
    ensures r.Ok? ==> m.prefix.Some? && HasTags(m, RequiredPrivateTags)
    ensures m.parameters != [] && m.parameters[0] != [] && m.prefix.None? ==> r == Err(MissingPrefix)
    ensures m.parameters != [] && m.parameters[0] != [] && m.prefix.Some? && !HasTags(m, RequiredPrivateTags) ==>
      r == Err(MissingTag)
  {
    match ChannelParameter(m, 0)
    case Err(e) => Err(e)
    case Ok(channel) =>
      match LastParameter(m)
      case Err(e) => Err(e)
      case Ok(text) =>
        match m.prefix
        case None => Err(MissingPrefix)
        case Some(prefix) =>
          if !HasTags(m, RequiredPrivateTags) then Err(MissingTag)
          else match ParseBadges(OptionalTag(m, "badges"))
          case Err(e) => Err(e)
          case Ok(badges) => Ok(PrivateMessage(channel, text, UpToFirst(prefix, '!'), badges, HasTag(m, "vip")))
  }

  /** A PRIVMSG is read exactly when it has a non-empty first parameter, a
      prefix, every required tag and a readable badges tag. Then the channel
      is the first parameter without its `#`, the text is the last
      parameter, the user name is the prefix up to its first `!`, and `vip`
      says only whether the tag is present. */
  lemma PrivateMessageFields(m: IrcMessage)
    ensures ParsePrivateMessage(m).Ok? <==>
      && m.parameters != [] && m.parameters[0] != []
      && m.prefix.Some? && HasTags(m, RequiredPrivateTags)
      && ParseBadges(OptionalTag(m, "badges")).Ok?
    ensures ParsePrivateMessage(m).Ok? ==>
      var pm := ParsePrivateMessage(m).value;
      && [m.parameters[0][0]] + pm.channel == m.parameters[0]
      && pm.text == m.parameters[|m.parameters| - 1]
      && pm.username <= m.prefix.value && '!' !in pm.username
      && ('!' in m.prefix.value ==> m.prefix.value[|pm.username|] == '!')
      && pm.badges == ParseBadges(OptionalTag(m, "badges")).value
      && (pm.vip <==> m.tags.Some? && "vip" in m.tags.value)
  {
  }

  /** A message with no badges tag, or an empty one, has no badges. */
  lemma NoBadgesTag(m: IrcMessage)
    requires OptionalTag(m, "badges").None? || OptionalTag(m, "badges") == Some("")
    ensures ParseBadges(OptionalTag(m, "badges")) == Ok(map[])
  {
  }

  /** NOTICE: the channel from the first parameter, the notice text from the
      second. */
  datatype NoticeMessage = NoticeMessage(channel: string, notice: string)

  function ParseNotice(m: IrcMessage): (r: Result<NoticeMessage, ParseError>)
    ensures r.Ok? <==> 2 <= |m.parameters| && m.parameters[0] != []
    ensures r.Ok? ==> r.value == NoticeMessage(m.parameters[0][1..], m.parameters[1])
  {
    match ChannelParameter(m, 0)
    case Err(e) => Err(e)
    case Ok(channel) =>
      match Parameter(m, 1)
      case Err(e) => Err(e)
      case Ok(notice) => Ok(NoticeMessage(channel, notice))
  }

  /** CLEARCHAT: the channel, the user when the line names one, and the
      required `room-id` tag; `tmi-sent-ts` is required as well. */
  datatype ClearChatMessage = ClearChatMessage(channel: string, username: Option<string>, roomId: string)

  function ParseClearChat(m: IrcMessage): (r: Result<ClearChatMessage, ParseError>)
    ensures r.Ok? <==>
      && m.parameters != [] && m.parameters[0] != []
      && HasTag(m, "room-id") && HasTag(m, "tmi-sent-ts")
    ensures r.Ok? ==> r.value.channel == m.parameters[0][1..] && r.value.roomId == m.tags.value["room-id"]
    ensures r.Ok? ==> (r.value.username.Some? <==> 2 <= |m.parameters|)
    ensures r.Ok? && 2 <= |m.parameters| ==> r.value.username == Some(m.parameters[1])
    ensures m.parameters != [] && m.parameters[0] != [] && !(HasTag(m, "room-id") && HasTag(m, "tmi-sent-ts")) ==>
      r == Err(MissingTag)
  {
    match ChannelParameter(m, 0)
    case Err(e) => Err(e)
    case Ok(channel) =>
      var username := if 2 <= |m.parameters| then Some(m.parameters[1]) else None;
      if !HasTag(m, "room-id") || !HasTag(m, "tmi-sent-ts") then Err(MissingTag)
      else Ok(ClearChatMessage(channel, username, m.tags.value["room-id"]))
  }
}
