/**
 * The log-line parser (packages/core/src/parser.ts).
 *
 * Each source function appears twice: a specification function over values
 * (`LineEvents`, `GreEvents`, `GameStateEvent`, `Identities`) and the method
 * that builds its result with a loop, as the source does, proved equal to it.
 * A thrown exception is the value `Threw`; `parseLine`'s try/catch turns it
 * into an empty list of events.
 */
module Parser {
  import opened Wrappers
  import opened Json
  import opened Types

  /** The outcome of code that may throw. */
  datatype Try<+T> = Ok(value: T) | Threw

  const GreMarker: string := "GREConnection.HandleWebSocketMessage"
  const SceneMarker: string := "Client.SceneChange"
  const MatchWord: string := "Match"

  /** `s.includes(sub)` */
  predicate Contains(s: string, sub: string)
    decreases |s|
  {
    StartsWith(s, sub) || (|s| > 0 && Contains(s[1..], sub))
  }

  lemma {:induction false} ContainsAt(s: string, sub: string, i: nat)
    requires i + |sub| <= |s| && s[i..i + |sub|] == sub
    ensures Contains(s, sub)
    decreases i
  {
    if i > 0 {
      assert s[1..][i - 1..i - 1 + |sub|] == s[i..i + |sub|];
      ContainsAt(s[1..], sub, i - 1);
    }
  }

  /** A string that lacks one character of `sub` does not contain `sub`. */
  lemma {:induction false} MissingCharNotContained(s: string, sub: string, c: char)
    requires c in sub && c !in s
    ensures !Contains(s, sub)
    decreases |s|
  {
    if |s| > 0 {
      assert c !in s[1..] by {
        assert forall k :: 0 <= k < |s[1..]| ==> s[1..][k] == s[k + 1];
      }
      MissingCharNotContained(s[1..], sub, c);
    }
    if |sub| <= |s| {
      var k :| 0 <= k < |sub| && sub[k] == c;
      assert s[..|sub|][k] == s[k] != c;
    }
  }

  /** A string contains every piece it is built from. */
  lemma ContainsPiece(a: string, sub: string, b: string)
    ensures Contains(a + sub + b, sub)
  {
    assert (a + sub + b)[|a|..|a| + |sub|] == sub;
    ContainsAt(a + sub + b, sub, |a|);
  }

  // ---------------------------------------------------------------------
  // The regular expression /({.*})/
  // ---------------------------------------------------------------------

  /** The characters `.` does not match in a JavaScript regular expression. */
  predicate IsLineTerminator(c: char) {
    c == '\n' || c == '\r' || c == '\U{2028}' || c == '\U{2029}'
  }

  /** The end of the run of characters `.` can match, starting at `k`. */
  function RunEnd(s: string, k: nat): (e: nat)
    requires k <= |s|
    ensures k <= e <= |s|
    ensures forall j :: k <= j < e ==> !IsLineTerminator(s[j])
    ensures e < |s| ==> IsLineTerminator(s[e])
    decreases |s| - k
  {
    if k == |s| || IsLineTerminator(s[k]) then k else RunEnd(s, k + 1)
  }

  /** The last `}` in `s[lo..hi]`. */
  function LastClose(s: string, lo: nat, hi: nat): (r: Option<nat>)
    requires lo <= hi <= |s|
    ensures r.Some? ==> lo <= r.value < hi && s[r.value] == '}'
    ensures r.Some? ==> forall j :: r.value < j < hi ==> s[j] != '}'
    ensures r.None? ==> forall j :: lo <= j < hi ==> s[j] != '}'
    decreases hi - lo
  {
    if hi == lo then None
    else if s[hi - 1] == '}' then Some(hi - 1)
    else LastClose(s, lo, hi - 1)
  }

  /** The end (exclusive) of the greedy match that starts at `i`, if one does. */
  function MatchAt(s: string, i: nat): (r: Option<nat>)
    requires i < |s|
    ensures r.Some? ==> s[i] == '{' && i + 1 < r.value <= RunEnd(s, i + 1) && s[r.value - 1] == '}'
    ensures r.Some? ==> forall j :: r.value <= j < RunEnd(s, i + 1) ==> s[j] != '}'
    ensures s[i] == '{' && (exists j :: i < j < RunEnd(s, i + 1) && s[j] == '}') ==> r.Some?
  {
    if s[i] != '{' then None
    else match LastClose(s, i + 1, RunEnd(s, i + 1))
      case None => None
      case Some(j) => Some(j + 1)
  }

  /** The leftmost match at or after `from`, as a start and an exclusive end. */
  function BraceMatch(s: string, from: nat): (r: Option<(nat, nat)>)
    requires from <= |s|
    ensures r.Some? ==> from <= r.value.0 < r.value.1 - 1 < |s|
    ensures r.Some? ==> s[r.value.0] == '{' && s[r.value.1 - 1] == '}'
    decreases |s| - from
  {
    if from == |s| then None
    else match MatchAt(s, from)
      case Some(e) => Some((from, e))
      case None => BraceMatch(s, from + 1)
  }

  /** `line.match(/({.*})/)?.[1]`: the embedded payload text. */
  function Payload(line: string): Option<string> {
    match BraceMatch(line, 0)
    case None => None
    case Some((a, b)) => Some(line[a..b])
  }

  predicate OnOneLine(s: string) {
    forall k :: 0 <= k < |s| ==> !IsLineTerminator(s[k])
  }

  lemma {:induction false} BraceMatchOnOneLine(s: string, from: nat)
    requires OnOneLine(s) && from <= |s|
    ensures BraceMatch(s, from).Some? <==>
              exists i, j :: from <= i < j < |s| && s[i] == '{' && s[j] == '}'
    ensures BraceMatch(s, from).Some? ==>
              var (a, b) := BraceMatch(s, from).value;
              s[a] == '{' && s[b - 1] == '}' && a < b - 1 &&
              (forall k :: from <= k < a ==> s[k] != '{') &&
              (forall k :: b - 1 < k < |s| ==> s[k] != '}')
    decreases |s| - from
  {
    if from < |s| {
      var e := RunEnd(s, from + 1);
      assert e == |s|;
      BraceMatchOnOneLine(s, from + 1);
      if s[from] == '{' {
        var c := LastClose(s, from + 1, e);
        if c.Some? {
          assert s[from] == '{' && s[c.value] == '}';
        }
      } else {
        if exists i, j :: from <= i < j < |s| && s[i] == '{' && s[j] == '}' {
          var i, j :| from <= i < j < |s| && s[i] == '{' && s[j] == '}';
          assert i != from;
          assert from + 1 <= i < j < |s| && s[i] == '{' && s[j] == '}';
        }
      }
    }
  }

  /**
   * On a single line the payload runs from the first `{` to the last `}`,
   * and exists exactly when some `}` follows the first `{`.
   */
  lemma PayloadOnOneLine(line: string)
    requires OnOneLine(line)
    ensures Payload(line).Some? <==>
              exists i, j :: 0 <= i < j < |line| && line[i] == '{' && line[j] == '}'
    ensures Payload(line).Some? ==>
              exists i, j :: 0 <= i < j < |line| && line[i] == '{' && line[j] == '}' &&
                (forall k :: 0 <= k < i ==> line[k] != '{') &&
                (forall k :: j < k < |line| ==> line[k] != '}') &&
                Payload(line).value == line[i..j + 1]
  {
    BraceMatchOnOneLine(line, 0);
    if Payload(line).Some? {
      var (a, b) := BraceMatch(line, 0).value;
      assert line[a] == '{' && line[b - 1] == '}';
    }
  }

  /** Without a `}` after a `{` there is nothing to parse. */
  lemma NoClosingBraceNoPayload(line: string)
    requires '}' !in line
    ensures Payload(line).None?
  {
  }

  // ---------------------------------------------------------------------
  // Walking the GRE payload
  // ---------------------------------------------------------------------

  /** `o.instanceId === id`, the callback given to `find`. */
  predicate HasInstanceId(o: Json, id: Json) {
    StrictEquals(Member(o, "instanceId"), id)
  }

  /** `find` moves past `o`: it is not null and does not match. */
  predicate PassesOver(o: Json, id: Json) {
    o != Null && !HasInstanceId(o, id)
  }

  /**
   * `objs.find(o => o.instanceId === id)`: the first matching object;
   * the callback throws on a null element met before any match.
   */
  function FindObject(objs: seq<Json>, id: Json): (r: Try<Option<Json>>)
    ensures r == Ok(None) <==> forall k :: 0 <= k < |objs| ==> PassesOver(objs[k], id)
    ensures r.Ok? && r.value.Some? ==>
              exists k :: 0 <= k < |objs| && objs[k] == r.value.value && HasInstanceId(objs[k], id) &&
                forall j :: 0 <= j < k ==> PassesOver(objs[j], id)
    ensures r == Threw ==>
              exists k :: 0 <= k < |objs| && objs[k] == Null &&
                forall j :: 0 <= j < k ==> PassesOver(objs[j], id)
    decreases |objs|
  {
    if objs == [] then Ok(None)
    else if objs[0] == Null then Threw
    else if HasInstanceId(objs[0], id) then Ok(Some(objs[0]))
    else
      var r := FindObject(objs[1..], id);
      assert forall k :: 1 <= k < |objs| ==> objs[k] == objs[1..][k - 1];
      r
  }

  /** `gameObjects.find(...)`: only an array has a `find` method to call. */
  function FindIn(gameObjects: Json, id: Json): Try<Option<Json>> {
    if gameObjects.Arr? then FindObject(gameObjects.items, id) else Threw
  }

  /** A number-typed property, or `None`. */
  function NumberValue(v: Option<Json>): Option<int> {
    if v.Some? && v.value.Num? then Some(v.value.n) else None
  }

  /** `{ mtgaId: obj.cardTitleId || 0, grpId: obj.grpId, name: undefined }` */
  function IdentityOf(obj: Json): (id: ArenaCardIdentity)
    ensures id.mtgaId.Some? && id.name.None? && id.setCode.None?
    ensures TruthyNumber(id.mtgaId) <==> Truthy(Member(obj, "cardTitleId")) && Member(obj, "cardTitleId").value.Num?
    ensures TruthyNumber(id.mtgaId) ==> id.mtgaId.value == Member(obj, "cardTitleId").value.n
    ensures id.grpId == NumberValue(Member(obj, "grpId"))
  {
    var title := NumberValue(Member(obj, "cardTitleId"));
    ArenaCardIdentity(
      mtgaId := Some(if title.Some? && title.value != 0 then title.value else 0),
      grpId := NumberValue(Member(obj, "grpId")),
      name := None,
      setCode := None)
  }

  /** `p` followed by the result of code that may throw. */
  function Prepend<T>(p: seq<T>, t: Try<seq<T>>): Try<seq<T>> {
    match t
    case Threw => Threw
    case Ok(v) => Ok(p + v)
  }

  lemma PrependNil<T>(t: Try<seq<T>>)
    ensures Prepend([], t) == t
  {
    if t.Ok? {
      assert [] + t.value == t.value;
    }
  }

  lemma PrependPrepend<T>(p: seq<T>, q: seq<T>, t: Try<seq<T>>)
    ensures Prepend(p, Prepend(q, t)) == Prepend(p + q, t)
  {
    if t.Ok? {
      assert p + (q + t.value) == (p + q) + t.value;
    }
  }

  /** The loop of extractIdentities over the instance ids. */
  function IdentitiesIn(ids: seq<Json>, gameObjects: Json): Try<seq<ArenaCardIdentity>>
    decreases |ids|
  {
    if ids == [] then Ok([])
    else match FindIn(gameObjects, ids[0])
      case Threw => Threw
      case Ok(found) =>
        Prepend(if found.Some? then [IdentityOf(found.value)] else [], IdentitiesIn(ids[1..], gameObjects))
  }

  /** extractIdentities(instanceIds, gsm) */
  function Identities(instanceIds: Option<Json>, gsm: Json): (r: Try<seq<ArenaCardIdentity>>)
    ensures !Truthy(instanceIds) || !Truthy(Member(gsm, "gameObjects")) ==> r == Ok([])
    ensures Truthy(instanceIds) && Truthy(Member(gsm, "gameObjects")) && Iterate(instanceIds.value).None? ==> r == Threw
  {
    var gameObjects := Member(gsm, "gameObjects");
    if !Truthy(instanceIds) || !Truthy(gameObjects) then Ok([])
    else match Iterate(instanceIds.value)
      case None => Threw
      case Some(ids) => IdentitiesIn(ids, gameObjects.value)
  }

  /** What `find` returned for one id, when it did not throw. */
  function Found(t: Try<Option<Json>>): Option<Json> {
    if t.Ok? then t.value else None
  }

  /** The find result for every instance id, in order. */
  function FindResults(ids: seq<Json>, gameObjects: Json): (r: seq<Option<Json>>)
    ensures |r| == |ids|
    ensures forall i :: 0 <= i < |ids| ==> r[i] == Found(FindIn(gameObjects, ids[i]))
    decreases |ids|
  {
    if ids == [] then [] else [Found(FindIn(gameObjects, ids[0]))] + FindResults(ids[1..], gameObjects)
  }

  /** `f` of every present element, in order. */
  function Picks<T, U>(found: seq<Option<T>>, f: T -> U): seq<U>
    decreases |found|
  {
    if found == [] then []
    else (if found[0].Some? then [f(found[0].value)] else []) + Picks(found[1..], f)
  }

  /** `r` is `f` of the present elements at the positions `idx`. */
  ghost predicate PicksAt<T, U>(found: seq<Option<T>>, f: T -> U, r: seq<U>, idx: seq<nat>) {
    && |idx| == |r|
    && forall k :: 0 <= k < |idx| ==> idx[k] < |found| && found[idx[k]].Some? && r[k] == f(found[idx[k]].value)
  }

  ghost predicate Increasing(idx: seq<nat>) {
    forall k :: 0 < k < |idx| ==> idx[k - 1] < idx[k]
  }

  /** Every position not in `idx` is absent. */
  ghost predicate Covers<T>(found: seq<Option<T>>, idx: seq<nat>) {
    forall i :: 0 <= i < |found| && i !in idx ==> found[i].None?
  }

  /**
   * `r` is `f` of the present elements at the increasing positions `idx`,
   * and every position not in `idx` is absent.
   */
  ghost predicate Selects<T, U>(found: seq<Option<T>>, f: T -> U, r: seq<U>, idx: seq<nat>) {
    PicksAt(found, f, r, idx) && Increasing(idx) && Covers(found, idx)
  }

  function Shift(idx: seq<nat>): (r: seq<nat>)
    ensures |r| == |idx| && forall k :: 0 <= k < |idx| ==> r[k] == idx[k] + 1
  {
    seq(|idx|, k requires 0 <= k < |idx| => idx[k] + 1)
  }

  lemma PicksAtCons<T, U>(found: seq<Option<T>>, f: T -> U, r: seq<U>, idx: seq<nat>)
    requires |found| > 0 && PicksAt(found[1..], f, r, idx)
    ensures PicksAt(found, f, r, Shift(idx))
    ensures found[0].Some? ==> PicksAt(found, f, [f(found[0].value)] + r, [0] + Shift(idx))
  {
    var sh := Shift(idx);
    assert forall k :: 0 <= k < |sh| ==> found[sh[k]] == found[1..][idx[k]];
    if found[0].Some? {
      var idx' := [0] + sh;
      var r' := [f(found[0].value)] + r;
      assert forall k :: 0 < k < |idx'| ==> idx'[k] == sh[k - 1] && r'[k] == r[k - 1];
    }
  }

  lemma IncreasingCons(idx: seq<nat>)
    requires Increasing(idx)
    ensures Increasing(Shift(idx)) && Increasing([0] + Shift(idx))
  {
    var idx' := [0] + Shift(idx);
    assert forall k :: 0 < k < |idx'| ==> idx'[k] == Shift(idx)[k - 1];
  }

  lemma CoversCons<T>(found: seq<Option<T>>, idx: seq<nat>)
    requires |found| > 0 && Covers(found[1..], idx)
    ensures found[0].None? ==> Covers(found, Shift(idx))
    ensures Covers(found, [0] + Shift(idx))
  {
    var sh := Shift(idx);
    forall i | 1 <= i < |found| && i !in sh
      ensures found[i].None?
    {
      assert forall k :: 0 <= k < |idx| ==> sh[k] != i;
      assert i - 1 !in idx;
      assert found[i] == found[1..][i - 1];
    }
    forall i | 1 <= i < |found| && i !in [0] + sh
      ensures found[i].None?
    {
      assert i !in sh;
    }
  }

  /** A selection of `found[1..]`, shifted by one, is a selection of `found`. */
  lemma SelectsCons<T, U>(found: seq<Option<T>>, f: T -> U, r: seq<U>, idx: seq<nat>)
    requires |found| > 0 && Selects(found[1..], f, r, idx)
    ensures found[0].None? ==> Selects(found, f, r, Shift(idx))
    ensures found[0].Some? ==> Selects(found, f, [f(found[0].value)] + r, [0] + Shift(idx))
  {
    PicksAtCons(found, f, r, idx);
    IncreasingCons(idx);
    CoversCons(found, idx);
  }

  lemma {:induction false} PicksSelects<T, U>(found: seq<Option<T>>, f: T -> U) returns (idx: seq<nat>)
    ensures Selects(found, f, Picks(found, f), idx)
    decreases |found|
  {
    if found == [] {
      idx := [];
    } else {
      var rest := PicksSelects(found[1..], f);
      SelectsCons(found, f, Picks(found[1..], f), rest);
      if found[0].Some? {
        idx := [0] + Shift(rest);
      } else {
        idx := Shift(rest);
        assert [] + Picks(found[1..], f) == Picks(found[1..], f);
      }
    }
  }

  /** When the loop does not throw, it picks the identity of every object found. */
  lemma {:induction false} IdentitiesInPicks(ids: seq<Json>, gameObjects: Json)
    requires IdentitiesIn(ids, gameObjects).Ok?
    ensures forall i :: 0 <= i < |ids| ==> FindIn(gameObjects, ids[i]).Ok?
    ensures IdentitiesIn(ids, gameObjects).value == Picks(FindResults(ids, gameObjects), IdentityOf)
    decreases |ids|
  {
    if ids != [] {
      IdentitiesInPicks(ids[1..], gameObjects);
      assert FindResults(ids, gameObjects)[1..] == FindResults(ids[1..], gameObjects);
      assert forall i :: 1 <= i < |ids| ==> ids[i] == ids[1..][i - 1];
    }
  }

  /**
   * extractIdentities keeps instance-id order and skips ids without a
   * matching object: the result is `IdentityOf` of the first match of an
   * increasing selection `idx` of the ids, every other id finds nothing,
   * and the result is never longer than the ids.
   */
  lemma IdentitiesInOrder(ids: seq<Json>, gameObjects: Json) returns (idx: seq<nat>)
    requires IdentitiesIn(ids, gameObjects).Ok?
    ensures forall i :: 0 <= i < |ids| ==> FindIn(gameObjects, ids[i]).Ok?
    ensures Selects(FindResults(ids, gameObjects), IdentityOf, IdentitiesIn(ids, gameObjects).value, idx)
    ensures |IdentitiesIn(ids, gameObjects).value| <= |ids|
  {
    IdentitiesInPicks(ids, gameObjects);
    idx := PicksSelects(FindResults(ids, gameObjects), IdentityOf);
    SelectionShorter(FindResults(ids, gameObjects), IdentityOf, IdentitiesIn(ids, gameObjects).value, idx);
  }

  lemma SelectionShorter<T, U>(found: seq<Option<T>>, f: T -> U, r: seq<U>, idx: seq<nat>)
    requires Selects(found, f, r, idx)
    ensures |r| <= |found|
  {
    var s := set k | 0 <= k < |idx| :: idx[k];
    IncreasingCard(idx, |found|);
  }

  /** An increasing sequence of positions below `n` has at most `n` elements. */
  lemma {:induction false} IncreasingCard(idx: seq<nat>, n: nat)
    requires forall k :: 0 <= k < |idx| ==> idx[k] < n
    requires forall k :: 0 < k < |idx| ==> idx[k - 1] < idx[k]
    ensures |idx| <= n
    decreases |idx|
  {
    if |idx| > 0 {
      var init := idx[..|idx| - 1];
      if |init| > 0 {
        IncreasingBelowLast(idx);
      }
      IncreasingCard(init, idx[|idx| - 1]);
    }
  }

  lemma {:induction false} IncreasingBelowLast(idx: seq<nat>)
    requires |idx| > 0
    requires forall k :: 0 < k < |idx| ==> idx[k - 1] < idx[k]
    ensures forall k :: 0 <= k < |idx| - 1 ==> idx[k] < idx[|idx| - 1]
    decreases |idx|
  {
    if |idx| > 1 {
      IncreasingBelowLast(idx[..|idx| - 1]);
    }
  }

  /** `zone.type === 31 || zone.name === 'ZoneType_Hand'` */
  predicate IsHandZone(zone: Json) {
    StrictEquals(Member(zone, "type"), Num(31)) || StrictEquals(Member(zone, "name"), Str("ZoneType_Hand"))
  }

  /** `zone.type === 28 || zone.name === 'ZoneType_Battlefield'` */
  predicate IsBattlefieldZone(zone: Json) {
    StrictEquals(Member(zone, "type"), Num(28)) || StrictEquals(Member(zone, "name"), Str("ZoneType_Battlefield"))
  }

  type Lists = (seq<ArenaCardIdentity>, seq<ArenaCardIdentity>)

  /** The identities of a zone, placed in the hand list or the battlefield list. */
  function Into(t: Try<seq<ArenaCardIdentity>>, hand: bool): Try<Lists> {
    match t
    case Threw => Threw
    case Ok(v) => Ok(if hand then (v, []) else ([], v))
  }

  /**
   * What one zone adds: hand zones (type 31 or name ZoneType_Hand) feed the
   * hand, otherwise battlefield zones (type 28 or ZoneType_Battlefield) feed
   * the battlefield, and every other zone adds nothing.
   */
  function ZoneStep(zone: Json, gsm: Json): (r: Try<Lists>)
    ensures zone == Null ==> r == Threw
    ensures r.Ok? && !IsHandZone(zone) ==> r.value.0 == []
    ensures r.Ok? && (IsHandZone(zone) || !IsBattlefieldZone(zone)) ==> r.value.1 == []
    ensures zone != Null && (IsHandZone(zone) || IsBattlefieldZone(zone)) ==>
              var ids := Identities(Member(zone, "objectInstanceIds"), gsm);
              (r.Ok? <==> ids.Ok?) &&
              (r.Ok? ==> (if IsHandZone(zone) then r.value.0 else r.value.1) == ids.value)
    ensures zone != Null && !IsHandZone(zone) && !IsBattlefieldZone(zone) ==> r.Ok?
  {
    if zone == Null then Threw
    else if IsHandZone(zone) then Into(Identities(Member(zone, "objectInstanceIds"), gsm), true)
    else if IsBattlefieldZone(zone) then Into(Identities(Member(zone, "objectInstanceIds"), gsm), false)
    else Ok(([], []))
  }

  /** Concatenation of two partial results; a throw in either wins. */
  function JoinLists(a: Try<Lists>, b: Try<Lists>): Try<Lists> {
    match a
    case Threw => Threw
    case Ok((h, f)) =>
      match b
      case Threw => Threw
      case Ok((h2, f2)) => Ok((h + h2, f + f2))
  }

  /** The loop of parseGameStateMessage over `gsm.zones`. */
  function ZoneLists(zones: seq<Json>, gsm: Json): Try<Lists>
    decreases |zones|
  {
    if zones == [] then Ok(([], [])) else JoinLists(ZoneStep(zones[0], gsm), ZoneLists(zones[1..], gsm))
  }

  lemma JoinListsAssoc(x: Try<Lists>, y: Try<Lists>, z: Try<Lists>)
    ensures JoinLists(x, JoinLists(y, z)) == JoinLists(JoinLists(x, y), z)
  {
    if x.Ok? && y.Ok? && z.Ok? {
      assert x.value.0 + (y.value.0 + z.value.0) == (x.value.0 + y.value.0) + z.value.0;
      assert x.value.1 + (y.value.1 + z.value.1) == (x.value.1 + y.value.1) + z.value.1;
    }
  }

  /**
   * Zones contribute in order: the lists for `a + b` are those for `a`
   * followed by those for `b`, and a throw anywhere discards both.
   */
  lemma {:induction false} ZoneListsConcat(a: seq<Json>, b: seq<Json>, gsm: Json)
    ensures ZoneLists(a + b, gsm) == JoinLists(ZoneLists(a, gsm), ZoneLists(b, gsm))
    decreases |a|
  {
    if a == [] {
      assert a + b == b;
      var zb := ZoneLists(b, gsm);
      if zb.Ok? {
        assert [] + zb.value.0 == zb.value.0 && [] + zb.value.1 == zb.value.1;
      }
    } else {
      assert (a + b)[0] == a[0];
      assert (a + b)[1..] == a[1..] + b;
      ZoneListsConcat(a[1..], b, gsm);
      JoinListsAssoc(ZoneStep(a[0], gsm), ZoneLists(a[1..], gsm), ZoneLists(b, gsm));
    }
  }

  /** parseGameStateMessage(gsm) */
  function GameStateEvent(gsm: Json): (r: Try<ArenaEvent>)
    ensures r.Ok? ==> r.value.GameStateChanged? && r.value.raw == gsm
    ensures !Truthy(Member(gsm, "zones")) ==> r == Ok(GameStateChanged([], [], gsm))
  {
    var zones := Member(gsm, "zones");
    if !Truthy(zones) then Ok(GameStateChanged([], [], gsm))
    else match Iterate(zones.value)
      case None => Threw
      case Some(zs) =>
        match ZoneLists(zs, gsm)
        case Threw => Threw
        case Ok((h, b)) => Ok(GameStateChanged(h, b, gsm))
  }

  /** The truthy `gameStateMessage` of a message entry, if any. */
  function GameStateOf(msg: Json): Option<Json> {
    var g := Member(msg, "gameStateMessage");
    if Truthy(g) then g else None
  }

  /** The loop of parseGreMessage over the message list. */
  function MessageEvents(ms: seq<Json>): (r: Try<seq<ArenaEvent>>)
    ensures r.Ok? ==> forall k :: 0 <= k < |r.value| ==> r.value[k].GameStateChanged?
    decreases |ms|
  {
    if ms == [] then Ok([])
    else if ms[0] == Null then Threw
    else match GameStateOf(ms[0])
      case None => MessageEvents(ms[1..])
      case Some(g) =>
        match GameStateEvent(g)
        case Threw => Threw
        case Ok(e) => Prepend([e], MessageEvents(ms[1..]))
  }

  /** `json?.greToClientEvent?.greToClientMessages` */
  function Messages(json: Json): Option<Json> {
    var ev := Member(json, "greToClientEvent");
    if ev.None? then None else Member(ev.value, "greToClientMessages")
  }

  /** parseGreMessage(json) */
  function GreEvents(json: Json): (r: Try<seq<ArenaEvent>>)
    ensures !(Messages(json).Some? && Messages(json).value.Arr?) ==> r == Ok([])
    ensures r.Ok? ==> forall k :: 0 <= k < |r.value| ==> r.value[k].GameStateChanged?
  {
    match Messages(json)
    case Some(Arr(ms)) => MessageEvents(ms)
    case _ => Ok([])
  }

  /** The game-state messages that parseGreMessage turns into events, in order. */
  function GameStates(ms: seq<Json>): seq<Json>
    decreases |ms|
  {
    if ms == [] then []
    else (if GameStateOf(ms[0]).Some? then [GameStateOf(ms[0]).value] else []) + GameStates(ms[1..])
  }

  /**
   * parseGreMessage emits exactly one GameStateChanged per entry with a
   * truthy gameStateMessage, in order, each built from that message.
   */
  lemma {:induction false} MessageEventsOnePerGameState(ms: seq<Json>)
    requires MessageEvents(ms).Ok?
    ensures |MessageEvents(ms).value| == |GameStates(ms)|
    ensures forall k :: 0 <= k < |GameStates(ms)| ==>
              GameStateEvent(GameStates(ms)[k]) == Ok(MessageEvents(ms).value[k])
    decreases |ms|
  {
    if ms != [] {
      MessageEventsOnePerGameState(ms[1..]);
    }
  }

  /**
   * The walk throws exactly when some entry is null or some truthy
   * game-state message throws; then the events of earlier entries are lost.
   */
  lemma {:induction false} MessageEventsThrowIff(ms: seq<Json>)
    ensures MessageEvents(ms) == Threw <==>
              exists k :: 0 <= k < |ms| &&
                (ms[k] == Null || (GameStateOf(ms[k]).Some? && GameStateEvent(GameStateOf(ms[k]).value) == Threw))
    decreases |ms|
  {
    if ms != [] {
      MessageEventsThrowIff(ms[1..]);
      assert forall k :: 1 <= k < |ms| ==> ms[k] == ms[1..][k - 1];
      if MessageEvents(ms[1..]) == Threw {
        var k :| 0 <= k < |ms[1..]| &&
          (ms[1..][k] == Null || (GameStateOf(ms[1..][k]).Some? && GameStateEvent(GameStateOf(ms[1..][k]).value) == Threw));
        assert ms[k + 1] == ms[1..][k];
      }
    }
  }

  // ---------------------------------------------------------------------
  // parseLine
  // ---------------------------------------------------------------------

  /**
   * parseLine(line), with JSON.parse given as `parse` (`None` when it
   * throws). The GRE marker is tested first; every exception yields [].
   */
  function LineEvents(parse: string -> Option<Json>, line: string): (r: seq<ArenaEvent>)
    ensures !Contains(line, GreMarker) && !Contains(line, SceneMarker) ==> r == []
    ensures !Contains(line, GreMarker) && Contains(line, SceneMarker) ==>
              r == if Contains(line, MatchWord) then [MatchStarted(line)] else []
    ensures Contains(line, GreMarker) ==> forall k :: 0 <= k < |r| ==> r[k].GameStateChanged?
    ensures Contains(line, GreMarker) && (Payload(line).None? || parse(Payload(line).value).None?) ==> r == []
    ensures (Contains(line, GreMarker) && Payload(line).Some? && parse(Payload(line).value).Some? &&
             GreEvents(parse(Payload(line).value).value) == Threw) ==> r == []
    ensures forall k :: 0 <= k < |r| ==> !r[k].Unknown?
  {
    if Contains(line, GreMarker) then
      match Payload(line)
      case None => []
      case Some(text) =>
        match parse(text)
        case None => []
        case Some(json) =>
          match GreEvents(json)
          case Threw => []
          case Ok(evs) => evs
    else if Contains(line, SceneMarker) then
      if Contains(line, MatchWord) then [MatchStarted(line)] else []
    else []
  }

  // ---------------------------------------------------------------------
  // The source's loops
  // ---------------------------------------------------------------------

  /** extractIdentities: builds `identities` by push, one instance id at a time. */
  method ExtractIdentities(instanceIds: Option<Json>, gsm: Json) returns (r: Try<seq<ArenaCardIdentity>>)
    ensures r == Identities(instanceIds, gsm)
  {
    var gameObjects := Member(gsm, "gameObjects");
    if !Truthy(instanceIds) || !Truthy(gameObjects) {
      return Ok([]);
    }
    var iter := Iterate(instanceIds.value);
    if iter.None? {
      return Threw;
    }
    var ids := iter.value;
    var identities: seq<ArenaCardIdentity> := [];
    var i := 0;
    PrependNil(IdentitiesIn(ids, gameObjects.value));
    while i < |ids|
      invariant 0 <= i <= |ids|
      invariant IdentitiesIn(ids, gameObjects.value) == Prepend(identities, IdentitiesIn(ids[i..], gameObjects.value))
    {
      assert ids[i..][1..] == ids[i + 1..];
      var obj := FindIn(gameObjects.value, ids[i]);
      if obj.Threw? {
        return Threw;
      }
      var found := if obj.value.Some? then [IdentityOf(obj.value.value)] else [];
      PrependPrepend(identities, found, IdentitiesIn(ids[i + 1..], gameObjects.value));
      identities := identities + found;
      i := i + 1;
    }
    assert ids[i..] == [];
    assert identities + [] == identities;
    return Ok(identities);
  }

  /** One pass of the zone loop of parseGameStateMessage. */
  method ParseZone(zone: Json, gsm: Json) returns (r: Try<Lists>)
    ensures r == ZoneStep(zone, gsm)
  {
    if zone == Null {
      return Threw;
    }
    if IsHandZone(zone) {
      var ids := ExtractIdentities(Member(zone, "objectInstanceIds"), gsm);
      if ids.Threw? {
        return Threw;
      }
      return Ok((ids.value, []));
    } else if IsBattlefieldZone(zone) {
      var ids := ExtractIdentities(Member(zone, "objectInstanceIds"), gsm);
      if ids.Threw? {
        return Threw;
      }
      return Ok(([], ids.value));
    }
    return Ok(([], []));
  }

  lemma JoinListsUnit(t: Try<Lists>, hand: seq<ArenaCardIdentity>, battlefield: seq<ArenaCardIdentity>)
    ensures JoinLists(Ok(([], [])), t) == t
    ensures JoinLists(Ok((hand, battlefield)), Ok(([], []))) == Ok((hand, battlefield))
  {
    if t.Ok? {
      assert [] + t.value.0 == t.value.0 && [] + t.value.1 == t.value.1;
    }
    assert hand + [] == hand && battlefield + [] == battlefield;
  }

  /** One step of the zone loop, from position `i`. */
  lemma ZoneListsAt(zs: seq<Json>, i: nat, gsm: Json)
    requires i < |zs|
    ensures ZoneLists(zs[i..], gsm) == JoinLists(ZoneStep(zs[i], gsm), ZoneLists(zs[i + 1..], gsm))
  {
    assert zs[i..][1..] == zs[i + 1..];
  }

  /** The loop of parseGameStateMessage over the zones. */
  method ParseZones(zs: seq<Json>, gsm: Json) returns (r: Try<Lists>)
    ensures r == ZoneLists(zs, gsm)
  {
    var hand: seq<ArenaCardIdentity> := [];
    var battlefield: seq<ArenaCardIdentity> := [];
    var i := 0;
    assert zs[0..] == zs;
    JoinListsUnit(ZoneLists(zs, gsm), [], []);
    while i < |zs|
      invariant 0 <= i <= |zs|
      invariant ZoneLists(zs, gsm) == JoinLists(Ok((hand, battlefield)), ZoneLists(zs[i..], gsm))
    {
      ZoneListsAt(zs, i, gsm);
      var step := ParseZone(zs[i], gsm);
      JoinListsAssoc(Ok((hand, battlefield)), step, ZoneLists(zs[i + 1..], gsm));
      if step.Threw? {
        return Threw;
      }
      hand := hand + step.value.0;
      battlefield := battlefield + step.value.1;
      i := i + 1;
    }
    assert zs[i..] == [];
    JoinListsUnit(Ok(([], [])), hand, battlefield);
    return Ok((hand, battlefield));
  }

  method ParseGameStateMessage(gsm: Json) returns (r: Try<ArenaEvent>)
    ensures r == GameStateEvent(gsm)
  {
    var hand: seq<ArenaCardIdentity> := [];
    var battlefield: seq<ArenaCardIdentity> := [];
    var zones := Member(gsm, "zones");
    if Truthy(zones) {
      var iter := Iterate(zones.value);
      if iter.None? {
        return Threw;
      }
      var lists := ParseZones(iter.value, gsm);
      if lists.Threw? {
        return Threw;
      }
      hand, battlefield := lists.value.0, lists.value.1;
    }
    return Ok(GameStateChanged(hand, battlefield, gsm));
  }

  /** parseGreMessage: one event per message with a truthy gameStateMessage. */
  method ParseGreMessage(json: Json) returns (r: Try<seq<ArenaEvent>>)
    ensures r == GreEvents(json)
  {
    var events: seq<ArenaEvent> := [];
    var messages := Messages(json);
    if messages.Some? && messages.value.Arr? {
      var ms := messages.value.items;
      assert ms[0..] == ms;
      PrependNil(MessageEvents(ms));
      for i := 0 to |ms|
        invariant MessageEvents(ms) == Prepend(events, MessageEvents(ms[i..]))
      {
        assert ms[i..][1..] == ms[i + 1..];
        var msg := ms[i];
        if msg == Null {
          return Threw;
        }
        var g := Member(msg, "gameStateMessage");
        if Truthy(g) {
          var e := ParseGameStateMessage(g.value);
          if e.Threw? {
            return Threw;
          }
          PrependPrepend(events, [e.value], MessageEvents(ms[i + 1..]));
          events := events + [e.value];
        }
      }
      assert ms[|ms|..] == [];
      assert events + [] == events;
    }
    return Ok(events);
  }

  /** parseLine: the try/catch turns any exception into no events. */
  method ParseLine(parse: string -> Option<Json>, line: string) returns (events: seq<ArenaEvent>)
    ensures events == LineEvents(parse, line)
  {
    events := [];
    if Contains(line, GreMarker) {
      var text := Payload(line);
      if text.Some? {
        var json := parse(text.value);
        if json.Some? {
          var gre := ParseGreMessage(json.value);
          if gre.Ok? {
            events := events + gre.value;
          }
        }
      }
    } else if Contains(line, SceneMarker) {
      if Contains(line, MatchWord) {
        events := events + [MatchStarted(line)];
      }
    }
  }
}
