/**
 * The shared shapes of the overlay (packages/shared/src/types.ts): a partial
 * card reference as seen in the game log, the deterministic key derived from
 * it, the events the parser emits, and the card records downstream.
 */
module Types {
  import opened Wrappers
  import opened Json

  /** A raw card reference; every field may be absent (`undefined`). */
  datatype ArenaCardIdentity = ArenaCardIdentity(
    mtgaId: Option<int>,
    grpId: Option<int>,
    name: Option<string>,
    setCode: Option<string>)

  type IdentityKey = string

  /** A number field is truthy when present and non-zero. */
  predicate TruthyNumber(v: Option<int>) {
    v.Some? && v.value != 0
  }

  /** A string field is truthy when present and non-empty. */
  predicate TruthyString(v: Option<string>) {
    v.Some? && v.value != ""
  }

  predicate StartsWith(s: string, prefix: string) {
    |prefix| <= |s| && s[..|prefix|] == prefix
  }

  // ---------------------------------------------------------------------
  // Decimal rendering of integral numbers, as a template literal `${n}` does
  // ---------------------------------------------------------------------

  function DigitChar(d: nat): (c: char)
    requires d < 10
    ensures '0' <= c <= '9' && c as int - '0' as int == d
  {
    (d + '0' as int) as char
  }

  function NatToString(n: nat): (s: string)
    ensures |s| >= 1
    ensures forall i :: 0 <= i < |s| ==> '0' <= s[i] <= '9'
    decreases n
  {
    if n < 10 then [DigitChar(n)] else NatToString(n / 10) + [DigitChar(n % 10)]
  }

  function NumberToString(n: int): (s: string)
    ensures |s| >= 1
    ensures s[0] == '-' <==> n < 0
  {
    if n < 0 then "-" + NatToString(-n) else NatToString(n)
  }

  /** Different naturals render differently. */
  lemma {:induction false} NatToStringInjective(a: nat, b: nat)
    requires NatToString(a) == NatToString(b)
    ensures a == b
    decreases a
  {
    if a < 10 && b < 10 {
      assert DigitChar(a) == NatToString(a)[0] == NatToString(b)[0] == DigitChar(b);
    } else if a >= 10 && b >= 10 {
      var sa, sb := NatToString(a / 10), NatToString(b / 10);
      assert NatToString(a) == sa + [DigitChar(a % 10)];
      assert NatToString(b) == sb + [DigitChar(b % 10)];
      assert |sa| == |sb|;
      assert DigitChar(a % 10) == NatToString(a)[|sa|] == NatToString(b)[|sb|] == DigitChar(b % 10);
      assert sa == NatToString(a)[..|sa|] == NatToString(b)[..|sb|] == sb;
      NatToStringInjective(a / 10, b / 10);
    }
  }

  /** Different integers render differently. */
  lemma NumberToStringInjective(a: int, b: int)
    requires NumberToString(a) == NumberToString(b)
    ensures a == b
  {
    if a < 0 {
      assert NumberToString(a)[1..] == NatToString(-a);
      assert NumberToString(b)[1..] == NatToString(-b);
      NatToStringInjective(-a, -b);
    } else {
      NatToStringInjective(a, b);
    }
  }

  // ---------------------------------------------------------------------
  // JSON.stringify of an identity (used only by the `unknown:` key)
  // ---------------------------------------------------------------------

  function HexDigit(d: nat): char
    requires d < 16
  {
    "0123456789abcdef"[d]
  }

  /** How JSON.stringify writes one character inside a string literal. */
  function EscapeChar(c: char): string {
    if c == '"' then "\\\""
    else if c == '\\' then "\\\\"
    else if c as int == 8 then "\\b"
    else if c as int == 12 then "\\f"
    else if c == '\n' then "\\n"
    else if c == '\r' then "\\r"
    else if c == '\t' then "\\t"
    else if c as int < 0x20 then "\\u00" + [HexDigit(c as int / 16), HexDigit(c as int % 16)]
    else [c]
  }

  function EscapeString(s: string): string
    decreases |s|
  {
    if s == [] then "" else EscapeChar(s[0]) + EscapeString(s[1..])
  }

  function Quote(s: string): string {
    "\"" + EscapeString(s) + "\""
  }

  function JoinComma(parts: seq<string>): string
    decreases |parts|
  {
    if parts == [] then ""
    else if |parts| == 1 then parts[0]
    else parts[0] + "," + JoinComma(parts[1..])
  }

  /**
   * `JSON.stringify(id)`: the properties that are not `undefined`, in the
   * order they are created (mtgaId, grpId, name, set).
   */
  function StringifyIdentity(id: ArenaCardIdentity): string {
    var parts :=
      (if id.mtgaId.Some? then ["\"mtgaId\":" + NumberToString(id.mtgaId.value)] else []) +
      (if id.grpId.Some? then ["\"grpId\":" + NumberToString(id.grpId.value)] else []) +
      (if id.name.Some? then ["\"name\":" + Quote(id.name.value)] else []) +
      (if id.setCode.Some? then ["\"set\":" + Quote(id.setCode.value)] else []);
    "{" + JoinComma(parts) + "}"
  }

  // ---------------------------------------------------------------------
  // identityKey
  // ---------------------------------------------------------------------

  /** Which rung of the priority cascade decides an identity's key. */
  datatype KeyKind = MtgaKey | GrpKey | NameKey | UnknownKey

  function KindOf(id: ArenaCardIdentity): KeyKind {
    if TruthyNumber(id.mtgaId) then MtgaKey
    else if TruthyNumber(id.grpId) then GrpKey
    else if TruthyString(id.name) then NameKey
    else UnknownKey
  }

  /** `set || ''` */
  function SetOrEmpty(id: ArenaCardIdentity): string {
    if TruthyString(id.setCode) then id.setCode.value else ""
  }

  /** identityKey: the first truthy rung of mtgaId, grpId, name wins. */
  function IdentityKeyOf(id: ArenaCardIdentity): (k: IdentityKey)
    ensures KindOf(id) == MtgaKey ==> k == "mtga:" + NumberToString(id.mtgaId.value)
    ensures KindOf(id) == GrpKey ==> k == "grp:" + NumberToString(id.grpId.value)
    ensures KindOf(id) == NameKey ==> k == "name:" + id.name.value + "|" + SetOrEmpty(id)
    ensures KindOf(id) == UnknownKey ==> StartsWith(k, "unknown:")
  {
    if TruthyNumber(id.mtgaId) then "mtga:" + NumberToString(id.mtgaId.value)
    else if TruthyNumber(id.grpId) then "grp:" + NumberToString(id.grpId.value)
    else if TruthyString(id.name) then "name:" + id.name.value + "|" + (if TruthyString(id.setCode) then id.setCode.value else "")
    else "unknown:" + StringifyIdentity(id)
  }

  /** The first character of a key names its rung; the four prefixes differ there. */
  function KindOfKey(k: IdentityKey): Option<KeyKind> {
    if |k| == 0 then None
    else if k[0] == 'm' then Some(MtgaKey)
    else if k[0] == 'g' then Some(GrpKey)
    else if k[0] == 'n' then Some(NameKey)
    else if k[0] == 'u' then Some(UnknownKey)
    else None
  }

  /** A key tells which rung produced it, so keys of different rungs never collide. */
  lemma KeyRevealsKind(id: ArenaCardIdentity)
    ensures KindOfKey(IdentityKeyOf(id)) == Some(KindOf(id))
  {
    var k := IdentityKeyOf(id);
    if KindOf(id) == UnknownKey {
      assert k[..8] == "unknown:";
      assert k[0] == k[..8][0];
    }
  }

  lemma KeysOfDifferentKindsDiffer(a: ArenaCardIdentity, b: ArenaCardIdentity)
    requires KindOf(a) != KindOf(b)
    ensures IdentityKeyOf(a) != IdentityKeyOf(b)
  {
    KeyRevealsKind(a);
    KeyRevealsKind(b);
  }

  /**
   * Two identities share an `mtga:` key exactly when their non-zero
   * mtgaIds agree (whatever their other fields hold).
   */
  lemma MtgaKeyIffSameMtgaId(a: ArenaCardIdentity, b: ArenaCardIdentity)
    requires KindOf(a) == MtgaKey
    ensures IdentityKeyOf(a) == IdentityKeyOf(b) <==> KindOf(b) == MtgaKey && a.mtgaId == b.mtgaId
  {
    if IdentityKeyOf(a) == IdentityKeyOf(b) {
      KeyRevealsKind(a);
      KeyRevealsKind(b);
      var p := "mtga:";
      assert IdentityKeyOf(a)[|p|..] == NumberToString(a.mtgaId.value);
      assert IdentityKeyOf(b)[|p|..] == NumberToString(b.mtgaId.value);
      NumberToStringInjective(a.mtgaId.value, b.mtgaId.value);
    }
  }

  /** Two identities share a `grp:` key exactly when their non-zero grpIds agree. */
  lemma GrpKeyIffSameGrpId(a: ArenaCardIdentity, b: ArenaCardIdentity)
    requires KindOf(a) == GrpKey
    ensures IdentityKeyOf(a) == IdentityKeyOf(b) <==> KindOf(b) == GrpKey && a.grpId == b.grpId
  {
    if IdentityKeyOf(a) == IdentityKeyOf(b) {
      KeyRevealsKind(a);
      KeyRevealsKind(b);
      var p := "grp:";
      assert IdentityKeyOf(a)[|p|..] == NumberToString(a.grpId.value);
      assert IdentityKeyOf(b)[|p|..] == NumberToString(b.grpId.value);
      NumberToStringInjective(a.grpId.value, b.grpId.value);
    }
  }

  lemma BarAfter(n: string, s: string)
    ensures (n + "|" + s)[|n|] == '|'
    ensures forall i :: 0 <= i < |n| ==> (n + "|" + s)[i] == n[i]
  {
  }

  /** Splitting `n + "|" + s` at its first bar recovers `n` when `n` has no bar. */
  lemma SplitAtBar(n1: string, s1: string, n2: string, s2: string)
    requires '|' !in n1 && '|' !in n2
    requires n1 + "|" + s1 == n2 + "|" + s2
    ensures n1 == n2 && s1 == s2
  {
    var t1, t2 := n1 + "|" + s1, n2 + "|" + s2;
    BarAfter(n1, s1);
    BarAfter(n2, s2);
    if |n1| < |n2| {
      assert false;
    } else if |n2| < |n1| {
      assert false;
    } else {
      assert n1 == t1[..|n1|] == t2[..|n2|] == n2;
      assert s1 == t1[|n1| + 1..] == t2[|n2| + 1..] == s2;
    }
  }

  /**
   * Name keys: for names without a bar, two identities share a `name:` key
   * exactly when their names and their `set || ''` agree. (A bar inside a
   * name can make different name/set pairs collide; see NameWithBarCollides.)
   */
  lemma NameKeyIffSameNameAndSet(a: ArenaCardIdentity, b: ArenaCardIdentity)
    requires KindOf(a) == NameKey
    requires '|' !in a.name.value
    requires b.name.Some? ==> '|' !in b.name.value
    ensures IdentityKeyOf(a) == IdentityKeyOf(b) <==>
              KindOf(b) == NameKey && a.name == b.name && SetOrEmpty(a) == SetOrEmpty(b)
  {
    if IdentityKeyOf(a) == IdentityKeyOf(b) {
      KeyRevealsKind(a);
      KeyRevealsKind(b);
      var p := "name:";
      var ta := a.name.value + "|" + SetOrEmpty(a);
      var tb := b.name.value + "|" + SetOrEmpty(b);
      assert IdentityKeyOf(a) == p + ta;
      assert IdentityKeyOf(b) == p + tb;
      assert ta == IdentityKeyOf(a)[|p|..] == IdentityKeyOf(b)[|p|..] == tb;
      SplitAtBar(a.name.value, SetOrEmpty(a), b.name.value, SetOrEmpty(b));
    }
  }

  /** The name rung does not separate a bar in the name from a bar in the set. */
  lemma NameWithBarCollides()
    ensures var a := ArenaCardIdentity(None, None, Some("a|b"), None);
            var b := ArenaCardIdentity(None, None, Some("a"), Some("b|"));
            a.name != b.name && IdentityKeyOf(a) == IdentityKeyOf(b)
  {
  }

  // ---------------------------------------------------------------------
  // Events and card records
  // ---------------------------------------------------------------------

  /** ArenaEvent. `raw` keeps the game-state message or the log line. */
  datatype ArenaEvent =
    | GameStateChanged(hand: seq<ArenaCardIdentity>, battlefield: seq<ArenaCardIdentity>, raw: Json)
    | MatchStarted(line: string)
    | Unknown(unparsed: string)

  /**
   * A resolved card: the fields CardSchema declares in
   * packages/shared/src/schemas.ts and ScryfallClient.transform fills.
   * `oracleId` is optional because the response may lack `oracle_id`.
   */
  datatype Card = Card(
    id: string,
    mtgaId: int,
    name: string,
    setCode: string,
    collectorNumber: string,
    imageUri: string,
    oracleId: Option<string>)

  /** CardMetadata, without the statistics annotation. */
  datatype CardMetadata = CardMetadata(
    name: string,
    scryfallId: Option<string>,
    oracleId: Option<string>,
    imageUri: Option<string>,
    printUris: Option<seq<string>>)
}
