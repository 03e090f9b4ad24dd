/**
 * GameOrchestrator (packages/core/src/orchestrator.ts): turns parsed log
 * events into store calls and card resolutions. The store and the
 * Scryfall client are modelled by the calls the orchestrator makes on
 * them, recorded in one ordered log; the throttle timer is a flag; the
 * completion of an asynchronous lookup is a separate step whose result is
 * supplied by the environment.
 */
module Orchestrator {
  import opened Wrappers
  import opened Json
  import opened Types
  import opened Parser
  import Scryfall
  import ParserScenarios

  // ---------------------------------------------------------------------
  // Calls on the collaborators
  // ---------------------------------------------------------------------

  /** The Scryfall lookup resolveCard starts. */
  datatype Lookup = ByMtgaId(mtgaId: int) | ByName(name: string)

  datatype Call =
    | StoreReset
    | StoreUpdateZones(hand: seq<IdentityKey>, battlefield: seq<IdentityKey>)
    | StoreTouch
    | StoreUpsert(key: IdentityKey, metadata: CardMetadata)
    | CardResolution(key: IdentityKey, id: ArenaCardIdentity)
    | RequestLookup(lookup: Lookup)

  /** The orchestrator's state: the dedup set, the timer flag and the calls made so far. */
  datatype Orch = Orch(resolved: set<IdentityKey>, timerPending: bool, log: seq<Call>)

  const Start: Orch := Orch({}, false, [])

  // ---------------------------------------------------------------------
  // resolveCard
  // ---------------------------------------------------------------------

  /** resolveCard's choice: by mtgaId when truthy, else by name when truthy, else nothing. */
  function LookupFor(id: ArenaCardIdentity): (r: Option<Lookup>)
    ensures TruthyNumber(id.mtgaId) ==> r == Some(ByMtgaId(id.mtgaId.value))
    ensures !TruthyNumber(id.mtgaId) && TruthyString(id.name) ==> r == Some(ByName(id.name.value))
    ensures r.None? <==> !TruthyNumber(id.mtgaId) && !TruthyString(id.name)
  {
    if id.mtgaId.Some? && id.mtgaId.value != 0 then Some(ByMtgaId(id.mtgaId.value))
    else if id.name.Some? && id.name.value != "" then Some(ByName(id.name.value))
    else None
  }

  /** A lookup by mtgaId is chosen exactly for identities keyed by mtgaId. */
  lemma LookupFollowsKeyKind(id: ArenaCardIdentity)
    ensures (LookupFor(id).Some? && LookupFor(id).value.ByMtgaId?) <==> KindOf(id) == MtgaKey
    ensures KindOf(id) == NameKey ==> LookupFor(id) == Some(ByName(id.name.value))
    ensures KindOf(id) == UnknownKey ==> LookupFor(id).None?
  {
  }

  /**
   * An identity the parser builds from an object without a truthy numeric
   * cardTitleId has neither mtgaId nor name, so no lookup is started for
   * it, even when its grpId keys it.
   */
  lemma UntitledObjectNeverLookedUp(obj: Json)
    requires !(Truthy(Member(obj, "cardTitleId")) && Member(obj, "cardTitleId").value.Num?)
    ensures LookupFor(IdentityOf(obj)).None?
  {
  }

  function LookupCalls(id: ArenaCardIdentity): seq<Call> {
    if LookupFor(id).Some? then [RequestLookup(LookupFor(id).value)] else []
  }

  /** The synchronous part of resolveCard: it starts and requests the lookup. */
  function StartResolution(o: Orch, key: IdentityKey, id: ArenaCardIdentity): (r: Orch)
    ensures r.resolved == o.resolved && r.timerPending == o.timerPending
    ensures r.log == o.log + [CardResolution(key, id)] + LookupCalls(id)
  {
    o.(log := o.log + [CardResolution(key, id)] + LookupCalls(id))
  }

  /**
   * The metadata resolveCard upserts, as written: it reads
   * `cardData.scryfallId`, a field the Card built by transform does not
   * have, so the stored Scryfall id is always undefined.
   */
  function MetadataAsWritten(c: Card): (m: CardMetadata)
    ensures m.name == c.name && m.oracleId == c.oracleId && m.imageUri == Some(c.imageUri)
  {
    CardMetadata(name := c.name, scryfallId := None, oracleId := c.oracleId, imageUri := Some(c.imageUri), printUris := None)
  }

  /** As written, no upserted card ever carries its Scryfall id. */
  lemma AsWrittenMetadataLosesScryfallId(d: Scryfall.ScryfallCard)
    ensures MetadataAsWritten(Scryfall.Transform(d)).scryfallId.None?
  {
  }

  /** The metadata evidently intended, with the Scryfall id taken from the card's `id`. */
  function Metadata(c: Card): (m: CardMetadata)
    ensures m.name == c.name && m.oracleId == c.oracleId && m.imageUri == Some(c.imageUri)
    ensures m.scryfallId == Some(c.id)
  {
    CardMetadata(name := c.name, scryfallId := Some(c.id), oracleId := c.oracleId, imageUri := Some(c.imageUri), printUris := None)
  }

  /** The upserted metadata names the Scryfall card the response described. */
  lemma MetadataKeepsScryfallId(d: Scryfall.ScryfallCard)
    ensures Metadata(Scryfall.Transform(d)).scryfallId == Some(d.id)
    ensures Metadata(Scryfall.Transform(d)).name == d.name
  {
  }

  /**
   * The rest of resolveCard after the lookup settles: a found card is
   * upserted with the metadata as written, then the store is touched.
   */
  function Completed(o: Orch, key: IdentityKey, card: Option<Card>): (r: Orch)
    ensures card.None? ==> r == o
    ensures card.Some? ==> r.resolved == o.resolved && r.timerPending == o.timerPending &&
                           r.log == o.log + [StoreUpsert(key, MetadataAsWritten(card.value)), StoreTouch]
  {
    if card.Some? then o.(log := o.log + [StoreUpsert(key, MetadataAsWritten(card.value)), StoreTouch]) else o
  }

  /** As written, the upsert that completes a lookup never carries the Scryfall id of the card found. */
  lemma CompletionLosesScryfallId(o: Orch, key: IdentityKey, d: Scryfall.ScryfallCard)
    ensures var r := Completed(o, key, Some(Scryfall.Transform(d)));
            |r.log| == |o.log| + 2 && r.log[|o.log|].StoreUpsert? && r.log[|o.log|].key == key &&
            r.log[|o.log|].metadata.name == d.name && r.log[|o.log|].metadata.scryfallId.None?
  {
    AsWrittenMetadataLosesScryfallId(d);
  }

  // ---------------------------------------------------------------------
  // resolveIdentities
  // ---------------------------------------------------------------------

  /** `f` applied to each element, in order. */
  function MapSeq<T, U>(f: T -> U, s: seq<T>): seq<U>
    decreases |s|
  {
    if s == [] then [] else MapSeq(f, s[..|s| - 1]) + [f(s[|s| - 1])]
  }

  lemma {:induction false} MapSeqPointwise<T, U>(f: T -> U, s: seq<T>)
    ensures |MapSeq(f, s)| == |s| && forall i :: 0 <= i < |s| ==> MapSeq(f, s)[i] == f(s[i])
    decreases |s|
  {
    if s != [] {
      MapSeqPointwise(f, s[..|s| - 1]);
    }
  }

  /** The keys of a list of identities, in order. */
  function Keys(ids: seq<ArenaCardIdentity>): seq<IdentityKey> {
    MapSeq(IdentityKeyOf, ids)
  }

  /** The keys have the length and order of the identities, each the identity's key. */
  lemma KeysPointwise(ids: seq<ArenaCardIdentity>)
    ensures |Keys(ids)| == |ids| && forall i :: 0 <= i < |ids| ==> Keys(ids)[i] == IdentityKeyOf(ids[i])
  {
    MapSeqPointwise(IdentityKeyOf, ids);
  }

  /** One pass of resolveIdentities' loop: a key not yet in the set is added, then resolved. */
  function ResolveOne(o: Orch, id: ArenaCardIdentity): (r: Orch)
    ensures r.resolved == o.resolved + {IdentityKeyOf(id)} && r.timerPending == o.timerPending
  {
    var key := IdentityKeyOf(id);
    if key in o.resolved then o else StartResolution(o.(resolved := o.resolved + {key}), key, id)
  }

  /**
   * resolveIdentities(ids): the state after the loop and the returned
   * keys. The keys are the identities' keys in order, each is in the set
   * afterwards, and nothing is removed from the set.
   */
  function ResolveAll(o: Orch, ids: seq<ArenaCardIdentity>): (r: (Orch, seq<IdentityKey>))
    ensures r.1 == Keys(ids)
    ensures forall k :: k in Keys(ids) ==> k in r.0.resolved
    ensures o.resolved <= r.0.resolved && r.0.timerPending == o.timerPending
    decreases |ids|
  {
    if ids == [] then (o, [])
    else
      var init := ids[..|ids| - 1];
      var p := ResolveAll(o, init);
      var last := ids[|ids| - 1];
      (ResolveOne(p.0, last), p.1 + [IdentityKeyOf(last)])
  }

  // ---------------------------------------------------------------------
  // The dedup invariant
  // ---------------------------------------------------------------------

  /** The keys resolveCard was started for since the last store reset, in order. */
  function ResolvedSince(log: seq<Call>): seq<IdentityKey>
    decreases |log|
  {
    if log == [] then []
    else
      var init := ResolvedSince(log[..|log| - 1]);
      match log[|log| - 1]
      case StoreReset => []
      case CardResolution(k, _) => init + [k]
      case _ => init
  }

  predicate Distinct<T(==)>(s: seq<T>) {
    forall i, j :: 0 <= i < j < |s| ==> s[i] != s[j]
  }

  /**
   * The dedup set holds exactly the keys resolved since the last reset,
   * and each of them was resolved once: resolveCard runs at most once per
   * key between two clears of the set.
   */
  ghost predicate Dedup(o: Orch) {
    && (forall k :: k in o.resolved <==> k in ResolvedSince(o.log))
    && Distinct(ResolvedSince(o.log))
  }

  lemma ResolvedSinceAppend(log: seq<Call>, c: Call)
    ensures c.StoreReset? ==> ResolvedSince(log + [c]) == []
    ensures c.CardResolution? ==> ResolvedSince(log + [c]) == ResolvedSince(log) + [c.key]
    ensures !c.StoreReset? && !c.CardResolution? ==> ResolvedSince(log + [c]) == ResolvedSince(log)
  {
    assert (log + [c])[..|log|] == log;
  }

  lemma ResolvedSinceLookups(log: seq<Call>, id: ArenaCardIdentity)
    ensures ResolvedSince(log + LookupCalls(id)) == ResolvedSince(log)
  {
    if LookupFor(id).Some? {
      ResolvedSinceAppend(log, RequestLookup(LookupFor(id).value));
    } else {
      assert log + LookupCalls(id) == log;
    }
  }

  lemma DedupResolveOne(o: Orch, id: ArenaCardIdentity)
    requires Dedup(o)
    ensures Dedup(ResolveOne(o, id))
  {
    var key := IdentityKeyOf(id);
    if key !in o.resolved {
      ResolvedSinceAppend(o.log, CardResolution(key, id));
      ResolvedSinceLookups(o.log + [CardResolution(key, id)], id);
      var s := ResolvedSince(o.log);
      assert ResolvedSince(ResolveOne(o, id).log) == s + [key];
      assert key !in s;
    }
  }

  /**
   * resolveIdentities keeps the invariant, and afterwards every key of the
   * list has had exactly one resolveCard since the last reset, duplicates
   * within the list included.
   */
  lemma {:induction false} DedupResolveAll(o: Orch, ids: seq<ArenaCardIdentity>)
    requires Dedup(o)
    ensures Dedup(ResolveAll(o, ids).0)
    ensures forall k :: k in Keys(ids) ==> k in ResolvedSince(ResolveAll(o, ids).0.log)
    decreases |ids|
  {
    if ids != [] {
      var init := ids[..|ids| - 1];
      DedupResolveAll(o, init);
      DedupResolveOne(ResolveAll(o, init).0, ids[|ids| - 1]);
    }
  }

  // ---------------------------------------------------------------------
  // processLine
  // ---------------------------------------------------------------------

  /** One pass of processLine's event loop. */
  function ApplyEvent(o: Orch, e: ArenaEvent): Orch {
    match e
    case MatchStarted(_) => o.(log := o.log + [StoreReset], resolved := {})
    case GameStateChanged(hand, battlefield, _) =>
      var h := ResolveAll(o, hand);
      var b := ResolveAll(h.0, battlefield);
      b.0.(log := b.0.log + [StoreUpdateZones(h.1, b.1)])
    case Unknown(_) => o
  }

  function ApplyEvents(o: Orch, es: seq<ArenaEvent>): Orch
    decreases |es|
  {
    if es == [] then o else ApplyEvent(ApplyEvents(o, es[..|es| - 1]), es[|es| - 1])
  }

  /** The `stateChanged` flag after the loop over `es`. */
  function Changed(es: seq<ArenaEvent>): bool
    decreases |es|
  {
    es != [] && (Changed(es[..|es| - 1]) || !es[|es| - 1].Unknown?)
  }

  /** triggerThrottledUpdate: touch and arm the timer only when none is pending. */
  function Throttle(o: Orch): (r: Orch)
    ensures o.timerPending ==> r == o
    ensures !o.timerPending ==> r == Orch(o.resolved, true, o.log + [StoreTouch])
  {
    if !o.timerPending then o.(log := o.log + [StoreTouch], timerPending := true) else o
  }

  /** The timer callback clears the flag. */
  function TimerFired(o: Orch): (r: Orch)
    ensures !r.timerPending && r.resolved == o.resolved && r.log == o.log
  {
    o.(timerPending := false)
  }

  /** processLine(line) */
  function ApplyLine(parse: string -> Option<Json>, o: Orch, line: string): Orch {
    var es := LineEvents(parse, line);
    if |es| == 0 then o
    else
      var after := ApplyEvents(o, es);
      if Changed(es) then Throttle(after) else after
  }

  lemma DedupApplyEvent(o: Orch, e: ArenaEvent)
    requires Dedup(o)
    ensures Dedup(ApplyEvent(o, e))
  {
    match e
    case MatchStarted(_) =>
      ResolvedSinceAppend(o.log, StoreReset);
    case GameStateChanged(hand, battlefield, _) =>
      DedupResolveAll(o, hand);
      var h := ResolveAll(o, hand);
      DedupResolveAll(h.0, battlefield);
      var b := ResolveAll(h.0, battlefield);
      ResolvedSinceAppend(b.0.log, StoreUpdateZones(h.1, b.1));
    case Unknown(_) =>
  }

  lemma {:induction false} DedupApplyEvents(o: Orch, es: seq<ArenaEvent>)
    requires Dedup(o)
    ensures Dedup(ApplyEvents(o, es))
    decreases |es|
  {
    if es != [] {
      DedupApplyEvents(o, es[..|es| - 1]);
      DedupApplyEvent(ApplyEvents(o, es[..|es| - 1]), es[|es| - 1]);
    }
  }

  lemma DedupThrottle(o: Orch)
    requires Dedup(o)
    ensures Dedup(Throttle(o)) && Dedup(TimerFired(o))
  {
    ResolvedSinceAppend(o.log, StoreTouch);
  }

  /** processLine keeps the dedup invariant. */
  lemma DedupApplyLine(parse: string -> Option<Json>, o: Orch, line: string)
    requires Dedup(o)
    ensures Dedup(ApplyLine(parse, o, line))
  {
    var es := LineEvents(parse, line);
    if |es| > 0 {
      DedupApplyEvents(o, es);
      DedupThrottle(ApplyEvents(o, es));
    }
  }

  /** A settled lookup keeps the dedup invariant. */
  lemma DedupCompleted(o: Orch, key: IdentityKey, card: Option<Card>)
    requires Dedup(o)
    ensures Dedup(Completed(o, key, card))
  {
    if card.Some? {
      ResolvedSinceAppend(o.log, StoreUpsert(key, MetadataAsWritten(card.value)));
      ResolvedSinceAppend(o.log + [StoreUpsert(key, MetadataAsWritten(card.value))], StoreTouch);
      assert o.log + [StoreUpsert(key, MetadataAsWritten(card.value)), StoreTouch] ==
             o.log + [StoreUpsert(key, MetadataAsWritten(card.value))] + [StoreTouch];
    }
  }

  /** A MatchStarted resets the store and empties the set, so every identity is resolved afresh. */
  lemma MatchStartedClears(o: Orch, line: string, id: ArenaCardIdentity)
    ensures ApplyEvent(o, MatchStarted(line)).resolved == {}
    ensures ApplyEvent(o, MatchStarted(line)).log == o.log + [StoreReset]
    ensures ResolvedSince(ApplyEvent(o, MatchStarted(line)).log) == []
    ensures ResolveOne(ApplyEvent(o, MatchStarted(line)), id).log ==
            o.log + [StoreReset, CardResolution(IdentityKeyOf(id), id)] + LookupCalls(id)
  {
    ResolvedSinceAppend(o.log, StoreReset);
  }

  /** A key already in the set is not resolved again: its lookup is never retried before a reset. */
  lemma KnownKeyNotRetried(o: Orch, id: ArenaCardIdentity)
    requires IdentityKeyOf(id) in o.resolved
    ensures ResolveOne(o, id) == o
  {
  }

  /** A line that yields no events changes nothing and triggers no update. */
  lemma EmptyLineChangesNothing(parse: string -> Option<Json>, o: Orch, line: string)
    requires LineEvents(parse, line) == []
    ensures ApplyLine(parse, o, line) == o
  {
  }

  /** Within one throttle window only the first change touches the store. */
  lemma ThrottleOncePerWindow(o: Orch)
    ensures Throttle(Throttle(o)) == Throttle(o)
    ensures Throttle(TimerFired(Throttle(o))).log == o.log + (if o.timerPending then [] else [StoreTouch]) + [StoreTouch]
  {
  }

  // ---------------------------------------------------------------------
  // Zone updates
  // ---------------------------------------------------------------------

  /** The updateZones calls in a log, in order. */
  function ZoneUpdates(log: seq<Call>): seq<(seq<IdentityKey>, seq<IdentityKey>)>
    decreases |log|
  {
    if log == [] then []
    else
      var init := ZoneUpdates(log[..|log| - 1]);
      match log[|log| - 1]
      case StoreUpdateZones(h, b) => init + [(h, b)]
      case _ => init
  }

  /** The updateZones calls the events call for: one per GameStateChanged, carrying its keys. */
  function ExpectedUpdates(es: seq<ArenaEvent>): seq<(seq<IdentityKey>, seq<IdentityKey>)>
    decreases |es|
  {
    if es == [] then [] else ExpectedUpdates(es[..|es| - 1]) + ExpectedOf(es[|es| - 1])
  }

  function ExpectedOf(e: ArenaEvent): seq<(seq<IdentityKey>, seq<IdentityKey>)> {
    if e.GameStateChanged? then [(Keys(e.hand), Keys(e.battlefield))] else []
  }

  lemma ZoneUpdatesAppend(log: seq<Call>, c: Call)
    ensures c.StoreUpdateZones? ==> ZoneUpdates(log + [c]) == ZoneUpdates(log) + [(c.hand, c.battlefield)]
    ensures !c.StoreUpdateZones? ==> ZoneUpdates(log + [c]) == ZoneUpdates(log)
  {
    assert (log + [c])[..|log|] == log;
  }

  lemma {:induction false} ZoneUpdatesResolveAll(o: Orch, ids: seq<ArenaCardIdentity>)
    ensures ZoneUpdates(ResolveAll(o, ids).0.log) == ZoneUpdates(o.log)
    decreases |ids|
  {
    if ids != [] {
      var init := ids[..|ids| - 1];
      ZoneUpdatesResolveAll(o, init);
      var p := ResolveAll(o, init).0;
      var id := ids[|ids| - 1];
      var key := IdentityKeyOf(id);
      if key !in p.resolved {
        ZoneUpdatesAppend(p.log, CardResolution(key, id));
        if LookupFor(id).Some? {
          ZoneUpdatesAppend(p.log + [CardResolution(key, id)], RequestLookup(LookupFor(id).value));
        } else {
          assert p.log + [CardResolution(key, id)] + LookupCalls(id) == p.log + [CardResolution(key, id)];
        }
      }
    }
  }

  lemma ZoneUpdatesApplyEvent(o: Orch, e: ArenaEvent)
    ensures ZoneUpdates(ApplyEvent(o, e).log) == ZoneUpdates(o.log) + ExpectedOf(e)
  {
    match e
    case MatchStarted(_) =>
      ZoneUpdatesAppend(o.log, StoreReset);
    case GameStateChanged(hand, battlefield, _) =>
      ZoneUpdatesResolveAll(o, hand);
      var h := ResolveAll(o, hand);
      ZoneUpdatesResolveAll(h.0, battlefield);
      var b := ResolveAll(h.0, battlefield);
      ZoneUpdatesAppend(b.0.log, StoreUpdateZones(h.1, b.1));
    case Unknown(_) =>
      assert ZoneUpdates(o.log) + [] == ZoneUpdates(o.log);
  }

  lemma {:induction false} ZoneUpdatesApplyEvents(o: Orch, es: seq<ArenaEvent>)
    ensures ZoneUpdates(ApplyEvents(o, es).log) == ZoneUpdates(o.log) + ExpectedUpdates(es)
    decreases |es|
  {
    if es == [] {
      assert ZoneUpdates(o.log) + [] == ZoneUpdates(o.log);
    } else {
      var init := es[..|es| - 1];
      ZoneUpdatesApplyEvents(o, init);
      ZoneUpdatesApplyEvent(ApplyEvents(o, init), es[|es| - 1]);
      assert ZoneUpdates(o.log) + ExpectedUpdates(init) + ExpectedOf(es[|es| - 1]) ==
             ZoneUpdates(o.log) + (ExpectedUpdates(init) + ExpectedOf(es[|es| - 1]));
    }
  }

  /**
   * processLine makes exactly one updateZones call per GameStateChanged
   * event of the line, in order, each carrying that event's hand keys and
   * battlefield keys.
   */
  lemma OneZoneUpdatePerGameState(parse: string -> Option<Json>, o: Orch, line: string)
    ensures ZoneUpdates(ApplyLine(parse, o, line).log) == ZoneUpdates(o.log) + ExpectedUpdates(LineEvents(parse, line))
  {
    var es := LineEvents(parse, line);
    if |es| == 0 {
      assert ExpectedUpdates(es) == [];
      assert ZoneUpdates(o.log) + [] == ZoneUpdates(o.log);
    } else {
      ZoneUpdatesApplyEvents(o, es);
      ZoneUpdatesAppend(ApplyEvents(o, es).log, StoreTouch);
    }
  }

  // ---------------------------------------------------------------------
  // Chunks and lines
  // ---------------------------------------------------------------------

  /** `s.split('\n')` */
  function SplitLines(s: string): (r: seq<string>)
    ensures |r| >= 1
    decreases |s|
  {
    if s == [] then [""]
    else
      var rest := SplitLines(s[1..]);
      if s[0] == '\n' then [""] + rest else [[s[0]] + rest[0]] + rest[1..]
  }

  /** `lines.join('\n')` */
  function JoinLines(ls: seq<string>): string
    requires |ls| >= 1
    decreases |ls|
  {
    if |ls| == 1 then ls[0] else ls[0] + "\n" + JoinLines(ls[1..])
  }

  /** No piece of a split contains a newline, and joining the pieces gives the text back. */
  lemma JoinLinesCons(x: string, ls: seq<string>)
    requires |ls| >= 1
    ensures JoinLines([x] + ls) == x + "\n" + JoinLines(ls)
  {
    assert ([x] + ls)[1..] == ls;
  }

  lemma Regroup(a: string, b: string, c: string, d: string)
    ensures a + b + c + d == a + (b + c + d)
  {
  }

  /** A character other than a newline extends the first line. */
  lemma JoinConsChar(c: char, rest: seq<string>)
    requires |rest| >= 1
    ensures JoinLines([[c] + rest[0]] + rest[1..]) == [c] + JoinLines(rest)
  {
    if |rest| == 1 {
      assert [[c] + rest[0]] + rest[1..] == [[c] + rest[0]];
    } else {
      var tail := rest[1..];
      assert rest == [rest[0]] + tail;
      JoinLinesCons([c] + rest[0], tail);
      JoinLinesCons(rest[0], tail);
      Regroup([c], rest[0], "\n", JoinLines(tail));
    }
  }

  lemma {:induction false} SplitLinesRoundTrip(s: string)
    ensures forall i :: 0 <= i < |SplitLines(s)| ==> '\n' !in SplitLines(s)[i]
    ensures JoinLines(SplitLines(s)) == s
    decreases |s|
  {
    if s != [] {
      SplitLinesRoundTrip(s[1..]);
      var rest := SplitLines(s[1..]);
      if s[0] == '\n' {
        assert [""] + rest == [""] + rest;
        assert ([""] + rest)[1..] == rest;
        assert JoinLines([""] + rest) == "" + "\n" + JoinLines(rest);
        assert s == [s[0]] + s[1..];
      } else {
        var r := [[s[0]] + rest[0]] + rest[1..];
        assert forall i :: 1 <= i < |r| ==> r[i] == rest[i];
        assert '\n' !in [s[0]] + rest[0];
        JoinConsChar(s[0], rest);
        assert s == [s[0]] + s[1..];
      }
    }
  }

  /** Splitting newline-free lines joined by newlines gives back the lines. */
  lemma {:induction false} JoinLinesRoundTrip(ls: seq<string>)
    requires |ls| >= 1 && forall i :: 0 <= i < |ls| ==> '\n' !in ls[i]
    ensures SplitLines(JoinLines(ls)) == ls
    decreases |ls|
  {
    if |ls| == 1 {
      NoNewlineSplit(ls[0]);
    } else {
      JoinLinesRoundTrip(ls[1..]);
      SplitPrefix(ls[0], JoinLines(ls[1..]));
      assert ls == [ls[0]] + ls[1..];
    }
  }

  lemma {:induction false} NoNewlineSplit(s: string)
    requires '\n' !in s
    ensures SplitLines(s) == [s]
    decreases |s|
  {
    if s != [] {
      assert '\n' !in s[1..];
      NoNewlineSplit(s[1..]);
      assert s == [s[0]] + s[1..];
    }
  }

  /** A newline-free `a` followed by a newline becomes the first piece. */
  lemma {:induction false} SplitPrefix(a: string, b: string)
    requires '\n' !in a
    ensures SplitLines(a + "\n" + b) == [a] + SplitLines(b)
    decreases |a|
  {
    if a == [] {
      assert a + "\n" + b == "\n" + b;
      assert ("\n" + b)[1..] == b;
    } else {
      assert (a + "\n" + b)[1..] == a[1..] + "\n" + b;
      assert '\n' !in a[1..];
      SplitPrefix(a[1..], b);
      assert [a[0]] + a[1..] == a;
    }
  }

  /** Lines processed one after the other. */
  function ApplyLines(parse: string -> Option<Json>, o: Orch, ls: seq<string>): Orch
    decreases |ls|
  {
    if ls == [] then o else ApplyLine(parse, ApplyLines(parse, o, ls[..|ls| - 1]), ls[|ls| - 1])
  }

  /** Every line of a chunk is parsed by itself. */
  function ApplyChunk(parse: string -> Option<Json>, o: Orch, chunk: string): Orch {
    ApplyLines(parse, o, SplitLines(chunk))
  }

  /** A chunk made of several lines is handled exactly as those lines one by one. */
  lemma ChunkIsItsLines(parse: string -> Option<Json>, o: Orch, ls: seq<string>)
    requires |ls| >= 1 && forall i :: 0 <= i < |ls| ==> '\n' !in ls[i]
    ensures ApplyChunk(parse, o, JoinLines(ls)) == ApplyLines(parse, o, ls)
  {
    JoinLinesRoundTrip(ls);
  }

  lemma {:induction false} DedupApplyLines(parse: string -> Option<Json>, o: Orch, ls: seq<string>)
    requires Dedup(o)
    ensures Dedup(ApplyLines(parse, o, ls))
    decreases |ls|
  {
    if ls != [] {
      DedupApplyLines(parse, o, ls[..|ls| - 1]);
      DedupApplyLine(parse, ApplyLines(parse, o, ls[..|ls| - 1]), ls[|ls| - 1]);
    }
  }

  /** A scene change to Match, followed by a GRE line whose payload is missing. */
  const TwoLineChunk: string := ParserScenarios.SceneLine + "\n" + ParserScenarios.MalformedLine

  /** A GRE line without a closing brace yields no events. */
  lemma BracelessGreLineIsSilent(parse: string -> Option<Json>, line: string)
    requires Contains(line, GreMarker) && '}' !in line
    ensures LineEvents(parse, line) == []
  {
    NoClosingBraceNoPayload(line);
  }

  /** A string that contains `sub` still does after a prefix. */
  lemma {:induction false} ContainsAfterPrefix(a: string, b: string, sub: string)
    requires Contains(b, sub)
    ensures Contains(a + b, sub)
    decreases |a|
  {
    if a != [] {
      ContainsAfterPrefix(a[1..], b, sub);
      assert (a + b)[1..] == a[1..] + b;
    } else {
      assert a + b == b;
    }
  }

  lemma SceneLineHasNoBreakOrBrace()
    ensures '\n' !in ParserScenarios.SceneLine && '}' !in ParserScenarios.SceneLine
  {
    assert '\n' !in ParserScenarios.Logger && '}' !in ParserScenarios.Logger;
    assert '\n' !in SceneMarker && '}' !in SceneMarker;
    assert '\n' !in MatchWord && '}' !in MatchWord;
  }

  lemma WholeChunkIsSilent(parse: string -> Option<Json>)
    ensures LineEvents(parse, TwoLineChunk) == []
  {
    var scene, bad := ParserScenarios.SceneLine, ParserScenarios.MalformedLine;
    SceneLineHasNoBreakOrBrace();
    ParserScenarios.MalformedLineFacts();
    ContainsAfterPrefix(scene + "\n", bad, GreMarker);
    assert '}' !in scene + "\n" + bad;
    BracelessGreLineIsSilent(parse, TwoLineChunk);
  }

  lemma ChunkSplitsInTwo()
    ensures SplitLines(TwoLineChunk) == [ParserScenarios.SceneLine, ParserScenarios.MalformedLine]
  {
    SceneLineHasNoBreakOrBrace();
    ParserScenarios.MalformedLineFacts();
    var ls := [ParserScenarios.SceneLine, ParserScenarios.MalformedLine];
    JoinLinesRoundTrip(ls);
    assert ls[1..] == [ParserScenarios.MalformedLine];
  }

  /** A line that starts a match, then a silent line: the store is reset. */
  lemma MatchThenSilentResets(parse: string -> Option<Json>, o: Orch, a: string, b: string)
    requires LineEvents(parse, a) == [MatchStarted(a)] && LineEvents(parse, b) == []
    ensures StoreReset in ApplyLines(parse, o, [a, b]).log
  {
    var ls := [a, b];
    assert ls[..1] == [a] && ls[..1][..0] == [];
    var es := [MatchStarted(a)];
    assert es[..0] == [];
    assert ApplyEvents(o, es) == ApplyEvent(o, MatchStarted(a));
    var after := ApplyLine(parse, o, a);
    assert StoreReset in after.log;
    assert ApplyLines(parse, o, [a]) == ApplyLine(parse, ApplyLines(parse, o, []), a) == after;
    assert ApplyLine(parse, after, b) == after;
    assert ApplyLines(parse, o, ls) == ApplyLine(parse, ApplyLines(parse, o, [a]), b);
  }

  /**
   * As written, the tailer's chunk is handed to processLine whole. A chunk
   * holding a scene change to Match and, after it, a GRE line without a
   * payload yields no event at all, so the store is never reset; split
   * into its lines, the same chunk resets it.
   */
  lemma ChunkAsOneLineLosesMatchStart(parse: string -> Option<Json>, o: Orch)
    ensures ApplyLine(parse, o, TwoLineChunk) == o
    ensures StoreReset in ApplyChunk(parse, o, TwoLineChunk).log
  {
    WholeChunkIsSilent(parse);
    ChunkSplitsInTwo();
    ParserScenarios.SceneChangeMatchStarts(parse);
    ParserScenarios.MalformedGreLineYieldsNothing(parse);
    MatchThenSilentResets(parse, o, ParserScenarios.SceneLine, ParserScenarios.MalformedLine);
  }

  // ---------------------------------------------------------------------
  // The orchestrator object
  // ---------------------------------------------------------------------

  class GameOrchestrator {
    /** JSON.parse, as the parser sees it. */
    const parse: string -> Option<Json>
    var resolvedIdentities: set<IdentityKey>
    /** `throttleTimer !== null` */
    var timerPending: bool
    var calls: seq<Call>

    function Model(): Orch
      reads this
    {
      Orch(resolvedIdentities, timerPending, calls)
    }

    ghost predicate Valid()
      reads this
    {
      Dedup(Model())
    }

    constructor(parse: string -> Option<Json>)
      ensures this.parse == parse && Model() == Start && Valid()
    {
      this.parse := parse;
      resolvedIdentities := {};
      timerPending := false;
      calls := [];
    }

    /** The synchronous part of resolveCard. */
    method ResolveCard(key: IdentityKey, id: ArenaCardIdentity)
      modifies this
      ensures Model() == StartResolution(old(Model()), key, id)
    {
      calls := calls + [CardResolution(key, id)];
      if id.mtgaId.Some? && id.mtgaId.value != 0 {
        calls := calls + [RequestLookup(ByMtgaId(id.mtgaId.value))];
      } else if id.name.Some? && id.name.value != "" {
        calls := calls + [RequestLookup(ByName(id.name.value))];
      }
    }

    /** The continuation of resolveCard once its lookup has settled with `cardData`. */
    method CompleteResolution(key: IdentityKey, cardData: Option<Card>)
      requires Valid()
      modifies this
      ensures Valid() && Model() == Completed(old(Model()), key, cardData)
    {
      DedupCompleted(Model(), key, cardData);
      if cardData.Some? {
        calls := calls + [StoreUpsert(key, MetadataAsWritten(cardData.value)), StoreTouch];
      }
    }

    method ResolveIdentities(identities: seq<ArenaCardIdentity>) returns (keys: seq<IdentityKey>)
      requires Valid()
      modifies this
      ensures Valid() && (Model(), keys) == ResolveAll(old(Model()), identities)
    {
      keys := [];
      DedupResolveAll(Model(), identities);
      for i := 0 to |identities|
        invariant (Model(), keys) == ResolveAll(old(Model()), identities[..i])
      {
        assert identities[..i + 1][..i] == identities[..i];
        var id := identities[i];
        var key := IdentityKeyOf(id);
        keys := keys + [key];
        if key !in resolvedIdentities {
          resolvedIdentities := resolvedIdentities + {key};
          ResolveCard(key, id);
        }
      }
      assert identities[..|identities|] == identities;
    }

    method TriggerThrottledUpdate()
      requires Valid()
      modifies this
      ensures Valid() && Model() == Throttle(old(Model()))
    {
      DedupThrottle(Model());
      if !timerPending {
        calls := calls + [StoreTouch];
        timerPending := true;
      }
    }

    /** The setTimeout callback. */
    method OnThrottleTimer()
      requires Valid()
      modifies this
      ensures Valid() && Model() == TimerFired(old(Model()))
    {
      DedupThrottle(Model());
      timerPending := false;
    }

    /** One pass of processLine's event loop; `changed` tells whether the event sets `stateChanged`. */
    method ProcessEvent(event: ArenaEvent) returns (changed: bool)
      requires Valid()
      modifies this
      ensures Valid() && Model() == ApplyEvent(old(Model()), event)
      ensures changed == !event.Unknown?
    {
      DedupApplyEvent(Model(), event);
      changed := false;
      if event.MatchStarted? {
        calls := calls + [StoreReset];
        resolvedIdentities := {};
        changed := true;
      } else if event.GameStateChanged? {
        var handKeys := ResolveIdentities(event.hand);
        var battlefieldKeys := ResolveIdentities(event.battlefield);
        calls := calls + [StoreUpdateZones(handKeys, battlefieldKeys)];
        changed := true;
      }
    }

    method ProcessLine(line: string)
      requires Valid()
      modifies this
      ensures Valid() && Model() == ApplyLine(parse, old(Model()), line)
    {
      var events := ParseLine(parse, line);
      if |events| == 0 {
        return;
      }
      var stateChanged := false;
      for i := 0 to |events|
        invariant Valid()
        invariant Model() == ApplyEvents(old(Model()), events[..i])
        invariant stateChanged == Changed(events[..i])
      {
        assert events[..i + 1][..i] == events[..i];
        var changed := ProcessEvent(events[i]);
        stateChanged := stateChanged || changed;
      }
      assert events[..|events|] == events;
      if stateChanged {
        TriggerThrottledUpdate();
      }
    }

    /** A 'newLine' chunk split into its lines, each processed in turn. */
    method ProcessChunk(chunk: string)
      requires Valid()
      modifies this
      ensures Valid() && Model() == ApplyChunk(parse, old(Model()), chunk)
    {
      var lines := SplitLines(chunk);
      for i := 0 to |lines|
        invariant Valid()
        invariant Model() == ApplyLines(parse, old(Model()), lines[..i])
      {
        assert lines[..i + 1][..i] == lines[..i];
        ProcessLine(lines[i]);
      }
      assert lines[..|lines|] == lines;
    }
  }
}
