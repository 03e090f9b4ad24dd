/**
 * GameStateStore (packages/core/src/state.ts): a five-zone record and a
 * match id. Each mutator replaces part of the state and then emits one
 * 'update' event carrying the state; the emitted events are recorded in
 * order in `updates`.
 */
module State {
  import opened Wrappers
  import opened Types

  datatype ZoneName = Hand | Battlefield | Graveyard | Exile | Library

  datatype Zones = Zones(
    hand: seq<Card>,
    battlefield: seq<Card>,
    graveyard: seq<Card>,
    exile: seq<Card>,
    library: seq<Card>)

  /** `matchId` is `null` until a match id is set. */
  datatype GameState = GameState(matchId: Option<string>, zones: Zones)

  /** `zones[zoneName]` */
  function Zone(zs: Zones, z: ZoneName): seq<Card> {
    match z
    case Hand => zs.hand
    case Battlefield => zs.battlefield
    case Graveyard => zs.graveyard
    case Exile => zs.exile
    case Library => zs.library
  }

  /** Two zone records that agree on every zone are equal. */
  lemma ZonesExtensional(a: Zones, b: Zones)
    requires forall z :: Zone(a, z) == Zone(b, z)
    ensures a == b
  {
    assert Zone(a, Hand) == Zone(b, Hand) && Zone(a, Battlefield) == Zone(b, Battlefield);
    assert Zone(a, Graveyard) == Zone(b, Graveyard) && Zone(a, Exile) == Zone(b, Exile);
    assert Zone(a, Library) == Zone(b, Library);
  }

  /** `zones[zoneName] = cards` */
  function WithZone(zs: Zones, z: ZoneName, cards: seq<Card>): (r: Zones)
    ensures Zone(r, z) == cards
    ensures forall y :: y != z ==> Zone(r, y) == Zone(zs, y)
  {
    match z
    case Hand => zs.(hand := cards)
    case Battlefield => zs.(battlefield := cards)
    case Graveyard => zs.(graveyard := cards)
    case Exile => zs.(exile := cards)
    case Library => zs.(library := cards)
  }

  /** The state the store starts in and `reset` restores. */
  function Initial(): (s: GameState)
    ensures s.matchId.None? && forall z :: Zone(s.zones, z) == []
  {
    GameState(None, Zones([], [], [], [], []))
  }

  /** The state after `updateZone(z, cards)`. */
  function UpdateZoneState(s: GameState, z: ZoneName, cards: seq<Card>): (r: GameState)
    ensures r.matchId == s.matchId
    ensures Zone(r.zones, z) == cards
    ensures forall y :: y != z ==> Zone(r.zones, y) == Zone(s.zones, y)
  {
    s.(zones := WithZone(s.zones, z, cards))
  }

  /** The state after `setMatchId(id)`. */
  function SetMatchIdState(s: GameState, id: string): (r: GameState)
    ensures r.matchId == Some(id) && r.zones == s.zones
  {
    s.(matchId := Some(id))
  }

  /** A later update of the same zone overwrites an earlier one. */
  lemma UpdateZoneOverwrites(s: GameState, z: ZoneName, a: seq<Card>, b: seq<Card>)
    ensures UpdateZoneState(UpdateZoneState(s, z, a), z, b) == UpdateZoneState(s, z, b)
  {
    ZonesExtensional(UpdateZoneState(UpdateZoneState(s, z, a), z, b).zones, UpdateZoneState(s, z, b).zones);
  }

  /** Updates of different zones commute. */
  lemma UpdateZonesCommute(s: GameState, z1: ZoneName, a: seq<Card>, z2: ZoneName, b: seq<Card>)
    requires z1 != z2
    ensures UpdateZoneState(UpdateZoneState(s, z1, a), z2, b) == UpdateZoneState(UpdateZoneState(s, z2, b), z1, a)
  {
    ZonesExtensional(UpdateZoneState(UpdateZoneState(s, z1, a), z2, b).zones,
                     UpdateZoneState(UpdateZoneState(s, z2, b), z1, a).zones);
  }

  /** Writing a zone's own cards back changes nothing. */
  lemma UpdateZoneWithSame(s: GameState, z: ZoneName)
    ensures UpdateZoneState(s, z, Zone(s.zones, z)) == s
  {
    ZonesExtensional(UpdateZoneState(s, z, Zone(s.zones, z)).zones, s.zones);
  }

  /** Zone updates and match ids are independent. */
  lemma SetMatchIdCommutesWithUpdateZone(s: GameState, id: string, z: ZoneName, cards: seq<Card>)
    ensures SetMatchIdState(UpdateZoneState(s, z, cards), id) == UpdateZoneState(SetMatchIdState(s, id), z, cards)
  {
  }

  class GameStateStore {
    var state: GameState
    /** The payload of every 'update' event emitted so far, in order. */
    var updates: seq<GameState>

    constructor()
      ensures state == Initial() && updates == []
    {
      state := Initial();
      updates := [];
    }

    /** getState: changes nothing and emits nothing. */
    method GetState() returns (s: GameState)
      ensures s == state
    {
      s := state;
    }

    /** reset: no match id, five empty zones, one update. */
    method Reset()
      modifies this
      ensures state == Initial()
      ensures updates == old(updates) + [Initial()]
    {
      state := GameState(None, Zones([], [], [], [], []));
      updates := updates + [state];
    }

    /** updateZone: replaces one zone, keeps the rest, one update. */
    method UpdateZone(z: ZoneName, cards: seq<Card>)
      modifies this
      ensures state == UpdateZoneState(old(state), z, cards)
      ensures updates == old(updates) + [state]
    {
      state := state.(zones := WithZone(state.zones, z, cards));
      updates := updates + [state];
    }

    /** setMatchId: replaces the match id only, one update. */
    method SetMatchId(id: string)
      modifies this
      ensures state == SetMatchIdState(old(state), id)
      ensures updates == old(updates) + [state]
    {
      state := state.(matchId := Some(id));
      updates := updates + [state];
    }
  }
}
