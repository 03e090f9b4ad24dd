/**
 * CardCache (packages/core/src/cache.ts): a memory map in front of one
 * JSON file per card id. The cache directory is modelled as a map from
 * card id to the parse of its file (`None` when JSON.parse throws); disk
 * reads are recorded so that "without consulting disk" can be stated.
 */
module Cache {
  import opened Wrappers
  import opened Types

  datatype CacheState = CacheState(memory: map<string, Card>, disk: map<string, Option<Card>>)

  /** What one `get(id)` returns, the state after it, and whether it read the disk. */
  datatype GetResult = GetResult(card: Option<Card>, after: CacheState, readDisk: bool)

  /** A disk file for `id` exists and parses. */
  predicate OnDisk(s: CacheState, id: string) {
    id in s.disk && s.disk[id].Some?
  }

  /**
   * `get(id)`: a memory hit returns without touching the disk; on a miss a
   * file that parses is returned and copied into memory; a missing or
   * unparseable file returns undefined and leaves memory as it was. The
   * disk never changes.
   */
  function Lookup(s: CacheState, id: string): (r: GetResult)
    ensures r.after.disk == s.disk
    ensures id in s.memory ==> r == GetResult(Some(s.memory[id]), s, false)
    ensures id !in s.memory ==> r.readDisk
    ensures id !in s.memory && OnDisk(s, id) ==>
              r.card == s.disk[id] && r.after.memory == s.memory[id := s.disk[id].value]
    ensures id !in s.memory && !OnDisk(s, id) ==> r.card.None? && r.after == s
  {
    if id in s.memory then GetResult(Some(s.memory[id]), s, false)
    else if id in s.disk then
      match s.disk[id]
      case Some(data) => GetResult(Some(data), s.(memory := s.memory[id := data]), true)
      case None => GetResult(None, s, true)
    else GetResult(None, s, true)
  }

  /**
   * `set(card)`: memory always takes the card under `card.id`, even when
   * the file write throws (`writeOk` false); a successful write stores it
   * on disk as well.
   */
  function Insert(s: CacheState, card: Card, writeOk: bool): (r: CacheState)
    ensures r.memory == s.memory[card.id := card]
    ensures r.disk == if writeOk then s.disk[card.id := Some(card)] else s.disk
  {
    CacheState(s.memory[card.id := card], if writeOk then s.disk[card.id := Some(card)] else s.disk)
  }

  /** A `get` of a card just `set` returns it from memory. */
  lemma SetThenGet(s: CacheState, card: Card, writeOk: bool)
    ensures Lookup(Insert(s, card, writeOk), card.id).card == Some(card)
    ensures !Lookup(Insert(s, card, writeOk), card.id).readDisk
  {
  }

  /** `set` does not change what `get` returns for any other id. */
  lemma SetLeavesOtherIds(s: CacheState, card: Card, writeOk: bool, id: string)
    requires id != card.id
    ensures Lookup(Insert(s, card, writeOk), id).card == Lookup(s, id).card
  {
    var t := Insert(s, card, writeOk);
    assert (id in t.memory <==> id in s.memory) && (id in t.memory ==> t.memory[id] == s.memory[id]);
    assert OnDisk(t, id) <==> OnDisk(s, id);
  }

  /**
   * A second `get` of the same id returns the same answer; after a hit it
   * comes from memory, while a miss is not remembered and reads the disk again.
   */
  lemma GetIsStable(s: CacheState, id: string)
    ensures Lookup(Lookup(s, id).after, id).card == Lookup(s, id).card
    ensures Lookup(s, id).card.Some? ==> !Lookup(Lookup(s, id).after, id).readDisk
    ensures Lookup(s, id).card.None? ==> Lookup(Lookup(s, id).after, id).readDisk
  {
  }

  /** A card written to disk is found again by a fresh cache with empty memory. */
  lemma WrittenCardSurvivesRestart(s: CacheState, card: Card)
    ensures Lookup(CacheState(map[], Insert(s, card, true).disk), card.id).card == Some(card)
  {
  }

  /** `get` only adds to memory: every entry it held is kept. */
  lemma GetKeepsMemory(s: CacheState, id: string, other: string)
    requires other in s.memory
    ensures other in Lookup(s, id).after.memory && Lookup(s, id).after.memory[other] == s.memory[other]
  {
  }

  class CardCache {
    var memory: map<string, Card>
    var disk: map<string, Option<Card>>
    /** The ids whose file `get` consulted, in order. */
    var diskReads: seq<string>

    function State(): CacheState
      reads this
    {
      CacheState(memory, disk)
    }

    /** The memory map starts empty over the files already on disk. */
    constructor(files: map<string, Option<Card>>)
      ensures memory == map[] && disk == files && diskReads == []
    {
      memory := map[];
      disk := files;
      diskReads := [];
    }

    method Get(id: string) returns (r: Option<Card>)
      modifies this
      ensures r == Lookup(old(State()), id).card
      ensures State() == Lookup(old(State()), id).after
      ensures diskReads == old(diskReads) + (if Lookup(old(State()), id).readDisk then [id] else [])
    {
      if id in memory {
        return Some(memory[id]);
      }
      diskReads := diskReads + [id];
      if id in disk {
        var data := disk[id];
        if data.Some? {
          memory := memory[id := data.value];
          return data;
        }
      }
      return None;
    }

    method Set(card: Card, writeOk: bool)
      modifies this
      ensures State() == Insert(old(State()), card, writeOk)
      ensures diskReads == old(diskReads)
    {
      memory := memory[card.id := card];
      if writeOk {
        disk := disk[card.id := Some(card)];
      }
    }
  }
}
