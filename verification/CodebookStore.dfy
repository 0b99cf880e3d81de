/** A loaded codebook as an object: an ordered dictionary that is updated in place, and the
    counting filter object beside it. */
module CodebookStores {
  import opened Common
  import opened Decimal
  import opened CountingBlooms
  import opened Codebooks
  import opened CodebookRuns
  import opened CodebookTheorems

  class CodebookStore {
    var cap: int
    var nextId: nat
    var slots: seq<Slot>
    const bloom: CountingBloom

    constructor (cap: int, bloom: CountingBloom)
      requires bloom.Valid()
      ensures this.bloom == bloom && State() == Store(cap, 1, [], bloom.State())
    {
      this.cap, this.nextId, this.slots, this.bloom := cap, 1, [], bloom;
    }

    ghost function State(): Store
      reads this, bloom, bloom.counters
    {
      Store(cap, nextId, slots, bloom.State())
    }

    /** Takes the oldest entry out of the dictionary and out of the filter. */
    method PopOldest()
      requires bloom.Valid() && slots != []
      modifies this`slots, bloom.counters
      ensures bloom.Valid() && State() == EvictOne(bloom.d, old(State()))
    {
      var slot := slots[0];
      slots := slots[1..];
      if slot.entry.phrase != "" { bloom.RemovePhrase(slot.entry.phrase); }
    }

    method EvictOldest(n: int)
      requires bloom.Valid()
      modifies this`slots, bloom.counters
      ensures bloom.Valid() && State() == Evict(bloom.d, old(State()), n)
    {
      ghost var all := Evict(bloom.d, State(), n);
      var rounds := if n <= |slots| then n else |slots|;
      var i := 0;
      while i < rounds
        invariant bloom.Valid()
        invariant i <= Max(0, rounds) && |slots| >= rounds - i
        invariant rounds < n ==> |slots| == rounds - i
        invariant all == Evict(bloom.d, State(), n - i)
        decreases rounds - i
      {
        PopOldest();
        i := i + 1;
      }
    }

    /** Evicts one entry at a time while there are more than the cap. The answer `false` stands for
        a loop that does not end. */
    method KeepCap() returns (ends: bool)
      requires bloom.Valid()
      modifies this`slots, bloom.counters
      ensures bloom.Valid() && ends == LoopEnds(bloom.d, old(State()))
      ensures State() == if ends then EnsureCap(bloom.d, old(State())) else old(State())
    {
      CapLoopEndsIff(bloom.d, State());
      if cap < 0 { return false; }
      ghost var all := EnsureCap(bloom.d, State());
      while |slots| > cap
        invariant bloom.Valid() && cap >= 0 && all == EnsureCap(bloom.d, State())
        decreases |slots|
      {
        PopOldest();
      }
      return true;
    }

    /** Keeps the cap, and reads the entry back for the reply. */
    method TrimFor(id: string, reply: PutReply) returns (r: PutReply)
      requires bloom.Valid()
      modifies this`slots, bloom.counters
      ensures bloom.Valid() && (State(), r) == Trim(bloom.d, old(State()), id, reply)
    {
      CapLoopEndsIff(bloom.d, State());
      var ends := KeepCap();
      if !ends { return Endless; }
      if SlotOf(slots, id).None? { return Lost(id); }
      return reply;
    }

    method ScanFor(phrase: string) returns (id: Option<string>)
      ensures id == FindByPhrase(slots, phrase)
    {
      for i := 0 to |slots|
        invariant FindByPhrase(slots, phrase) == FindByPhrase(slots[i..], phrase)
      {
        assert slots[i..][0] == slots[i] && slots[i..][1..] == slots[i + 1..];
        if slots[i].entry.phrase == phrase { return Some(slots[i].id); }
      }
      return None;
    }

    /** The lookup that asks the filter first. */
    method FindGated(phrase: string) returns (id: Option<string>)
      requires bloom.Valid()
      modifies bloom`negatives, bloom`positives
      ensures bloom.Valid() && State() == old(State()).(bloom := Asked(bloom.d, old(State()).bloom, phrase))
      ensures id == GatedFind(bloom.d, old(State()), phrase)
      ensures InStep(bloom.d, old(State()).bloom, Phrases(slots)) ==> id == FindByPhrase(slots, phrase)
    {
      if InStep(bloom.d, State().bloom, Phrases(slots)) { GatingIsInvisible(bloom.d, State(), phrase); }
      var maybe := bloom.MightContain(phrase);
      if !maybe { return None; }
      id := ScanFor(phrase);
    }

    method HitEntry(id: string, now: int)
      modifies this`slots
      ensures State() == Hit(old(State()), id, now)
    {
      var slot := SlotOf(slots, id);
      if slot.Some? {
        slots := Drop(slots, id) + [Slot(id, slot.value.entry.(hits := slot.value.entry.hits + 1, last := now))];
      }
    }

    method PutFound(existing: Option<string>, kind: string, phrase: string, forced: string, now: int) returns (reply: PutReply)
      requires bloom.Valid()
      modifies this, bloom`inserts, bloom.counters
      ensures bloom.Valid() && (State(), reply) == PutKnowing(bloom.d, old(State()), existing, kind, phrase, forced, now)
    {
      if existing.Some? && existing.value != "" {
        HitEntry(existing.value, now);
        return Refreshed(existing.value);
      }
      var id := forced;
      if id == "" {
        id := "s" + Dec(nextId);
        nextId := nextId + 1;
      }
      var slot := SlotOf(slots, id);
      if slot.Some? {
        slots := Refresh(slots, id, slot.value.entry.(phrase := phrase, kind := kind, hits := slot.value.entry.hits + 1, last := now));
        reply := TrimFor(id, Updated(id));
        return;
      }
      slots := slots + [NewSlot(id, kind, phrase, now)];
      bloom.AddPhrase(phrase);
      reply := TrimFor(id, Added(id));
    }

    /** Stores a phrase or counts another use of it. */
    method PutPhrase(kind: string, phrase: string, forced: string, now: int) returns (reply: PutReply)
      requires bloom.Valid()
      modifies this, bloom, bloom.counters
      ensures bloom.Valid() && (State(), reply) == Put(bloom.d, old(State()), kind, phrase, forced, now)
    {
      if phrase == "" || |phrase| > 2048 { return Rejected; }
      if HashLike(phrase) { return Skipped; }
      var existing := FindGated(phrase);
      reply := PutFound(existing, kind, phrase, forced, now);
    }
  }
}
