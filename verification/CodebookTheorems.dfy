/** What the codebook commands keep, over whole runs and across saving and loading. */
module CodebookTheorems {
  import opened Common
  import opened Sorting
  import opened Decimal
  import opened CountingBlooms
  import opened Codebooks
  import opened CodebookRuns

  // ---- eviction -----------------------------------------------------------------------

  /** What the entries and the filter promise, whatever the cap. */
  ghost predicate Matched(d: Digests, s: Store) {
    Distinct(s.slots) && InStep(d, s.bloom, Phrases(s.slots))
  }

  lemma TailDistinct(slots: seq<Slot>)
    requires Distinct(slots) && slots != []
    ensures Distinct(slots[1..])
    ensures Phrases(slots) == [slots[0].entry.phrase] + Phrases(slots[1..])
  {
    assert slots == [slots[0]] + slots[1..];
    assert Ids(slots)[1..] == Ids(slots[1..]) && Phrases(slots)[1..] == Phrases(slots[1..]);
  }

  lemma EvictOneKeeps(d: Digests, s: Store)
    requires Matched(d, s) && s.slots != []
    ensures Matched(d, EvictOne(d, s))
  {
    TailDistinct(s.slots);
    RemoveKeepsStep(d, s.bloom, s.slots[0].entry.phrase, Phrases(s.slots[1..]));
  }

  /** Evicting removes exactly the oldest entries, as many as asked for and there are. */
  lemma {:induction false} EvictDropsOldest(d: Digests, s: Store, n: int)
    requires Matched(d, s)
    ensures Matched(d, Evict(d, s, n))
    ensures Evict(d, s, n).slots == s.slots[Min(Max(0, n), |s.slots|)..]
    ensures Evict(d, s, n).cap == s.cap
    decreases |s.slots|
  {
    if n > 0 && s.slots != [] {
      EvictOneKeeps(d, s);
      EvictDropsOldest(d, EvictOne(d, s), n - 1);
    }
  }

  /** The cap loop ends: after some number of evictions its guard is false. */
  ghost predicate LoopEnds(d: Digests, s: Store)
    requires Shaped(s.bloom)
  {
    exists n: nat :: |Evict(d, s, n).slots| <= s.cap
  }

  lemma {:induction false} EvictCounts(d: Digests, s: Store, n: nat)
    requires Shaped(s.bloom)
    ensures |Evict(d, s, n).slots| == Max(0, |s.slots| - n)
    decreases |s.slots|
  {
    if n > 0 && s.slots != [] { EvictCounts(d, EvictOne(d, s), n - 1); }
  }

  /** The loop that keeps the cap ends if and only if the cap is not negative. Below a negative cap
      its guard still holds after every number of evictions. */
  lemma CapLoopEndsIff(d: Digests, s: Store)
    requires Shaped(s.bloom)
    ensures LoopEnds(d, s) <==> s.cap >= 0
    ensures s.cap < 0 ==> forall n: nat :: |Evict(d, s, n).slots| > s.cap
  {
    if s.cap >= 0 {
      EvictCounts(d, s, |s.slots|);
      assert |Evict(d, s, |s.slots|).slots| <= s.cap;
    }
  }

  /** Keeping the cap removes exactly the oldest entries above it: it is the loop stopped at the
      first moment at which its guard is false. */
  lemma {:induction false} CapDropsOldest(d: Digests, s: Store)
    requires Shaped(s.bloom)
    ensures s.cap >= 0 ==> EnsureCap(d, s) == Evict(d, s, Max(0, |s.slots| - s.cap))
    ensures s.cap >= 0 ==> EnsureCap(d, s).slots == s.slots[Max(0, |s.slots| - s.cap)..] && EnsureCap(d, s).cap == s.cap
    ensures s.cap >= 0 && Matched(d, s) ==> Matched(d, EnsureCap(d, s))
    decreases |s.slots|
  {
    if s.cap >= 0 && |s.slots| > s.cap {
      if Matched(d, s) { EvictOneKeeps(d, s); }
      CapDropsOldest(d, EvictOne(d, s));
    }
  }

  // ---- refreshing an entry ------------------------------------------------------------

  lemma {:induction false} DropMembers(slots: seq<Slot>, id: string)
    requires NoDuplicates(Ids(slots)) && SlotOf(slots, id).Some?
    ensures multiset(slots) == multiset(Drop(slots, id)) + multiset{SlotOf(slots, id).value}
  {
    assert slots == [slots[0]] + slots[1..];
    assert Ids(slots)[1..] == Ids(slots[1..]);
    if slots[0].id == id {
      NothingToDrop(slots[1..], id);
      forall i | 0 <= i < |slots| - 1 ensures slots[1..][i].id != id {
        assert Ids(slots)[i + 1] == slots[1..][i].id && Ids(slots)[0] == id;
      }
    } else {
      DropMembers(slots[1..], id);
    }
  }

  lemma {:induction false} NothingToDrop(slots: seq<Slot>, id: string)
    ensures (forall i :: 0 <= i < |slots| ==> slots[i].id != id) ==> Drop(slots, id) == slots
  {
    if slots != [] {
      assert slots == [slots[0]] + slots[1..];
      NothingToDrop(slots[1..], id);
      assert forall i :: 0 <= i < |slots| - 1 ==> slots[1..][i] == slots[i + 1];
    }
  }

  /** The ids, and the phrases but for the one that is replaced, are the same as before. */
  lemma RefreshMembers(slots: seq<Slot>, id: string, entry: Entry)
    requires NoDuplicates(Ids(slots)) && SlotOf(slots, id).Some?
    ensures multiset(Ids(Refresh(slots, id, entry))) == multiset(Ids(slots))
    ensures multiset(Phrases(slots)) == multiset(Phrases(Drop(slots, id))) + multiset{SlotOf(slots, id).value.entry.phrase}
    ensures Phrases(Refresh(slots, id, entry)) == Phrases(Drop(slots, id)) + [entry.phrase]
    ensures |Refresh(slots, id, entry)| == |slots|
  {
    var slot, rest := SlotOf(slots, id).value, Drop(slots, id);
    DropMembers(slots, id);
    MovedToTheEnd(slots, rest, slot);
    Projections(rest, [Slot(id, entry)]);
    assert Ids([slot]) == [id] && Ids([Slot(id, entry)]) == [id];
  }

  /** Ids and phrases of a list whose entry goes to the end. */
  lemma MovedToTheEnd(slots: seq<Slot>, rest: seq<Slot>, slot: Slot)
    requires multiset(slots) == multiset(rest) + multiset{slot}
    ensures multiset(Ids(slots)) == multiset(Ids(rest) + Ids([slot]))
    ensures multiset(Phrases(slots)) == multiset(Phrases(rest)) + multiset{slot.entry.phrase}
    ensures |slots| == |rest| + 1
  {
    IdsOfMembers(slots, rest + [slot]);
    Projections(rest, [slot]);
    SameSize(slots, rest + [slot]);
  }

  lemma SameSize(a: seq<Slot>, b: seq<Slot>)
    requires multiset(a) == multiset(b)
    ensures |a| == |b|
  {
    assert |multiset(a)| == |a| && |multiset(b)| == |b|;
  }

  lemma RefreshKeeps(d: Digests, s: Store, id: string, entry: Entry)
    requires Matched(d, s) && SlotOf(s.slots, id).Some? && entry.phrase == SlotOf(s.slots, id).value.entry.phrase
    ensures Matched(d, s.(slots := Refresh(s.slots, id, entry)))
    ensures |Refresh(s.slots, id, entry)| == |s.slots|
  {
    var next := Refresh(s.slots, id, entry);
    RefreshMembers(s.slots, id, entry);
    assert multiset(Phrases(next)) == multiset(Phrases(s.slots));
    SameMembersDistinct(Ids(s.slots), Ids(next));
    SameMembersDistinct(Phrases(s.slots), Phrases(next));
    MembersKeepStep(d, s.bloom, Phrases(s.slots), Phrases(next));
    NamesStay(s.slots, next);
  }

  lemma NamesStay(slots: seq<Slot>, next: seq<Slot>)
    requires multiset(Ids(next)) == multiset(Ids(slots)) && multiset(Phrases(next)) == multiset(Phrases(slots))
    requires forall i :: 0 <= i < |slots| ==> slots[i].id != "" && slots[i].entry.phrase != ""
    ensures forall i :: 0 <= i < |next| ==> next[i].id != "" && next[i].entry.phrase != ""
  {
    forall i | 0 <= i < |next| ensures next[i].id != "" && next[i].entry.phrase != "" {
      assert Ids(next)[i] in multiset(Ids(slots)) && Phrases(next)[i] in multiset(Phrases(slots));
      assert Ids(next)[i] in Ids(slots) && Phrases(next)[i] in Phrases(slots);
    }
  }

  lemma HitKeeps(d: Digests, s: Store, id: string, now: int)
    requires Good(d, s)
    ensures Good(d, Hit(s, id, now))
  {
    if SlotOf(s.slots, id).Some? {
      var slot := SlotOf(s.slots, id).value;
      RefreshKeeps(d, s, id, slot.entry.(hits := slot.entry.hits + 1, last := now));
    }
  }

  lemma AskedKeeps(d: Digests, s: Store, phrase: string)
    requires Good(d, s)
    ensures Good(d, s.(bloom := Asked(d, s.bloom, phrase)))
  {
  }

  // ---- put ----------------------------------------------------------------------------

  /** The put finds its phrase, or names its entry with an id that is not taken. */
  predicate PutIsFresh(s: Store, phrase: string, forced: string) {
    FindByPhrase(s.slots, phrase).Some? || SlotOf(s.slots, ChooseId(s, forced).0).None?
  }

  lemma NewSlotKeeps(d: Digests, s: Store, slot: Slot)
    requires Matched(d, s) && SlotOf(s.slots, slot.id).None? && slot.id != "" && slot.entry.phrase != ""
    requires slot.entry.phrase !in Phrases(s.slots)
    ensures Matched(d, s.(slots := s.slots + [slot], bloom := Add(d, s.bloom, slot.entry.phrase)))
            <==> Fits(d, s.bloom, Phrases(s.slots) + [slot.entry.phrase])
  {
    var next := s.slots + [slot];
    Projections(s.slots, [slot]);
    AddKeepsStep(d, s.bloom, Phrases(s.slots), slot.entry.phrase);
    assert Distinct(next) by {
      forall i | 0 <= i < |s.slots| ensures Ids(next)[i] != slot.id && Phrases(next)[i] != slot.entry.phrase {
        assert s.slots[i] in s.slots && Phrases(s.slots)[i] == s.slots[i].entry.phrase;
      }
      assert Ids(next) == Ids(s.slots) + [slot.id] && Phrases(next) == Phrases(s.slots) + [slot.entry.phrase];
    }
  }

  lemma ScanNamesNoBlank(d: Digests, s: Store, phrase: string)
    requires Good(d, s)
    ensures FindByPhrase(s.slots, phrase).Some? ==>
              FindByPhrase(s.slots, phrase).value != "" && SlotOf(s.slots, FindByPhrase(s.slots, phrase).value).Some?
  {
    FoundIsThere(s.slots, phrase);
  }

  lemma {:induction false} FoundIsThere(slots: seq<Slot>, phrase: string)
    ensures FindByPhrase(slots, phrase).Some? ==>
              exists i :: 0 <= i < |slots| && slots[i].id == FindByPhrase(slots, phrase).value && slots[i].entry.phrase == phrase
  {
    if slots != [] && slots[0].entry.phrase != phrase {
      FoundIsThere(slots[1..], phrase);
      if FindByPhrase(slots[1..], phrase).Some? {
        var i :| 0 <= i < |slots| - 1 && slots[1..][i].id == FindByPhrase(slots[1..], phrase).value && slots[1..][i].entry.phrase == phrase;
        assert slots[i + 1] == slots[1..][i];
      }
    }
  }

  /** Without the filter, a put would do the same. */
  lemma PutUngated(d: Digests, s: Store, kind: string, phrase: string, forced: string, now: int)
    requires Good(d, s) && !Unusable(phrase)
    ensures Put(d, s, kind, phrase, forced, now)
            == PutKnowing(d, s.(bloom := Asked(d, s.bloom, phrase)), FindByPhrase(s.slots, phrase), kind, phrase, forced, now)
    ensures Good(d, s.(bloom := Asked(d, s.bloom, phrase)))
  {
    GatingIsInvisible(d, s, phrase);
    AskedKeeps(d, s, phrase);
  }

  /** A careful put keeps everything, stays within the cap, and leaves its phrase stored, under
      the id that it reports, as the youngest entry. */
  lemma PutKeeps(d: Digests, s: Store, kind: string, phrase: string, forced: string, now: int)
    requires Good(d, s) && !Unusable(phrase) && PutIsFresh(s, phrase, forced)
    requires FindByPhrase(s.slots, phrase).None? ==> Fits(d, s.bloom, Phrases(s.slots) + [phrase])
    ensures var (next, reply) := Put(d, s, kind, phrase, forced, now); Kept(d, next, reply, phrase)
  {
    PutUngated(d, s, kind, phrase, forced, now);
    var asked := s.(bloom := Asked(d, s.bloom, phrase));
    if FindByPhrase(s.slots, phrase).Some? {
      ScanNamesNoBlank(d, s, phrase);
      HitKeeps(d, asked, FindByPhrase(s.slots, phrase).value, now);
      FoundHasPhrase(s.slots, phrase);
    } else {
      var (id, named) := ChooseId(asked, forced);
      AddedKeeps(d, named, NewSlot(id, kind, phrase, now));
    }
  }

  /** The phrase is stored as the youngest entry, under the reported id. */
  ghost predicate Kept(d: Digests, next: Store, reply: PutReply, phrase: string) {
    && Good(d, next) && (reply.Refreshed? || reply.Added?)
    && next.slots != [] && next.slots[|next.slots| - 1].id == reply.id && next.slots[|next.slots| - 1].entry.phrase == phrase
  }

  lemma FoundHasPhrase(slots: seq<Slot>, phrase: string)
    requires FindByPhrase(slots, phrase).Some? && NoDuplicates(Ids(slots))
    ensures SlotOf(slots, FindByPhrase(slots, phrase).value).Some?
    ensures SlotOf(slots, FindByPhrase(slots, phrase).value).value.entry.phrase == phrase
  {
    FoundIsThere(slots, phrase);
    var i :| 0 <= i < |slots| && slots[i].id == FindByPhrase(slots, phrase).value && slots[i].entry.phrase == phrase;
    var slot := SlotOf(slots, slots[i].id).value;
    var j :| 0 <= j < |slots| && slots[j] == slot;
    assert Ids(slots)[i] == Ids(slots)[j];
  }

  lemma AddedKeeps(d: Digests, s: Store, slot: Slot)
    requires Good(d, s) && SlotOf(s.slots, slot.id).None? && slot.id != "" && slot.entry.phrase != ""
    requires FindByPhrase(s.slots, slot.entry.phrase).None? && Fits(d, s.bloom, Phrases(s.slots) + [slot.entry.phrase])
    ensures var (next, reply) := Trim(d, AddSlot(d, s, slot), slot.id, Added(slot.id));
            Good(d, next) && next.slots != [] && next.slots[|next.slots| - 1] == slot && reply == Added(slot.id)
  {
    ScanFinds(s.slots, slot.entry.phrase);
    NewSlotKeeps(d, s, slot);
    CapDropsOldest(d, AddSlot(d, s, slot));
    YoungestIsThere(Trim(d, AddSlot(d, s, slot), slot.id, Added(slot.id)).0.slots, slot);
  }

  lemma YoungestIsThere(slots: seq<Slot>, slot: Slot)
    requires slots != [] && slots[|slots| - 1] == slot
    ensures SlotOf(slots, slot.id).Some?
  {
    assert slots[|slots| - 1] in slots;
  }

  /** Re-using an id keeps the filter in step exactly if the old and the new phrase probe the same
      counters equally often. */
  lemma ReuseKeepsStepIff(d: Digests, s: Store, kind: string, phrase: string, forced: string, now: int)
    requires Good(d, s) && !Unusable(phrase) && !PutIsFresh(s, phrase, forced)
    ensures var (next, reply) := Put(d, s, kind, phrase, forced, now);
            && reply.Updated? && SlotOf(s.slots, reply.id).Some?
            && (InStep(d, next.bloom, Phrases(next.slots))
                <==> SameProbes(d, s.bloom, SlotOf(s.slots, reply.id).value.entry.phrase, phrase))
  {
    var id := ChooseId(s, forced).0;
    var slot := SlotOf(s.slots, id).value;
    var entry := slot.entry.(phrase := phrase, kind := kind, hits := slot.entry.hits + 1, last := now);
    ReuseRenames(d, s, kind, phrase, forced, now, id, slot, entry);
    ReusedInStep(d, s, id, slot, entry, phrase);
    AskedInStep(d, s.bloom, phrase, Phrases(Refresh(s.slots, id, entry)));
  }

  /** What a put does that re-uses an id. */
  lemma ReuseRenames(d: Digests, s: Store, kind: string, phrase: string, forced: string, now: int, id: string, slot: Slot, entry: Entry)
    requires Good(d, s) && !Unusable(phrase) && !PutIsFresh(s, phrase, forced) && id == ChooseId(s, forced).0
    requires SlotOf(s.slots, id) == Some(slot)
    requires entry == slot.entry.(phrase := phrase, kind := kind, hits := slot.entry.hits + 1, last := now)
    ensures var (next, reply) := Put(d, s, kind, phrase, forced, now);
            reply == Updated(id) && next.slots == Refresh(s.slots, id, entry) && next.bloom == Asked(d, s.bloom, phrase)
  {
    PutUngated(d, s, kind, phrase, forced, now);
    RefreshMembers(s.slots, id, entry);
  }

  lemma ReusedInStep(d: Digests, s: Store, id: string, slot: Slot, entry: Entry, phrase: string)
    requires Good(d, s) && SlotOf(s.slots, id) == Some(slot) && entry.phrase == phrase
    ensures InStep(d, s.bloom, Phrases(Refresh(s.slots, id, entry))) <==> SameProbes(d, s.bloom, slot.entry.phrase, phrase)
  {
    RefreshMembers(s.slots, id, entry);
    ReplacedWeights(d, s.bloom, Phrases(s.slots), Phrases(Drop(s.slots, id)), slot.entry.phrase, phrase);
  }

  lemma AskedInStep(d: Digests, b: Bloom, phrase: string, phrases: seq<string>)
    requires Shaped(b)
    ensures InStep(d, Asked(d, b, phrase), phrases) <==> InStep(d, b, phrases)
  {
    UpdatesStayShaped(d, b, phrase);
  }

  lemma ReplacedAt(d: Digests, b: Bloom, phrases: seq<string>, rest: seq<string>, replaced: string, replacement: string, j: nat)
    requires InStep(d, b, phrases) && multiset(phrases) == multiset(rest) + multiset{replaced} && j < b.m
    ensures b.counters[j] == Weight(d, b.m, b.k, rest + [replacement], j)
            <==> Count(Indexes(d, b.m, b.k, replaced), j) == Count(Indexes(d, b.m, b.k, replacement), j)
  {
    assert multiset(phrases) == multiset(rest + [replaced]);
    WeightOfMembers(d, b.m, b.k, phrases, rest + [replaced], j);
    WeightAppend(d, b.m, b.k, rest, replaced, j);
    WeightAppend(d, b.m, b.k, rest, replacement, j);
  }

  lemma ReplacedWeights(d: Digests, b: Bloom, phrases: seq<string>, rest: seq<string>, replaced: string, replacement: string)
    requires InStep(d, b, phrases) && multiset(phrases) == multiset(rest) + multiset{replaced}
    ensures InStep(d, b, rest + [replacement]) <==> SameProbes(d, b, replaced, replacement)
  {
    forall j: nat | j < b.m
      ensures b.counters[j] == Weight(d, b.m, b.k, rest + [replacement], j) <==> SameProbe(d, b, replaced, replacement, j)
    {
      ReplacedAt(d, b, phrases, rest, replaced, replacement, j);
    }
  }

  predicate SameProbe(d: Digests, b: Bloom, p: string, q: string, j: nat)
    requires b.m > 0
  {
    Count(Indexes(d, b.m, b.k, p), j) == Count(Indexes(d, b.m, b.k, q), j)
  }

  /** The two phrases probe every counter equally often. */
  predicate SameProbes(d: Digests, b: Bloom, p: string, q: string)
    requires b.m > 0
  {
    forall j :: 0 <= j < b.m ==> SameProbe(d, b, p, q, j)
  }

  // ---- files --------------------------------------------------------------------------

  lemma InStepIsNotBlank(d: Digests, s: Store)
    requires Good(d, s) && s.slots != []
    ensures !Blank(s.bloom)
  {
    var p := Phrases(s.slots)[0];
    assert p in Phrases(s.slots);
    StoredIsContained(d, s.bloom, Phrases(s.slots), p);
    assert s.bloom.counters[Probe(d, s.bloom.m, p, 0)] != 0;
  }

  /** Saving and loading keeps everything but the order, which becomes the order of age. */
  lemma LoadOfSave(env: Env, s: Store, cap: int)
    requires Good(env.d, s)
    ensures Load(env, Save(s), cap) == s.(slots := Sort(ByAge(env), s.slots))
    ensures Good(env.d, Load(env, Save(s), cap))
  {
    JsonRoundTrip(s.bloom);
    var slots := Sort(ByAge(env), s.slots);
    SortMembers(ByAge(env), s.slots);
    IdsOfMembers(s.slots, slots);
    if slots != [] { InStepIsNotBlank(env.d, s); }
    SameMembersDistinct(Ids(s.slots), Ids(slots));
    SameMembersDistinct(Phrases(s.slots), Phrases(slots));
    MembersKeepStep(env.d, s.bloom, Phrases(s.slots), Phrases(slots));
    NamesStay(s.slots, slots);
  }

  // ---- runs ---------------------------------------------------------------------------

  ghost predicate GoodWorld(env: Env, w: World) {
    Good(env.d, Session(env, w)) && Good(env.d, User(env, w))
  }

  /** A put that takes no id of another entry, and whose phrase still fits under the counters. */
  ghost predicate Careful(env: Env, w: World, c: Command) {
    c.DoPut? && !Unusable(c.phrase) ==>
      var s := Session(env, w);
      PutIsFresh(s, c.phrase, c.forced)
      && (FindByPhrase(s.slots, c.phrase).None? ==> Fits(env.d, s.bloom, Phrases(s.slots) + [c.phrase]))
  }

  lemma EvictKeeps(d: Digests, s: Store, n: int)
    requires Good(d, s)
    ensures Good(d, Evict(d, s, n))
  {
    EvictDropsOldest(d, s, n);
  }

  lemma LookKeeps(env: Env, s: Store, f: Option<File>, key: string, cap: int)
    requires Good(env.d, s) && s == Load(env, f, cap)
    ensures Good(env.d, Load(env, SaveIf(Look(env.d, s, key).1, f), cap))
  {
    AskedKeeps(env.d, s, key);
    if SlotOf(s.slots, key).None? { LoadOfSave(env, s.(bloom := Asked(env.d, s.bloom, key)), cap); }
  }

  lemma StepKeepsGood(env: Env, w: World, c: Command)
    requires GoodWorld(env, w) && Careful(env, w, c)
    ensures GoodWorld(env, Do(env, w, c))
  {
    var s, u := Session(env, w), User(env, w);
    match c
    case DoPut(kind, phrase, forced, now) =>
      if !Unusable(phrase) {
        PutKeeps(env.d, s, kind, phrase, forced, now);
        LoadOfSave(env, Put(env.d, s, kind, phrase, forced, now).0, env.sessionCap);
      }
    case DoHit(id, now) =>
      HitKeeps(env.d, s, id, now);
      HitKeeps(env.d, u, id, now);
      LoadOfSave(env, Hit(s, id, now), env.sessionCap);
      LoadOfSave(env, Hit(u, id, now), env.userCap);
    case DoGet(key) => GetKeeps(env, w, key);
    case DoEvict(n) =>
      EvictKeeps(env.d, s, n);
      LoadOfSave(env, Evict(env.d, s, n), env.sessionCap);
  }

  lemma GetKeeps(env: Env, w: World, key: string)
    requires GoodWorld(env, w)
    ensures GoodWorld(env, Get(env, w, key).0)
  {
    LookKeeps(env, Session(env, w), w.session, key, env.sessionCap);
    LookKeeps(env, User(env, w), w.user, key, env.userCap);
  }

  function Run(env: Env, w: World, cs: seq<Command>): World {
    if cs == [] then w else Do(env, Run(env, w, cs[..|cs| - 1]), cs[|cs| - 1])
  }

  ghost predicate CarefulRun(env: Env, w: World, cs: seq<Command>) {
    forall i :: 0 <= i < |cs| ==> Careful(env, Run(env, w, cs[..i]), cs[i])
  }

  /** Over every careful run, from good files or none, with saving and loading between commands:
      ids and phrases stay distinct, the cap holds, and each counter is the summed weight of the
      stored phrases. */
  lemma {:induction false} RunsStayGood(env: Env, w: World, cs: seq<Command>)
    requires GoodWorld(env, w) && CarefulRun(env, w, cs)
    ensures GoodWorld(env, Run(env, w, cs))
  {
    if cs != [] {
      var n := |cs| - 1;
      CarefulPrefix(env, w, cs, n);
      RunsStayGood(env, w, cs[..n]);
      assert cs[..n] == cs[..|cs| - 1];
      StepKeepsGood(env, Run(env, w, cs[..n]), cs[n]);
    }
  }

  lemma CarefulPrefix(env: Env, w: World, cs: seq<Command>, n: nat)
    requires CarefulRun(env, w, cs) && n <= |cs|
    ensures CarefulRun(env, w, cs[..n])
  {
    forall i | 0 <= i < n ensures Careful(env, Run(env, w, cs[..n][..i]), cs[..n][i]) {
      assert cs[..n][..i] == cs[..i];
    }
  }

  lemma NoFilesIsGood(env: Env)
    requires 1 <= env.sessionCap && 1 <= env.userCap
    ensures GoodWorld(env, World(None, None))
  {
  }

  // ---- answers ------------------------------------------------------------------------

  /** The same lookup by a plain scan, without any filter. */
  function PlainLook(s: Store, key: string): Option<Slot> {
    if SlotOf(s.slots, key).Some? then SlotOf(s.slots, key)
    else
      var found := FindByPhrase(s.slots, key);
      if found.Some? && found.value != "" then SlotOf(s.slots, found.value) else None
  }

  function PlainGet(env: Env, w: World, key: string): Option<Slot> {
    var here := PlainLook(Session(env, w), key);
    if here.Some? then here else PlainLook(User(env, w), key)
  }

  /** After every careful run, every lookup answers what a scan of both stores answers. */
  lemma GetAnswersAsScan(env: Env, w: World, cs: seq<Command>, key: string)
    requires GoodWorld(env, w) && CarefulRun(env, w, cs)
    ensures Get(env, Run(env, w, cs), key).1 == PlainGet(env, Run(env, w, cs), key)
  {
    RunsStayGood(env, w, cs);
    var last := Run(env, w, cs);
    GatingIsInvisible(env.d, Session(env, last), key);
    GatingIsInvisible(env.d, User(env, last), key);
  }

  /** Directly after a careful put, the phrase is found, even through save and load, unless it
      happens to be the id of an entry. */
  lemma PutThenGet(env: Env, w: World, kind: string, phrase: string, forced: string, now: int)
    requires GoodWorld(env, w) && Careful(env, w, DoPut(kind, phrase, forced, now)) && !Unusable(phrase)
    ensures var next := Do(env, w, DoPut(kind, phrase, forced, now));
            var answer := Get(env, next, phrase).1;
            answer.Some? && (answer.value.entry.phrase == phrase || answer.value.id == phrase)
  {
    var s := Session(env, w);
    var (stored, reply) := Put(env.d, s, kind, phrase, forced, now);
    PutKeeps(env.d, s, kind, phrase, forced, now);
    LoadOfSave(env, stored, env.sessionCap);
    var loaded := Session(env, Do(env, w, DoPut(kind, phrase, forced, now)));
    SortedStillThere(env, stored.slots, phrase);
    GatingIsInvisible(env.d, loaded, phrase);
    FoundHasPhrase(loaded.slots, phrase);
    ScanNamesNoBlank(env.d, loaded, phrase);
  }

  lemma SortedStillThere(env: Env, slots: seq<Slot>, phrase: string)
    requires slots != [] && slots[|slots| - 1].entry.phrase == phrase
    ensures FindByPhrase(Sort(ByAge(env), slots), phrase).Some?
  {
    var sorted := Sort(ByAge(env), slots);
    SortMembers(ByAge(env), slots);
    IdsOfMembers(slots, sorted);
    ScanFinds(sorted, phrase);
    assert Phrases(slots)[|slots| - 1] == phrase;
    assert phrase in multiset(Phrases(sorted));
  }

  // ---- how a put ends -----------------------------------------------------------------

  /** A put of a phrase that is not found never returns below a negative cap, raises at cap zero,
      because its own entry is gone when the reply reads it back, and succeeds otherwise. */
  lemma PutEndsByCap(d: Digests, s: Store, kind: string, phrase: string, forced: string, now: int)
    requires Shaped(s.bloom) && !Unusable(phrase) && GatedFind(d, s, phrase).None?
    ensures var (next, reply) := Put(d, s, kind, phrase, forced, now);
            && (reply.Endless? <==> s.cap < 0)
            && (reply.Lost? <==> s.cap == 0)
            && (reply.Added? || reply.Updated? <==> s.cap >= 1)
            && (s.cap == 0 ==> next.slots == [])
            && (s.cap >= 1 ==> SlotOf(next.slots, reply.id).Some?)
  {
    var asked := s.(bloom := Asked(d, s.bloom, phrase));
    UpdatesStayShaped(d, s.bloom, phrase);
    var (id, named) := ChooseId(asked, forced);
    match SlotOf(named.slots, id)
    case Some(slot) => TrimEndsByCap(d, Rename(named, slot, kind, phrase, now), id, Updated(id));
    case None => TrimEndsByCap(d, AddSlot(d, named, NewSlot(id, kind, phrase, now)), id, Added(id));
  }

  lemma TrimEndsByCap(d: Digests, s: Store, id: string, reply: PutReply)
    requires Shaped(s.bloom) && s.slots != [] && s.slots[|s.slots| - 1].id == id
    ensures var (next, r) := Trim(d, s, id, reply);
            && r == (if s.cap < 0 then Endless else if s.cap == 0 then Lost(id) else reply)
            && (s.cap == 0 ==> next.slots == [])
            && (s.cap >= 1 ==> SlotOf(next.slots, id).Some?)
  {
    CapDropsOldest(d, s);
    if s.cap >= 1 {
      var kept := EnsureCap(d, s).slots;
      YoungestIsThere(kept, kept[|kept| - 1]);
    }
  }

  // ---- automatic ids ------------------------------------------------------------------

  function AutoId(n: nat): string { "s" + Dec(n) }

  lemma AutoIdsDiffer(m: nat, n: nat)
    requires AutoId(m) == AutoId(n)
    ensures m == n
  {
    assert AutoId(m)[1..] == Dec(m) && AutoId(n)[1..] == Dec(n);
    DecInjective(m, n);
  }

  /** Ids of the automatic form carry numbers that the counter has passed. */
  ghost predicate IdsPassed(slots: seq<Slot>, nextId: nat) {
    forall slot, n: nat :: slot in slots && slot.id == AutoId(n) ==> n < nextId
  }

  ghost predicate Passed(s: Store) { IdsPassed(s.slots, s.nextId) }

  /** No put forces an id of the automatic form. */
  ghost predicate PlainIds(cs: seq<Command>) {
    forall i, n: nat :: 0 <= i < |cs| && cs[i].DoPut? ==> cs[i].forced != AutoId(n)
  }

  /** The next automatic id is not taken. */
  lemma NextIdIsFree(s: Store)
    requires Passed(s)
    ensures SlotOf(s.slots, ChooseId(s, "").0).None?
  {
    assert ChooseId(s, "").0 == AutoId(s.nextId);
  }

  lemma {:induction false} DropIsPart(slots: seq<Slot>, id: string)
    ensures forall slot :: slot in Drop(slots, id) ==> slot in slots
  {
    if slots != [] { DropIsPart(slots[1..], id); }
  }

  lemma RefreshPasses(slots: seq<Slot>, slot: Slot, entry: Entry, nextId: nat)
    requires IdsPassed(slots, nextId) && slot in slots
    ensures IdsPassed(Refresh(slots, slot.id, entry), nextId)
  {
    DropIsPart(slots, slot.id);
  }

  lemma HitPasses(s: Store, id: string, now: int)
    requires Passed(s)
    ensures Passed(Hit(s, id, now))
  {
    if SlotOf(s.slots, id).Some? {
      var slot := SlotOf(s.slots, id).value;
      RefreshPasses(s.slots, slot, slot.entry.(hits := slot.entry.hits + 1, last := now), s.nextId);
    }
  }

  lemma {:induction false} EvictPasses(d: Digests, s: Store, n: int)
    requires Shaped(s.bloom) && Passed(s)
    ensures Passed(Evict(d, s, n))
    decreases |s.slots|
  {
    if n > 0 && s.slots != [] { EvictPasses(d, EvictOne(d, s), n - 1); }
  }

  lemma TrimPasses(d: Digests, s: Store, id: string, reply: PutReply)
    requires Shaped(s.bloom) && Passed(s)
    ensures Passed(Trim(d, s, id, reply).0)
  {
    if s.cap >= 0 {
      CapDropsOldest(d, s);
      EvictPasses(d, s, Max(0, |s.slots| - s.cap));
    }
  }

  lemma PutPasses(d: Digests, s: Store, kind: string, phrase: string, forced: string, now: int)
    requires Shaped(s.bloom) && Passed(s) && forall n: nat :: forced != AutoId(n)
    ensures Passed(Put(d, s, kind, phrase, forced, now).0)
  {
    if !Unusable(phrase) {
      UpdatesStayShaped(d, s.bloom, phrase);
      KnowingPasses(d, s.(bloom := Asked(d, s.bloom, phrase)), GatedFind(d, s, phrase), kind, phrase, forced, now);
    }
  }

  lemma KnowingPasses(d: Digests, s: Store, existing: Option<string>, kind: string, phrase: string, forced: string, now: int)
    requires Shaped(s.bloom) && Passed(s) && forall n: nat :: forced != AutoId(n)
    ensures Passed(PutKnowing(d, s, existing, kind, phrase, forced, now).0)
  {
    if existing.Some? && existing.value != "" {
      HitPasses(s, existing.value, now);
    } else {
      var (id, named) := ChooseId(s, forced);
      match SlotOf(named.slots, id)
      case Some(slot) =>
        RefreshPasses(named.slots, slot, slot.entry.(phrase := phrase, kind := kind, hits := slot.entry.hits + 1, last := now), named.nextId);
        TrimPasses(d, Rename(named, slot, kind, phrase, now), id, Updated(id));
      case None =>
        NewSlotPasses(d, s, id, named, NewSlot(id, kind, phrase, now), forced);
        TrimPasses(d, AddSlot(d, named, NewSlot(id, kind, phrase, now)), id, Added(id));
    }
  }

  lemma NewSlotPasses(d: Digests, s: Store, id: string, named: Store, slot: Slot, forced: string)
    requires Shaped(s.bloom) && Passed(s) && (id, named) == ChooseId(s, forced) && slot.id == id
    requires forall n: nat :: forced != AutoId(n)
    ensures Passed(AddSlot(d, named, slot))
  {
    forall n: nat | id == AutoId(n) ensures n < named.nextId {
      if forced == "" {
        assert id == AutoId(s.nextId);
        AutoIdsDiffer(n, s.nextId);
      }
    }
  }

  lemma SavedPasses(env: Env, s: Store, cap: int)
    requires Passed(s)
    ensures Passed(Load(env, Save(s), cap))
  {
    SortMembers(ByAge(env), s.slots);
    MembersAgree(Sort(ByAge(env), s.slots), s.slots);
  }

  lemma StepPasses(env: Env, w: World, c: Command)
    requires Passed(Session(env, w)) && (c.DoPut? ==> forall n: nat :: c.forced != AutoId(n))
    ensures Passed(Session(env, Do(env, w, c)))
  {
    var s := Session(env, w);
    match c
    case DoPut(kind, phrase, forced, now) =>
      PutPasses(env.d, s, kind, phrase, forced, now);
      SavedPasses(env, Put(env.d, s, kind, phrase, forced, now).0, env.sessionCap);
    case DoHit(id, now) =>
      HitPasses(s, id, now);
      SavedPasses(env, Hit(s, id, now), env.sessionCap);
    case DoGet(key) => SavedPasses(env, s.(bloom := Asked(env.d, s.bloom, key)), env.sessionCap);
    case DoEvict(n) =>
      EvictPasses(env.d, s, n);
      SavedPasses(env, Evict(env.d, s, n), env.sessionCap);
  }

  lemma {:induction false} RunPasses(env: Env, w: World, cs: seq<Command>)
    requires Passed(Session(env, w)) && PlainIds(cs)
    ensures Passed(Session(env, Run(env, w, cs)))
  {
    if cs != [] {
      RunPasses(env, w, cs[..|cs| - 1]);
      StepPasses(env, Run(env, w, cs[..|cs| - 1]), cs[|cs| - 1]);
    }
  }

  /** If no put forces an id of the automatic form, then in every run from no files no automatic id
      is ever taken: a put without a forced id never re-uses one. */
  lemma AutomaticIdsAreFree(env: Env, cs: seq<Command>, phrase: string)
    requires PlainIds(cs)
    ensures var s := Session(env, Run(env, World(None, None), cs));
            SlotOf(s.slots, ChooseId(s, "").0).None? && PutIsFresh(s, phrase, "")
  {
    RunPasses(env, World(None, None), cs);
    NextIdIsFree(Session(env, Run(env, World(None, None), cs)));
  }

  /** Every put leaves its id to the store, and each new phrase still fits under the counters. */
  ghost predicate AutomaticRun(env: Env, cs: seq<Command>) {
    forall i :: 0 <= i < |cs| && cs[i].DoPut? ==>
      cs[i].forced == "" && (Unusable(cs[i].phrase) || Fitting(env, Run(env, World(None, None), cs[..i]), cs[i].phrase))
  }

  ghost predicate Fitting(env: Env, w: World, phrase: string) {
    var s := Session(env, w);
    FindByPhrase(s.slots, phrase).None? ==> Fits(env.d, s.bloom, Phrases(s.slots) + [phrase])
  }

  /** From no files, a run whose puts leave their ids to the store is careful by itself: only the
      counters bound it. */
  lemma AutomaticRunsStayGood(env: Env, cs: seq<Command>)
    requires 1 <= env.sessionCap && 1 <= env.userCap && AutomaticRun(env, cs)
    ensures GoodWorld(env, Run(env, World(None, None), cs))
  {
    NoFilesIsGood(env);
    forall i | 0 <= i < |cs| ensures Careful(env, Run(env, World(None, None), cs[..i]), cs[i]) {
      assert PlainIds(cs[..i]);
      if cs[i].DoPut? { AutomaticIdsAreFree(env, cs[..i], cs[i].phrase); }
    }
    RunsStayGood(env, World(None, None), cs);
  }
}
