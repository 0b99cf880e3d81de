/** The use of codebook entries: what a command does to the entry that it uses and to all others, how
    hits are counted over runs, and that eviction takes the least recently used. */
module CodebookUses {
  import opened Common
  import opened Sorting
  import opened Decimal
  import opened CountingBlooms
  import opened Codebooks
  import opened CodebookRuns
  import opened CodebookTheorems

  // ---- one use ------------------------------------------------------------------------------

  /** The entry after one more use: one more hit, the time of the use, all else as it was. */
  function UsedSlot(slot: Slot, now: int): Slot {
    Slot(slot.id, Entry(slot.entry.phrase, slot.entry.kind, slot.entry.hits + 1, slot.entry.created, now))
  }

  /** The same entries in the same order, but that the i-th is replaced and is now the youngest. */
  function Renewed(slots: seq<Slot>, i: nat, slot: Slot): seq<Slot>
    requires i < |slots|
  {
    slots[..i] + slots[i + 1..] + [slot]
  }

  lemma {:induction false} DropAt(slots: seq<Slot>, i: nat)
    requires i < |slots| && NoDuplicates(Ids(slots))
    ensures Drop(slots, slots[i].id) == slots[..i] + slots[i + 1..]
    ensures SlotOf(slots, slots[i].id) == Some(slots[i])
  {
    assert slots == [slots[0]] + slots[1..] && Ids(slots)[1..] == Ids(slots[1..]);
    if i == 0 {
      forall j | 0 <= j < |slots| - 1 ensures slots[1..][j].id != slots[0].id {
        assert Ids(slots)[j + 1] != Ids(slots)[0];
      }
      NothingToDrop(slots[1..], slots[0].id);
    } else {
      assert Ids(slots)[0] != Ids(slots)[i];
      DropAt(slots[1..], i - 1);
      assert slots[..i] == [slots[0]] + slots[1..][..i - 1];
    }
  }

  /** A hit adds one to the entry's hits, stamps it and makes it the youngest; it changes no other
      entry and nothing else of the store. An id that is not there changes nothing. */
  lemma HitCountsUse(s: Store, id: string, now: int)
    requires NoDuplicates(Ids(s.slots))
    ensures (forall slot :: slot in s.slots ==> slot.id != id) ==> Hit(s, id, now) == s
    ensures forall i: nat :: i < |s.slots| && s.slots[i].id == id ==>
              Hit(s, id, now) == s.(slots := Renewed(s.slots, i, UsedSlot(s.slots[i], now)))
  {
    forall i: nat | i < |s.slots| && s.slots[i].id == id
      ensures Hit(s, id, now) == s.(slots := Renewed(s.slots, i, UsedSlot(s.slots[i], now)))
    {
      DropAt(s.slots, i);
    }
  }

  // ---- a put ----------------------------------------------------------------------------------

  /** A text of at least thirty-two hexadecimal digits and nothing else. */
  ghost predicate LooksLikeDigest(phrase: string) {
    |phrase| >= 32 && forall c :: c in phrase ==> c in "0123456789abcdefABCDEF"
  }

  lemma HashLikeIsDigest(phrase: string)
    ensures HashLike(phrase) <==> LooksLikeDigest(phrase)
  {
    if HashLike(phrase) {
      forall c | c in phrase ensures c in "0123456789abcdefABCDEF" { HexDigit(c); }
    }
    if LooksLikeDigest(phrase) {
      forall i | 0 <= i < |phrase| ensures IsHex(phrase[i]) { HexDigit(phrase[i]); }
    }
  }

  lemma HexDigit(c: char)
    ensures IsHex(c) <==> c in "0123456789abcdefABCDEF"
  {
    var digits := "0123456789abcdefABCDEF";
    if IsHex(c) {
      var i := if c <= '9' then c as int - '0' as int else if 'a' <= c then c as int - 'a' as int + 10 else c as int - 'A' as int + 16;
      assert digits[i] == c;
    }
  }

  /** What a put does to a store that knows the phrase: it uses the entry that has it. */
  ghost predicate UsesPhrase(s: Store, phrase: string, now: int, next: Store, reply: PutReply) {
    forall i: nat :: i < |s.slots| && s.slots[i].entry.phrase == phrase ==>
      reply == Refreshed(s.slots[i].id) && next == s.(bloom := next.bloom, slots := Renewed(s.slots, i, UsedSlot(s.slots[i], now)))
  }

  /** What it does to a store that does not: under the forced or else the next automatic id, the
      entry of that id gets the phrase and one more hit; without one, a new entry with one hit is
      appended, for which at the cap the oldest entry goes. */
  ghost predicate StoresPhrase(s: Store, kind: string, phrase: string, forced: string, now: int, next: Store, reply: PutReply) {
    var id := if forced != "" then forced else "s" + Dec(s.nextId);
    && next.nextId == (if forced != "" then s.nextId else s.nextId + 1) && next.cap == s.cap
    && (forall i: nat :: i < |s.slots| && s.slots[i].id == id ==>
          && reply == Updated(id)
          && next.slots == Renewed(s.slots, i, Slot(id, Entry(phrase, kind, s.slots[i].entry.hits + 1, s.slots[i].entry.created, now))))
    && ((forall slot :: slot in s.slots ==> slot.id != id) ==>
          && reply == Added(id)
          && next.slots == Youngest(s.slots + [Slot(id, Entry(phrase, kind, 1, now, now))], s.cap))
  }

  /** The youngest entries, as many as the cap. */
  function Youngest(slots: seq<Slot>, cap: int): seq<Slot> {
    if 0 <= cap < |slots| then slots[|slots| - cap..] else slots
  }

  /** What a put does with a phrase that it takes. */
  ghost predicate Takes(s: Store, kind: string, phrase: string, forced: string, now: int, next: Store, reply: PutReply) {
    && reply != Rejected && reply != Skipped
    && UsesPhrase(s, phrase, now, next, reply)
    && ((forall slot :: slot in s.slots ==> slot.entry.phrase != phrase) ==> StoresPhrase(s, kind, phrase, forced, now, next, reply))
  }

  /** How a put ends, by its input: refused if the phrase is empty or too long, skipped if it looks like
      a digest, a use of the entry with the phrase if there is one, and otherwise stored. */
  lemma PutCountsUse(d: Digests, s: Store, kind: string, phrase: string, forced: string, now: int)
    requires Good(d, s)
    ensures var (next, reply) := Put(d, s, kind, phrase, forced, now);
            if |phrase| == 0 || |phrase| > 2048 then next == s && reply == Rejected
            else if LooksLikeDigest(phrase) then next == s && reply == Skipped
            else Takes(s, kind, phrase, forced, now, next, reply)
  {
    HashLikeIsDigest(phrase);
    if !Unusable(phrase) {
      PutUngated(d, s, kind, phrase, forced, now);
      var asked := s.(bloom := Asked(d, s.bloom, phrase));
      if FindByPhrase(s.slots, phrase).Some? {
        PhraseIsUsed(d, s, asked, kind, phrase, forced, now);
      } else {
        PhraseIsNew(d, s, asked, kind, phrase, forced, now);
      }
    }
  }

  lemma PhraseIsNew(d: Digests, s: Store, asked: Store, kind: string, phrase: string, forced: string, now: int)
    requires Good(d, s) && asked == s.(bloom := asked.bloom) && Shaped(asked.bloom) && FindByPhrase(s.slots, phrase).None?
    ensures var (next, reply) := PutKnowing(d, asked, None, kind, phrase, forced, now); Takes(s, kind, phrase, forced, now, next, reply)
  {
    ScanFinds(s.slots, phrase);
    PhrasesAre(s.slots, phrase);
    PhraseIsStored(d, s, asked, kind, phrase, forced, now);
    forall i: nat | i < |s.slots| ensures s.slots[i].entry.phrase != phrase { assert s.slots[i] in s.slots; }
  }

  lemma PhrasesAre(slots: seq<Slot>, phrase: string)
    ensures phrase in Phrases(slots) <==> exists slot :: slot in slots && slot.entry.phrase == phrase
  {
    if phrase in Phrases(slots) {
      var i :| 0 <= i < |slots| && Phrases(slots)[i] == phrase;
      assert slots[i] in slots;
    }
    if slot :| slot in slots && slot.entry.phrase == phrase {
      var i :| 0 <= i < |slots| && slots[i] == slot;
      assert Phrases(slots)[i] == phrase;
    }
  }

  lemma PhraseIsUsed(d: Digests, s: Store, asked: Store, kind: string, phrase: string, forced: string, now: int)
    requires Good(d, s) && asked == s.(bloom := asked.bloom) && Shaped(asked.bloom) && FindByPhrase(s.slots, phrase).Some?
    ensures var (next, reply) := PutKnowing(d, asked, FindByPhrase(s.slots, phrase), kind, phrase, forced, now);
            Takes(s, kind, phrase, forced, now, next, reply)
  {
    ScanNamesNoBlank(d, s, phrase);
    FoundIsThere(s.slots, phrase);
    var j: nat :| j < |s.slots| && s.slots[j].id == FindByPhrase(s.slots, phrase).value && s.slots[j].entry.phrase == phrase;
    assert s.slots[j] in s.slots;
    HitAt(asked, j, now);
    forall i: nat | i < |s.slots| && s.slots[i].entry.phrase == phrase ensures i == j { PhraseIsOnce(s.slots, i, j); }
  }

  lemma HitAt(s: Store, i: nat, now: int)
    requires NoDuplicates(Ids(s.slots)) && i < |s.slots|
    ensures Hit(s, s.slots[i].id, now) == s.(slots := Renewed(s.slots, i, UsedSlot(s.slots[i], now)))
  {
    HitCountsUse(s, s.slots[i].id, now);
  }

  lemma PhraseIsOnce(slots: seq<Slot>, i: nat, j: nat)
    requires NoDuplicates(Phrases(slots)) && i < |slots| && j < |slots| && slots[i].entry.phrase == slots[j].entry.phrase
    ensures i == j
  {
    assert Phrases(slots)[i] == Phrases(slots)[j];
  }

  lemma IdIsOnce(slots: seq<Slot>, i: nat, j: nat)
    requires NoDuplicates(Ids(slots)) && i < |slots| && j < |slots| && slots[i].id == slots[j].id
    ensures i == j
  {
    assert Ids(slots)[i] == Ids(slots)[j];
  }

  lemma PhraseIsStored(d: Digests, s: Store, asked: Store, kind: string, phrase: string, forced: string, now: int)
    requires Distinct(s.slots) && asked == s.(bloom := asked.bloom) && Shaped(asked.bloom) && 1 <= s.cap && |s.slots| <= s.cap
    ensures var (next, reply) := PutKnowing(d, asked, None, kind, phrase, forced, now);
            StoresPhrase(s, kind, phrase, forced, now, next, reply) && (reply.Updated? || reply.Added?)
  {
    var (id, named) := ChooseId(asked, forced);
    match SlotOf(s.slots, id)
    case Some(slot) =>
      var i: nat :| i < |s.slots| && s.slots[i] == slot;
      EntryIsReused(d, asked, named, slot, i, kind, phrase, now);
      ReuseStores(s, i, kind, phrase, forced, now, Trim(d, Rename(named, slot, kind, phrase, now), id, Updated(id)).0);
    case None =>
      EntryIsAdded(d, named, NewSlot(id, kind, phrase, now));
      AdditionStores(s, id, kind, phrase, forced, now, Trim(d, AddSlot(d, named, NewSlot(id, kind, phrase, now)), id, Added(id)).0);
  }

  lemma AdditionStores(s: Store, id: string, kind: string, phrase: string, forced: string, now: int, next: Store)
    requires SlotOf(s.slots, id).None? && id == if forced != "" then forced else "s" + Dec(s.nextId)
    requires next.nextId == (if forced != "" then s.nextId else s.nextId + 1) && next.cap == s.cap
    requires next.slots == Youngest(s.slots + [Slot(id, Entry(phrase, kind, 1, now, now))], s.cap)
    ensures StoresPhrase(s, kind, phrase, forced, now, next, Added(id))
  {
    forall j: nat | j < |s.slots| ensures s.slots[j].id != id { assert s.slots[j] in s.slots; }
  }

  lemma ReuseStores(s: Store, i: nat, kind: string, phrase: string, forced: string, now: int, next: Store)
    requires NoDuplicates(Ids(s.slots)) && i < |s.slots| && s.slots[i].id == if forced != "" then forced else "s" + Dec(s.nextId)
    requires next.nextId == (if forced != "" then s.nextId else s.nextId + 1) && next.cap == s.cap
    requires next.slots == Renewed(s.slots, i, Slot(s.slots[i].id, Entry(phrase, kind, s.slots[i].entry.hits + 1, s.slots[i].entry.created, now)))
    ensures StoresPhrase(s, kind, phrase, forced, now, next, Updated(s.slots[i].id))
  {
    forall j: nat | j < |s.slots| && s.slots[j].id == s.slots[i].id ensures j == i { IdIsOnce(s.slots, i, j); }
    assert s.slots[i] in s.slots;
  }

  lemma EntryIsReused(d: Digests, s: Store, named: Store, slot: Slot, i: nat, kind: string, phrase: string, now: int)
    requires NoDuplicates(Ids(s.slots)) && Shaped(s.bloom) && 1 <= s.cap && |s.slots| <= s.cap && named == s.(nextId := named.nextId)
    requires i < |s.slots| && s.slots[i] == slot
    ensures var (next, reply) := Trim(d, Rename(named, slot, kind, phrase, now), slot.id, Updated(slot.id));
            && reply == Updated(slot.id) && next == named.(slots := next.slots)
            && next.slots == Renewed(s.slots, i, Slot(slot.id, Entry(phrase, kind, slot.entry.hits + 1, slot.entry.created, now)))
  {
    DropAt(s.slots, i);
    NothingToTrim(d, Rename(named, slot, kind, phrase, now), slot.id, Updated(slot.id));
  }

  lemma NothingToTrim(d: Digests, s: Store, id: string, reply: PutReply)
    requires Shaped(s.bloom) && 1 <= |s.slots| <= s.cap && s.slots[|s.slots| - 1].id == id
    ensures Trim(d, s, id, reply) == (s, reply)
  {
    YoungestIsThere(s.slots, s.slots[|s.slots| - 1]);
  }

  lemma EntryIsAdded(d: Digests, s: Store, slot: Slot)
    requires Shaped(s.bloom) && 1 <= s.cap && |s.slots| <= s.cap
    ensures var (next, reply) := Trim(d, AddSlot(d, s, slot), slot.id, Added(slot.id));
            && reply == Added(slot.id) && next.nextId == s.nextId && next.cap == s.cap
            && next.slots == Youngest(s.slots + [slot], s.cap)
  {
    var added := AddSlot(d, s, slot);
    CapDropsOldest(d, added);
    EvictKeepsNumber(d, added, Max(0, |added.slots| - added.cap));
    var next := EnsureCap(d, added);
    assert next.slots == Youngest(s.slots + [slot], s.cap);
    YoungestIsThere(next.slots, slot);
  }

  lemma {:induction false} EvictKeepsNumber(d: Digests, s: Store, n: int)
    requires Shaped(s.bloom)
    ensures Evict(d, s, n).nextId == s.nextId
    decreases |s.slots|
  {
    if n > 0 && s.slots != [] { EvictKeepsNumber(d, EvictOne(d, s), n - 1); }
  }

  // ---- uses over runs -------------------------------------------------------------------------

  /** The command uses the session's entry of this id: it hits the id, or puts the entry's phrase. */
  predicate Uses(env: Env, w: World, c: Command, x: string) {
    match c
    case DoPut(kind, phrase, forced, now) =>
      !Unusable(phrase) && SlotOf(Session(env, w).slots, x).Some? && SlotOf(Session(env, w).slots, x).value.entry.phrase == phrase
    case DoHit(id, now) => id == x
    case _ => false
  }

  function UsesOf(env: Env, w: World, cs: seq<Command>, x: string): nat {
    if cs == [] then 0
    else
      var front, last := cs[..|cs| - 1], cs[|cs| - 1];
      UsesOf(env, w, front, x) + if Uses(env, Run(env, w, front), last, x) then 1 else 0
  }

  /** When the entry was last used: the time of the last command that did, or else the time given. */
  function LastUse(env: Env, w: World, cs: seq<Command>, x: string, before: int): int {
    if cs == [] then before
    else
      var front, last := cs[..|cs| - 1], cs[|cs| - 1];
      if Uses(env, Run(env, w, front), last, x) then TimeOf(last) else LastUse(env, w, front, x, before)
  }

  function TimeOf(c: Command): int { if c.DoPut? || c.DoHit? then c.now else 0 }

  lemma SameEntry(slots: seq<Slot>, next: seq<Slot>, x: string)
    requires NoDuplicates(Ids(slots)) && SlotOf(next, x).Some?
    requires forall slot :: slot in next && slot.id == x ==> slot in slots
    ensures SlotOf(slots, x) == SlotOf(next, x)
  {
    var slot := SlotOf(next, x).value;
    var i: nat :| i < |slots| && slots[i] == slot;
    DropAt(slots, i);
  }

  lemma SavedEntry(env: Env, s: Store, cap: int, x: string)
    requires Good(env.d, s)
    ensures SlotOf(Load(env, Save(s), cap).slots, x) == SlotOf(s.slots, x)
  {
    LoadOfSave(env, s, cap);
    var sorted := Sort(ByAge(env), s.slots);
    SortMembers(ByAge(env), s.slots);
    MembersAgree(sorted, s.slots);
    if SlotOf(sorted, x).Some? { SameEntry(s.slots, sorted, x); }
  }

  lemma HitEntry(s: Store, id: string, now: int, x: string)
    requires NoDuplicates(Ids(s.slots)) && SlotOf(s.slots, x).Some?
    ensures SlotOf(Hit(s, id, now).slots, x) == Some(if x == id then UsedSlot(SlotOf(s.slots, x).value, now) else SlotOf(s.slots, x).value)
  {
    var slot := SlotOf(s.slots, x).value;
    var i: nat :| i < |s.slots| && s.slots[i] == slot;
    if SlotOf(s.slots, id).Some? {
      var j: nat :| j < |s.slots| && s.slots[j] == SlotOf(s.slots, id).value;
      HitCountsUse(s, id, now);
      RenewedEntry(s.slots, j, UsedSlot(s.slots[j], now), i);
    }
  }

  lemma RenewedEntry(slots: seq<Slot>, j: nat, slot: Slot, i: nat)
    requires NoDuplicates(Ids(slots)) && i < |slots| && j < |slots| && slot.id == slots[j].id
    ensures SlotOf(Renewed(slots, j, slot), slots[i].id) == Some(if i == j then slot else slots[i])
    ensures SlotOf(slots, slots[i].id) == Some(slots[i])
    ensures i != j ==> slots[i].id != slots[j].id
  {
    var next := Renewed(slots, j, slot);
    DropAt(slots, i);
    assert Ids(slots)[i] == slots[i].id && Ids(slots)[j] == slots[j].id;
    var k: nat := if i < j then i else if i == j then |slots| - 1 else i - 1;
    assert next[k] == if i == j then slot else slots[i];
    RenewedIds(slots, j, slot);
    DropAt(next, k);
  }

  lemma RenewedIds(slots: seq<Slot>, j: nat, slot: Slot)
    requires NoDuplicates(Ids(slots)) && j < |slots| && slot.id == slots[j].id
    ensures NoDuplicates(Ids(Renewed(slots, j, slot)))
  {
    var ids, next := Ids(slots), Ids(Renewed(slots, j, slot));
    forall a, b | 0 <= a < b < |next| ensures next[a] != next[b] {
      var from := if a < j then a else a + 1;
      var to := if b == |slots| - 1 then j else if b < j then b else b + 1;
      assert next[a] == ids[from] && next[b] == ids[to];
    }
  }

  /** What a command does to an entry that stays: a use of it, or nothing. */
  ghost predicate UsedOrNot(env: Env, w: World, c: Command, x: string) {
    var before, after := SlotOf(Session(env, w).slots, x), SlotOf(Session(env, Do(env, w, c)).slots, x);
    before.Some? && after.Some? ==>
      after.value == if Uses(env, w, c, x) then UsedSlot(before.value, TimeOf(c)) else before.value
  }

  lemma PutUses(env: Env, w: World, c: Command, x: string)
    requires GoodWorld(env, w) && Careful(env, w, c) && c.DoPut?
    ensures UsedOrNot(env, w, c, x)
  {
    var s := Session(env, w);
    if !Unusable(c.phrase) && SlotOf(s.slots, x).Some? {
      var next := Put(env.d, s, c.kind, c.phrase, c.forced, c.now).0;
      PutKeeps(env.d, s, c.kind, c.phrase, c.forced, c.now);
      SavedEntry(env, next, env.sessionCap, x);
      if SlotOf(next.slots, x).Some? { PutUsesEntry(env.d, s, c.kind, c.phrase, c.forced, c.now, x); }
    }
  }

  lemma PutUsesEntry(d: Digests, s: Store, kind: string, phrase: string, forced: string, now: int, x: string)
    requires Good(d, s) && !Unusable(phrase) && PutIsFresh(s, phrase, forced)
    requires SlotOf(s.slots, x).Some? && SlotOf(Put(d, s, kind, phrase, forced, now).0.slots, x).Some?
    ensures var slot := SlotOf(s.slots, x).value;
            SlotOf(Put(d, s, kind, phrase, forced, now).0.slots, x) == Some(if slot.entry.phrase == phrase then UsedSlot(slot, now) else slot)
  {
    PutUngated(d, s, kind, phrase, forced, now);
    var asked := s.(bloom := Asked(d, s.bloom, phrase));
    if FindByPhrase(s.slots, phrase).Some? {
      FoundIsUsed(d, asked, phrase, now, x);
    } else {
      ScanFinds(s.slots, phrase);
      PhrasesAre(s.slots, phrase);
      var n, slot := NewDropsFirst(d, s, kind, phrase, forced, now);
      SameEntry(s.slots, s.slots[n..] + [slot], x);
    }
  }

  lemma FoundIsUsed(d: Digests, s: Store, phrase: string, now: int, x: string)
    requires Good(d, s) && FindByPhrase(s.slots, phrase).Some? && SlotOf(s.slots, x).Some?
    ensures FindByPhrase(s.slots, phrase).value != ""
    ensures var slot := SlotOf(s.slots, x).value;
            SlotOf(Hit(s, FindByPhrase(s.slots, phrase).value, now).slots, x) == Some(if slot.entry.phrase == phrase then UsedSlot(slot, now) else slot)
  {
    ScanNamesNoBlank(d, s, phrase);
    FoundHasPhrase(s.slots, phrase);
    HitEntry(s, FindByPhrase(s.slots, phrase).value, now, x);
    var slot, found := SlotOf(s.slots, x).value, SlotOf(s.slots, FindByPhrase(s.slots, phrase).value).value;
    if slot.entry.phrase == phrase {
      var i: nat :| i < |s.slots| && s.slots[i] == slot;
      var j: nat :| j < |s.slots| && s.slots[j] == found;
      PhraseIsOnce(s.slots, i, j);
    }
  }

  lemma HitUses(env: Env, w: World, c: Command, x: string)
    requires GoodWorld(env, w) && c.DoHit?
    ensures UsedOrNot(env, w, c, x)
  {
    var s := Session(env, w);
    if SlotOf(s.slots, x).Some? && SlotOf(s.slots, c.id).Some? {
      HitKeeps(env.d, s, c.id, c.now);
      SavedEntry(env, Hit(s, c.id, c.now), env.sessionCap, x);
      HitEntry(s, c.id, c.now, x);
    }
  }

  lemma LookKeepsEntries(env: Env, s: Store, f: Option<File>, key: string, cap: int, x: string)
    requires Good(env.d, s) && s == Load(env, f, cap)
    ensures SlotOf(Load(env, SaveIf(Look(env.d, s, key).1, f), cap).slots, x) == SlotOf(s.slots, x)
  {
    AskedKeeps(env.d, s, key);
    if SlotOf(s.slots, key).None? { SavedEntry(env, s.(bloom := Asked(env.d, s.bloom, key)), cap, x); }
  }

  lemma GetKeepsEntries(env: Env, w: World, key: string, x: string)
    requires GoodWorld(env, w)
    ensures SlotOf(Session(env, Get(env, w, key).0).slots, x) == SlotOf(Session(env, w).slots, x)
    ensures SlotOf(User(env, Get(env, w, key).0).slots, x) == SlotOf(User(env, w).slots, x)
  {
    LookKeepsEntries(env, Session(env, w), w.session, key, env.sessionCap, x);
    LookKeepsEntries(env, User(env, w), w.user, key, env.userCap, x);
  }

  lemma EvictUses(env: Env, w: World, c: Command, x: string)
    requires GoodWorld(env, w) && c.DoEvict?
    ensures UsedOrNot(env, w, c, x)
  {
    var slots := Session(env, w).slots;
    var k := Min(Max(0, c.n), |slots|);
    EvictedAre(env, w, c, k, x);
    if SlotOf(slots[k..], x).Some? { SameEntry(slots, slots[k..], x); }
  }

  lemma StepUses(env: Env, w: World, c: Command, x: string)
    requires GoodWorld(env, w) && Careful(env, w, c)
    ensures UsedOrNot(env, w, c, x)
  {
    match c
    case DoPut(_, _, _, _) => PutUses(env, w, c, x);
    case DoHit(_, _) => HitUses(env, w, c, x);
    case DoGet(key) => GetKeepsEntries(env, w, key, x);
    case DoEvict(_) => EvictUses(env, w, c, x);
  }

  /** An entry of the user store is used by a hit of its id that the session does not answer, and is
      touched by nothing else. */
  lemma UserEntriesAreUsed(env: Env, w: World, c: Command, x: string)
    requires GoodWorld(env, w) && SlotOf(User(env, w).slots, x).Some?
    ensures var before := SlotOf(User(env, w).slots, x).value;
            SlotOf(User(env, Do(env, w, c)).slots, x)
            == Some(if c.DoHit? && c.id == x && SlotOf(Session(env, w).slots, x).None? then UsedSlot(before, c.now) else before)
  {
    var u := User(env, w);
    match c
    case DoHit(id, now) =>
      HitKeeps(env.d, u, id, now);
      SavedEntry(env, Hit(u, id, now), env.userCap, x);
      HitEntry(u, id, now, x);
    case DoGet(key) =>
      GetKeepsEntries(env, w, key, x);
    case _ =>
  }

  /** The entry is in the session before every command of the run and after the last. */
  ghost predicate StaysIn(env: Env, w: World, cs: seq<Command>, x: string) {
    forall i: nat :: i <= |cs| ==> SlotOf(Session(env, Run(env, w, cs[..i])).slots, x).Some?
  }

  /** The later entry is the earlier one after so many uses, the last at the given time. */
  ghost predicate UsedTimes(before: Option<Slot>, after: Option<Slot>, uses: nat, last: int) {
    before.Some? && after.Some?
    && after.value.entry == before.value.entry.(hits := before.value.entry.hits + uses, last := last)
  }

  function LastOf(slot: Option<Slot>): int { if slot.Some? then slot.value.entry.last else 0 }

  /** Over every careful run, an entry that is not evicted has as many more hits as commands used it and
      the time of the last that did; its phrase, its kind and the time of its making stay. */
  lemma {:induction false} HitsCountUses(env: Env, w: World, cs: seq<Command>, x: string)
    requires GoodWorld(env, w) && CarefulRun(env, w, cs) && StaysIn(env, w, cs, x)
    ensures var first, last := SlotOf(Session(env, w).slots, x), SlotOf(Session(env, Run(env, w, cs)).slots, x);
            UsedTimes(first, last, UsesOf(env, w, cs, x), LastUse(env, w, cs, x, LastOf(first)))
  {
    StaysToTheEnd(env, w, cs, x);
    if cs != [] {
      var front := cs[..|cs| - 1];
      LastCommand(env, w, cs, front, cs[|cs| - 1]);
      HitsCountUses(env, w, front, x);
      var first := SlotOf(Session(env, w).slots, x);
      OneMore(env, Run(env, w, front), cs[|cs| - 1], x, first, UsesOf(env, w, front, x), LastUse(env, w, front, x, LastOf(first)));
    }
  }

  lemma OneMore(env: Env, w: World, c: Command, x: string, first: Option<Slot>, uses: nat, last: int)
    requires GoodWorld(env, w) && Careful(env, w, c) && SlotOf(Session(env, Do(env, w, c)).slots, x).Some?
    requires UsedTimes(first, SlotOf(Session(env, w).slots, x), uses, last)
    ensures var used := Uses(env, w, c, x);
            UsedTimes(first, SlotOf(Session(env, Do(env, w, c)).slots, x), uses + if used then 1 else 0, if used then TimeOf(c) else last)
  {
    StepUses(env, w, c, x);
  }

  lemma LastCommand(env: Env, w: World, cs: seq<Command>, front: seq<Command>, last: Command)
    requires GoodWorld(env, w) && CarefulRun(env, w, cs) && cs != [] && front == cs[..|cs| - 1] && last == cs[|cs| - 1]
    ensures CarefulRun(env, w, front) && GoodWorld(env, Run(env, w, front)) && Careful(env, Run(env, w, front), last)
  {
    var n := |cs| - 1;
    assert Careful(env, Run(env, w, cs[..n]), cs[n]);
    FrontIsGood(env, w, cs, front);
  }

  lemma FrontIsGood(env: Env, w: World, cs: seq<Command>, front: seq<Command>)
    requires GoodWorld(env, w) && CarefulRun(env, w, cs) && cs != [] && front == cs[..|cs| - 1]
    ensures CarefulRun(env, w, front) && GoodWorld(env, Run(env, w, front))
  {
    CarefulPrefix(env, w, cs, |cs| - 1);
    RunsStayGood(env, w, front);
  }

  lemma StaysToTheEnd(env: Env, w: World, cs: seq<Command>, x: string)
    requires StaysIn(env, w, cs, x)
    ensures SlotOf(Session(env, w).slots, x).Some? && SlotOf(Session(env, Run(env, w, cs)).slots, x).Some?
    ensures cs != [] ==> StaysIn(env, w, cs[..|cs| - 1], x)
  {
    assert cs[..0] == [] && cs[..|cs|] == cs;
    assert SlotOf(Session(env, Run(env, w, cs[..0])).slots, x).Some?;
    assert SlotOf(Session(env, Run(env, w, cs[..|cs|])).slots, x).Some?;
    if cs != [] {
      var front := cs[..|cs| - 1];
      forall i: nat | i <= |front| ensures SlotOf(Session(env, Run(env, w, front[..i])).slots, x).Some? { assert front[..i] == cs[..i]; }
    }
  }

  // ---- who goes -------------------------------------------------------------------------------

  /** The entry was in the session and is not any more. */
  ghost predicate Gone(env: Env, w: World, c: Command, slot: Slot) {
    slot in Session(env, w).slots && SlotOf(Session(env, Do(env, w, c)).slots, slot.id).None?
  }

  lemma NotKept(slots: seq<Slot>, n: nat, more: seq<Slot>, id: string)
    requires n <= |slots| && SlotOf(slots[n..] + more, id).None?
    ensures forall i: nat :: n <= i < |slots| ==> slots[i].id != id
  {
    forall i: nat | n <= i < |slots| ensures slots[i].id != id { assert (slots[n..] + more)[i - n] == slots[i]; }
  }

  lemma SuffixDropsFirst(slots: seq<Slot>, n: nat, more: seq<Slot>, a: Slot, b: Slot)
    requires NoDuplicates(Ids(slots)) && n <= |slots| && a in slots && b in slots
    requires SlotOf(slots[n..] + more, a.id).None? && SlotOf(slots[n..] + more, b.id).Some?
    requires forall slot :: slot in more ==> slot.id != b.id
    ensures exists i: nat, j: nat :: i < j < |slots| && slots[i] == a && slots[j] == b
  {
    var i: nat :| i < |slots| && slots[i] == a;
    var kept := SlotOf(slots[n..] + more, b.id).value;
    var j: nat :| n <= j < |slots| && slots[j] == kept;
    var k: nat :| k < |slots| && slots[k] == b;
    IdIsOnce(slots, j, k);
    NotKept(slots, n, more, a.id);
  }

  /** What goes, by eviction or for a new entry, was last used no later than anything that stays. */
  lemma LeastRecentGoes(env: Env, w: World, c: Command, a: Slot, b: Slot)
    requires GoodWorld(env, w) && Careful(env, w, c) && WeakOrder(ByAge(env))
    requires Gone(env, w, c, a) && b in Session(env, w).slots && !Gone(env, w, c, b)
    ensures a.entry.last <= b.entry.last
  {
    var s := Session(env, w);
    SessionIsByAge(env, w);
    match c
    case DoPut(kind, phrase, forced, now) => PutDropsFirst(env, w, c, a, b);
    case DoEvict(n) =>
      EvictDropsFirst(env, w, c, a, b);
    case DoHit(id, now) => NothingGoes(env, w, c, a);
    case DoGet(key) => NothingGoes(env, w, c, a);
  }

  lemma SessionIsByAge(env: Env, w: World)
    requires WeakOrder(ByAge(env))
    ensures Sorted(ByAge(env), Session(env, w).slots)
  {
    if w.session.Some? { SortSorted(ByAge(env), w.session.value.slots); }
  }

  lemma NothingGoes(env: Env, w: World, c: Command, a: Slot)
    requires GoodWorld(env, w) && (c.DoHit? || c.DoGet?)
    ensures !Gone(env, w, c, a)
  {
    if a in Session(env, w).slots {
      if c.DoHit? { HitLeaves(env, w, c, a.id); } else { GetKeepsEntries(env, w, c.key, a.id); }
    }
  }

  lemma HitLeaves(env: Env, w: World, c: Command, x: string)
    requires GoodWorld(env, w) && c.DoHit? && SlotOf(Session(env, w).slots, x).Some?
    ensures SlotOf(Session(env, Do(env, w, c)).slots, x).Some?
  {
    var s := Session(env, w);
    HitKeeps(env.d, s, c.id, c.now);
    SavedEntry(env, Hit(s, c.id, c.now), env.sessionCap, x);
    HitEntry(s, c.id, c.now, x);
  }

  lemma EvictedAre(env: Env, w: World, c: Command, k: nat, x: string)
    requires GoodWorld(env, w) && c.DoEvict? && k == Min(Max(0, c.n), |Session(env, w).slots|)
    ensures SlotOf(Session(env, Do(env, w, c)).slots, x) == SlotOf(Session(env, w).slots[k..], x)
  {
    EvictDropsOldest(env.d, Session(env, w), c.n);
    EvictKeeps(env.d, Session(env, w), c.n);
    EvictionIsSaved(env, w, c, Evict(env.d, Session(env, w), c.n), x);
  }

  lemma EvictionIsSaved(env: Env, w: World, c: Command, next: Store, x: string)
    requires c.DoEvict? && next == Evict(env.d, Session(env, w), c.n) && Good(env.d, next)
    ensures SlotOf(Session(env, Do(env, w, c)).slots, x) == SlotOf(next.slots, x)
  {
    SavedEntry(env, next, env.sessionCap, x);
  }

  lemma EvictDropsFirst(env: Env, w: World, c: Command, a: Slot, b: Slot)
    requires GoodWorld(env, w) && c.DoEvict?
    requires Gone(env, w, c, a) && b in Session(env, w).slots && !Gone(env, w, c, b)
    ensures exists i: nat, j: nat :: i < j < |Session(env, w).slots| && Session(env, w).slots[i] == a && Session(env, w).slots[j] == b
  {
    var slots := Session(env, w).slots;
    var k := Min(Max(0, c.n), |slots|);
    EvictedAre(env, w, c, k, a.id);
    EvictedAre(env, w, c, k, b.id);
    assert slots[k..] + [] == slots[k..];
    SuffixDropsFirst(slots, k, [], a, b);
  }

  lemma NewDropsFirst(d: Digests, s: Store, kind: string, phrase: string, forced: string, now: int)
    returns (n: nat, slot: Slot)
    requires Good(d, s) && !Unusable(phrase) && PutIsFresh(s, phrase, forced) && FindByPhrase(s.slots, phrase).None?
    ensures n <= |s.slots| && Put(d, s, kind, phrase, forced, now).0.slots == s.slots[n..] + [slot]
    ensures SlotOf(s.slots, slot.id).None?
  {
    PutUngated(d, s, kind, phrase, forced, now);
    var (id, named) := ChooseId(s.(bloom := Asked(d, s.bloom, phrase)), forced);
    slot := NewSlot(id, kind, phrase, now);
    n := Max(0, |s.slots| + 1 - s.cap);
    EntryIsAdded(d, named, slot);
    assert Youngest(s.slots + [slot], s.cap) == s.slots[n..] + [slot];
  }

  lemma PutDropsFirst(env: Env, w: World, c: Command, a: Slot, b: Slot)
    requires GoodWorld(env, w) && Careful(env, w, c) && c.DoPut?
    requires Gone(env, w, c, a) && b in Session(env, w).slots && !Gone(env, w, c, b)
    ensures exists i: nat, j: nat :: i < j < |Session(env, w).slots| && Session(env, w).slots[i] == a && Session(env, w).slots[j] == b
  {
    var s := Session(env, w);
    assert SlotOf(s.slots, a.id).Some? && SlotOf(s.slots, b.id).Some?;
    var next := Put(env.d, s, c.kind, c.phrase, c.forced, c.now).0;
    PutKeeps(env.d, s, c.kind, c.phrase, c.forced, c.now);
    SavedEntry(env, next, env.sessionCap, a.id);
    SavedEntry(env, next, env.sessionCap, b.id);
    if FindByPhrase(s.slots, c.phrase).Some? {
      FoundStays(env.d, s, c.kind, c.phrase, c.forced, c.now, a.id);
    } else {
      var n, slot := NewDropsFirst(env.d, s, c.kind, c.phrase, c.forced, c.now);
      SuffixDropsFirst(s.slots, n, [slot], a, b);
    }
  }

  lemma FoundStays(d: Digests, s: Store, kind: string, phrase: string, forced: string, now: int, x: string)
    requires Good(d, s) && !Unusable(phrase) && FindByPhrase(s.slots, phrase).Some? && SlotOf(s.slots, x).Some?
    ensures SlotOf(Put(d, s, kind, phrase, forced, now).0.slots, x).Some?
  {
    PutUngated(d, s, kind, phrase, forced, now);
    FoundIsUsed(d, s.(bloom := Asked(d, s.bloom, phrase)), phrase, now, x);
  }
}
