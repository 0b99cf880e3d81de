/** The phrase codebook: entries in least-recently-used order under a counting Bloom filter, the
    commands on them, and the JSON files that they are loaded from and saved to. */
module Codebooks {
  import opened Common
  import opened Sorting
  import opened Decimal
  import opened CountingBlooms

  datatype Entry = Entry(phrase: string, kind: string, hits: int, created: int, last: int)

  /** A binding of the ordered dictionary, oldest first. */
  datatype Slot = Slot(id: string, entry: Entry)

  datatype Store = Store(cap: int, nextId: nat, slots: seq<Slot>, bloom: Bloom)

  function Ids(slots: seq<Slot>): seq<string> {
    seq(|slots|, i requires 0 <= i < |slots| => slots[i].id)
  }

  function Phrases(slots: seq<Slot>): seq<string> {
    seq(|slots|, i requires 0 <= i < |slots| => slots[i].entry.phrase)
  }

  function SlotOf(slots: seq<Slot>, id: string): (r: Option<Slot>)
    ensures r.Some? ==> r.value in slots && r.value.id == id
    ensures r.None? ==> forall slot :: slot in slots ==> slot.id != id
  {
    if slots == [] then None else if slots[0].id == id then Some(slots[0]) else SlotOf(slots[1..], id)
  }

  function Drop(slots: seq<Slot>, id: string): seq<Slot> {
    if slots == [] then []
    else if slots[0].id == id then Drop(slots[1..], id)
    else [slots[0]] + Drop(slots[1..], id)
  }

  /** Moves an entry to the young end and stamps it; `change` is what else the command does. */
  function Refresh(slots: seq<Slot>, id: string, entry: Entry): seq<Slot> {
    Drop(slots, id) + [Slot(id, entry)]
  }

  /** The first entry with the phrase. */
  function FindByPhrase(slots: seq<Slot>, phrase: string): Option<string> {
    if slots == [] then None
    else if slots[0].entry.phrase == phrase then Some(slots[0].id)
    else FindByPhrase(slots[1..], phrase)
  }

  /** The lookup behind the filter: the scan only runs when the filter does not rule it out. */
  function GatedFind(d: Digests, s: Store, phrase: string): Option<string>
    requires s.bloom.m > 0 && |s.bloom.counters| == s.bloom.m
  {
    if Contains(d, s.bloom, phrase) then FindByPhrase(s.slots, phrase) else None
  }

  // ---- eviction -----------------------------------------------------------------------

  function EvictOne(d: Digests, s: Store): (r: Store)
    requires Shaped(s.bloom) && s.slots != []
    ensures Shaped(r.bloom) && |r.slots| == |s.slots| - 1
  {
    var phrase := s.slots[0].entry.phrase;
    UpdatesStayShaped(d, s.bloom, phrase);
    s.(slots := s.slots[1..], bloom := if phrase == "" then s.bloom else Remove(d, s.bloom, phrase))
  }

  function Evict(d: Digests, s: Store, n: int): (r: Store)
    requires Shaped(s.bloom)
    ensures Shaped(r.bloom)
    decreases |s.slots|
  {
    if n <= 0 || s.slots == [] then s else Evict(d, EvictOne(d, s), n - 1)
  }

  /** Evicts while there are more entries than the cap. Below a negative cap the loop never ends
      (see `CapLoopEndsIff`), so there is no store to return. */
  function EnsureCap(d: Digests, s: Store): (r: Store)
    requires Shaped(s.bloom) && s.cap >= 0
    ensures Shaped(r.bloom)
    decreases |s.slots|
  {
    if |s.slots| > s.cap then EnsureCap(d, EvictOne(d, s)) else s
  }

  // ---- put ----------------------------------------------------------------------------

  predicate IsHex(c: char) { '0' <= c <= '9' || 'a' <= c <= 'f' || 'A' <= c <= 'F' }

  predicate HashLike(phrase: string) { |phrase| >= 32 && forall i :: 0 <= i < |phrase| ==> IsHex(phrase[i]) }

  /** How a put ends: refused; done under an id; saved, but with its own entry evicted, so that
      reading the entry back for the reply raises; or not at all. */
  datatype PutReply =
    | Rejected | Skipped | Refreshed(id: string) | Updated(id: string) | Added(id: string) | Lost(id: string) | Endless

  /** A forced id is used as it is; otherwise the next number names the entry. */
  function ChooseId(s: Store, forced: string): (r: (string, Store))
    ensures r.0 != "" && r.1 == s.(nextId := r.1.nextId)
  {
    if forced != "" then (forced, s) else ("s" + Dec(s.nextId), s.(nextId := s.nextId + 1))
  }

  predicate Unusable(phrase: string) { phrase == "" || |phrase| > 2048 || HashLike(phrase) }

  function NewSlot(id: string, kind: string, phrase: string, now: int): Slot {
    Slot(id, Entry(phrase, kind, 1, now, now))
  }

  /** Appends a new entry and tells the filter. */
  function AddSlot(d: Digests, s: Store, slot: Slot): (r: Store)
    requires Shaped(s.bloom)
    ensures Shaped(r.bloom)
  {
    UpdatesStayShaped(d, s.bloom, slot.entry.phrase);
    s.(slots := s.slots + [slot], bloom := Add(d, s.bloom, slot.entry.phrase))
  }

  /** Gives an entry whose id is taken a new phrase; the filter is not told. */
  function Rename(s: Store, slot: Slot, kind: string, phrase: string, now: int): Store {
    s.(slots := Refresh(s.slots, slot.id, slot.entry.(phrase := phrase, kind := kind, hits := slot.entry.hits + 1, last := now)))
  }

  /** Keeps the cap, and reads the entry back for the reply. */
  function Trim(d: Digests, s: Store, id: string, reply: PutReply): (Store, PutReply)
    requires Shaped(s.bloom)
  {
    if s.cap < 0 then (s, Endless)
    else
      var kept := EnsureCap(d, s);
      (kept, if SlotOf(kept.slots, id).None? then Lost(id) else reply)
  }

  /** What a put does once it knows whether the phrase is there. */
  function PutKnowing(d: Digests, s: Store, existing: Option<string>, kind: string, phrase: string, forced: string,
                      now: int): (Store, PutReply)
    requires Shaped(s.bloom)
  {
    if existing.Some? && existing.value != "" then (Hit(s, existing.value, now), Refreshed(existing.value))
    else
      var (id, named) := ChooseId(s, forced);
      match SlotOf(s.slots, id)
      case Some(slot) => Trim(d, Rename(named, slot, kind, phrase, now), id, Updated(id))
      case None => Trim(d, AddSlot(d, named, NewSlot(id, kind, phrase, now)), id, Added(id))
  }

  function Put(d: Digests, s: Store, kind: string, phrase: string, forced: string, now: int): (Store, PutReply)
    requires Shaped(s.bloom)
  {
    if phrase == "" || |phrase| > 2048 then (s, Rejected)
    else if HashLike(phrase) then (s, Skipped)
    else PutKnowing(d, s.(bloom := Asked(d, s.bloom, phrase)), GatedFind(d, s, phrase), kind, phrase, forced, now)
  }

  /** Counts a use and makes the entry the youngest. */
  function Hit(s: Store, id: string, now: int): Store {
    match SlotOf(s.slots, id)
    case None => s
    case Some(slot) => s.(slots := Refresh(s.slots, id, slot.entry.(hits := slot.entry.hits + 1, last := now)))
  }

  // ---- files --------------------------------------------------------------------------

  datatype File = File(cap: int, nextId: nat, slots: seq<Slot>, bloom: Option<Saved>)

  /** The digests, the order of ids, and the caps of new files. */
  datatype Env = Env(d: Digests, less: (string, string) -> bool, sessionCap: int, userCap: int)

  function ByAge(env: Env): (Slot, Slot) -> bool {
    (a: Slot, b: Slot) => a.entry.last < b.entry.last || (a.entry.last == b.entry.last && env.less(a.id, b.id))
  }

  function AddAll(d: Digests, b: Bloom, slots: seq<Slot>): (r: Bloom)
    requires Shaped(b)
    ensures Shaped(r)
  {
    if slots == [] then b
    else
      var front, phrase := AddAll(d, b, slots[..|slots| - 1]), slots[|slots| - 1].entry.phrase;
      UpdatesStayShaped(d, front, phrase);
      if phrase == "" then front else Add(d, front, phrase)
  }

  predicate Blank(b: Bloom) { b.inserts == 0 && forall j :: 0 <= j < |b.counters| ==> b.counters[j] == 0 }

  /** Sorts the entries by age and rebuilds a filter that was never used. */
  function Load(env: Env, f: Option<File>, cap: int): (r: Store)
    ensures Shaped(r.bloom)
  {
    match f
    case None => LoadedIsShaped(None); Store(cap, 1, [], Empty(8192, 4))
    case Some(f) =>
      LoadedIsShaped(f.bloom);
      var slots, bloom := Sort(ByAge(env), f.slots), FromJson(f.bloom);
      Store(f.cap, f.nextId, slots, if slots != [] && Blank(bloom) then AddAll(env.d, bloom, slots) else bloom)
  }

  function Save(s: Store): Option<File> { Some(File(s.cap, s.nextId, s.slots, Some(ToJson(s.bloom)))) }

  // ---- commands -----------------------------------------------------------------------

  datatype World = World(session: Option<File>, user: Option<File>)

  datatype Command = DoPut(kind: string, phrase: string, forced: string, now: int) | DoHit(id: string, now: int) | DoGet(key: string) | DoEvict(n: int)

  function Session(env: Env, w: World): (r: Store) ensures Shaped(r.bloom) { Load(env, w.session, env.sessionCap) }

  function User(env: Env, w: World): (r: Store) ensures Shaped(r.bloom) { Load(env, w.user, env.userCap) }

  /** Looks a key up in one store: as an id, or else as a phrase. The second result is what is
      saved; a match by id saves nothing. */
  function Look(d: Digests, s: Store, key: string): (Option<Slot>, Option<Store>)
    requires Shaped(s.bloom)
  {
    if SlotOf(s.slots, key).Some? then (SlotOf(s.slots, key), None)
    else
      var found := GatedFind(d, s, key);
      (if found.Some? && found.value != "" then SlotOf(s.slots, found.value) else None, Some(s.(bloom := Asked(d, s.bloom, key))))
  }

  function SaveIf(s: Option<Store>, f: Option<File>): Option<File> {
    match s
    case None => f
    case Some(s) => Save(s)
  }

  /** Looks a key up in the session and then in the user store. */
  function Get(env: Env, w: World, key: string): (World, Option<Slot>) {
    var (here, saved) := Look(env.d, Session(env, w), key);
    var next := w.(session := SaveIf(saved, w.session));
    if here.Some? then (next, here)
    else
      var (there, saved2) := Look(env.d, User(env, w), key);
      (next.(user := SaveIf(saved2, w.user)), there)
  }

  function Do(env: Env, w: World, c: Command): World {
    match c
    case DoPut(kind, phrase, forced, now) =>
      var (s, reply) := Put(env.d, Session(env, w), kind, phrase, forced, now);
      if reply.Rejected? || reply.Skipped? || reply.Endless? then w else w.(session := Save(s))
    case DoHit(id, now) =>
      if SlotOf(Session(env, w).slots, id).Some? then w.(session := Save(Hit(Session(env, w), id, now)))
      else if SlotOf(User(env, w).slots, id).Some? then w.(user := Save(Hit(User(env, w), id, now)))
      else w
    case DoGet(key) => Get(env, w, key).0
    case DoEvict(n) => w.(session := Save(Evict(env.d, Session(env, w), n)))
  }
}
