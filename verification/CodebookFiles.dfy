/** What the codebook finds in its files: nothing at all, counters of one byte, and entries whose filter
    was never saved. */
module CodebookFiles {
  import opened Common
  import opened Sorting
  import opened CountingBlooms
  import opened Codebooks
  import opened CodebookRuns
  import opened CodebookTheorems

  // ---- filters --------------------------------------------------------------------------------

  /** The probes of a phrase start at its first digest and go on by its second, or by one if that is
      zero, around the counters. */
  lemma ProbesStep(d: Digests, m: nat, phrase: string, i: nat)
    requires m > 0
    ensures Probe(d, m, phrase, 0) == d.h1(phrase) % m
    ensures Probe(d, m, phrase, i + 1) == (Probe(d, m, phrase, i) + if d.h2(phrase) == 0 then 1 else d.h2(phrase)) % m
  {
    var at, stride := d.h1(phrase) + i * Stride(d, phrase), Stride(d, phrase);
    assert d.h1(phrase) + (i + 1) * stride == at + stride;
    AroundTwice(at, stride, m);
  }

  lemma AroundTwice(a: nat, b: nat, m: nat)
    requires m > 0
    ensures (a + b) % m == (a % m + b) % m
  {
    var y := a % m + b;
    Remainder(a, m);
    Remainder(y, m);
    assert a + b == (a / m + y / m) * m + y % m;
    OneRemainder(a + b, a / m + y / m, y % m, m);
  }

  lemma Remainder(x: nat, m: nat)
    requires m > 0
    ensures x == (x / m) * m + x % m && 0 <= x % m < m
  {
  }

  lemma OneRemainder(x: nat, q: nat, r: nat, m: nat)
    requires m > 0 && x == q * m + r && r < m
    ensures x % m == r
  {
    var d := x / m - q;
    Remainder(x, m);
    assert d * m == r - x % m;
    Multiples(d, m);
  }

  lemma Multiples(d: int, m: nat)
    ensures (d >= 1 ==> d * m >= m) && (d <= -1 ==> d * m <= -(m as int))
  {
  }

  /** A saved counter is read as its lowest byte, whatever was saved; one that was not saved is zero. */
  lemma CountersAreBytes(s: Saved, i: nat)
    requires s.m >= 64 && i < s.m
    ensures var b := FromJson(Some(s));
            && b.m == s.m && |b.counters| == s.m && b.counters[i] <= 255
            && if i in s.nz then exists q: int :: s.nz[i] == 256 * q + b.counters[i] else b.counters[i] == 0
  {
    if i in s.nz { assert s.nz[i] == 256 * (s.nz[i] / 256) + s.nz[i] % 256; }
  }

  /** A filter that was saved without its size, or without anything, has the default one. */
  lemma DefaultFilter(s: Saved)
    requires s.m == 0 && s.k == 0
    ensures FromJson(None) == FromJson(Some(s)).(inserts := 0, negatives := 0, positives := 0)
    ensures FromJson(None).m == 8192 && FromJson(None).k == 4 && Blank(FromJson(None))
  {
  }

  // ---- stores ---------------------------------------------------------------------------------

  /** Without a file the store is empty, numbers its entries from one, and has the given cap. */
  lemma NoFileIsEmpty(env: Env, cap: int)
    ensures var s := Load(env, None, cap);
            && s.slots == [] && s.nextId == 1 && s.cap == cap && s.bloom.m == 8192 && s.bloom.k == 4 && Blank(s.bloom)
  {
  }

  lemma {:induction false} WeightGrows(d: Digests, m: nat, k: nat, phrases: seq<string>, n: nat, j: nat)
    requires m > 0 && n <= |phrases|
    ensures Weight(d, m, k, phrases[..n], j) <= Weight(d, m, k, phrases, j)
    decreases |phrases|
  {
    if n < |phrases| {
      WeightGrows(d, m, k, phrases[..|phrases| - 1], n, j);
      assert phrases[..|phrases| - 1][..n] == phrases[..n];
    } else {
      assert phrases[..n] == phrases;
    }
  }

  /** Adding all entries to an empty filter brings it in step with them. */
  lemma {:induction false} AddAllIsInStep(d: Digests, b: Bloom, slots: seq<Slot>)
    requires Shaped(b) && InStep(d, b, []) && Fits(d, b, Phrases(slots))
    requires forall i :: 0 <= i < |slots| ==> slots[i].entry.phrase != ""
    ensures var r := AddAll(d, b, slots); InStep(d, r, Phrases(slots)) && r.m == b.m && r.k == b.k
  {
    if slots == [] {
      assert Phrases(slots) == [];
    } else {
      var n: nat := |slots| - 1;
      var front, phrase := slots[..n], slots[n].entry.phrase;
      assert Phrases(slots)[..n] == Phrases(front) && Phrases(slots) == Phrases(front) + [phrase];
      forall j | 0 <= j < b.m ensures Weight(d, b.m, b.k, Phrases(front), j) <= 255 { WeightGrows(d, b.m, b.k, Phrases(slots), n, j); }
      AddAllIsInStep(d, b, front);
      AddKeepsStep(d, AddAll(d, b, front), Phrases(front), phrase);
    }
  }

  lemma BlankIsInStep(d: Digests, b: Bloom)
    requires Shaped(b) && Blank(b)
    ensures InStep(d, b, [])
  {
  }

  /** A file whose entries were stored without a filter is as good as one with it: the filter is rebuilt
      in step with the entries, so that lookups answer as scans do. */
  lemma FilterIsRebuilt(env: Env, f: File, cap: int)
    requires Distinct(f.slots) && 1 <= f.cap && |f.slots| <= f.cap && Blank(FromJson(f.bloom))
    requires Fits(env.d, FromJson(f.bloom), Phrases(Sort(ByAge(env), f.slots)))
    ensures Good(env.d, Load(env, Some(f), cap))
  {
    var slots, bloom := Sort(ByAge(env), f.slots), FromJson(f.bloom);
    LoadedIsShaped(f.bloom);
    SortMembers(ByAge(env), f.slots);
    IdsOfMembers(f.slots, slots);
    SameMembersDistinct(Ids(f.slots), Ids(slots));
    SameMembersDistinct(Phrases(f.slots), Phrases(slots));
    NamesStay(f.slots, slots);
    BlankIsInStep(env.d, bloom);
    AddAllIsInStep(env.d, bloom, slots);
    assert |multiset(slots)| == |slots| && |multiset(f.slots)| == |f.slots|;
    if slots == [] { assert Phrases(slots) == []; }
  }
}
