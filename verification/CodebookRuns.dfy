/** The filter never changes an answer: over every run in which ids are not reused and no counter
    would pass 255, each counter is the summed multiplicity of the stored phrases. */
module CodebookRuns {
  import opened Common
  import opened Sorting
  import opened CountingBlooms
  import opened Codebooks

  /** How often the phrases probe a counter, all together. */
  function Weight(d: Digests, m: nat, k: nat, phrases: seq<string>, j: nat): nat
    requires m > 0
  {
    if phrases == [] then 0
    else Weight(d, m, k, phrases[..|phrases| - 1], j) + Count(Indexes(d, m, k, phrases[|phrases| - 1]), j)
  }

  /** Every counter is exactly the weight of the phrases. */
  ghost predicate InStep(d: Digests, b: Bloom, phrases: seq<string>) {
    Shaped(b) && forall j: nat :: j < b.m ==> b.counters[j] == Weight(d, b.m, b.k, phrases, j)
  }

  lemma WeightAppend(d: Digests, m: nat, k: nat, phrases: seq<string>, p: string, j: nat)
    requires m > 0
    ensures Weight(d, m, k, phrases + [p], j) == Weight(d, m, k, phrases, j) + Count(Indexes(d, m, k, p), j)
  {
    assert (phrases + [p])[..|phrases|] == phrases;
  }

  lemma {:induction false} WeightSum(d: Digests, m: nat, k: nat, a: seq<string>, b: seq<string>, j: nat)
    requires m > 0
    ensures Weight(d, m, k, a + b, j) == Weight(d, m, k, a, j) + Weight(d, m, k, b, j)
  {
    if b == [] {
      assert a + b == a;
    } else {
      var front, last := b[..|b| - 1], b[|b| - 1];
      WeightSum(d, m, k, a, front, j);
      assert a + b == (a + front) + [last];
      WeightAppend(d, m, k, a + front, last, j);
    }
  }

  lemma WeightWithout(d: Digests, m: nat, k: nat, phrases: seq<string>, i: nat, j: nat)
    requires m > 0 && i < |phrases|
    ensures Weight(d, m, k, phrases, j) == Weight(d, m, k, phrases[..i] + phrases[i + 1..], j) + Count(Indexes(d, m, k, phrases[i]), j)
  {
    WeightSum(d, m, k, phrases[..i], phrases[i + 1..], j);
    WeightAppend(d, m, k, phrases[..i], phrases[i], j);
    WeightSum(d, m, k, phrases[..i] + [phrases[i]], phrases[i + 1..], j);
    assert phrases == (phrases[..i] + [phrases[i]]) + phrases[i + 1..];
  }

  lemma WithoutAt<T>(s: seq<T>, i: nat)
    requires i < |s|
    ensures multiset(s) == multiset(s[..i] + s[i + 1..]) + multiset{s[i]}
    ensures multiset(s[..i] + s[i + 1..]) == multiset(s) - multiset{s[i]}
  {
    assert s == s[..i] + [s[i]] + s[i + 1..];
  }

  lemma MemberMatch<T>(a: seq<T>, b: seq<T>) returns (i: nat)
    requires multiset(a) == multiset(b) && a != []
    ensures i < |b| && b[i] == a[|a| - 1] && multiset(a[..|a| - 1]) == multiset(b[..i] + b[i + 1..])
  {
    var n := |a| - 1;
    WithoutAt(a, n);
    assert a[..n] + a[n + 1..] == a[..n];
    assert a[n] in multiset(b);
    i :| 0 <= i < |b| && b[i] == a[n];
    WithoutAt(b, i);
  }

  lemma NoMembers<T>(b: seq<T>)
    requires multiset(b) == multiset([])
    ensures b == []
  {
    assert |multiset(b)| == |b|;
  }

  /** The order of the phrases does not matter. */
  lemma {:induction false} WeightOfMembers(d: Digests, m: nat, k: nat, a: seq<string>, b: seq<string>, j: nat)
    requires m > 0 && multiset(a) == multiset(b)
    ensures Weight(d, m, k, a, j) == Weight(d, m, k, b, j)
    decreases |a|
  {
    if a == [] {
      NoMembers(b);
    } else {
      var i := MemberMatch(a, b);
      WeightOfMembers(d, m, k, a[..|a| - 1], b[..i] + b[i + 1..], j);
      WeightWithout(d, m, k, b, i, j);
    }
  }

  lemma {:induction false} WeightOfStored(d: Digests, m: nat, k: nat, phrases: seq<string>, p: string, j: nat)
    requires m > 0 && p in phrases
    ensures Weight(d, m, k, phrases, j) >= Count(Indexes(d, m, k, p), j)
  {
    var front, last := phrases[..|phrases| - 1], phrases[|phrases| - 1];
    if p != last {
      assert phrases == front + [last];
      WeightOfStored(d, m, k, front, p, j);
    }
  }

  /** A filter in step contains every stored phrase. */
  lemma StoredIsContained(d: Digests, b: Bloom, phrases: seq<string>, p: string)
    requires InStep(d, b, phrases) && p in phrases
    ensures Contains(d, b, p)
  {
    var indexes := Indexes(d, b.m, b.k, p);
    forall i | 0 <= i < b.k ensures b.counters[Probe(d, b.m, p, i)] != 0 {
      CountIsPositive(indexes, i);
      WeightOfStored(d, b.m, b.k, phrases, p, indexes[i]);
    }
  }

  predicate Fits(d: Digests, b: Bloom, phrases: seq<string>)
    requires b.m > 0
  {
    forall j :: 0 <= j < b.m ==> Weight(d, b.m, b.k, phrases, j) <= 255
  }

  /** Adding keeps the filter in step exactly when no counter would have to pass 255. */
  lemma AddKeepsStep(d: Digests, b: Bloom, phrases: seq<string>, p: string)
    requires InStep(d, b, phrases)
    ensures InStep(d, Add(d, b, p), phrases + [p]) <==> Fits(d, b, phrases + [p])
  {
    UpdatesStayShaped(d, b, p);
    var indexes, next := Indexes(d, b.m, b.k, p), Add(d, b, p);
    forall j: nat | j < b.m
      ensures next.counters[j] == Min(255, Weight(d, b.m, b.k, phrases + [p], j))
    {
      UpAllAt(b.counters, indexes, j);
      WeightAppend(d, b.m, b.k, phrases, p, j);
    }
  }

  lemma RemoveKeepsStep(d: Digests, b: Bloom, p: string, phrases: seq<string>)
    requires InStep(d, b, [p] + phrases)
    ensures InStep(d, Remove(d, b, p), phrases)
  {
    UpdatesStayShaped(d, b, p);
    var indexes := Indexes(d, b.m, b.k, p);
    forall j: nat | j < b.m ensures Remove(d, b, p).counters[j] == Weight(d, b.m, b.k, phrases, j) {
      DownAllAt(b.counters, indexes, j);
      WeightFirst(d, b.m, b.k, p, phrases, j);
    }
  }

  lemma WeightFirst(d: Digests, m: nat, k: nat, p: string, phrases: seq<string>, j: nat)
    requires m > 0
    ensures Weight(d, m, k, [p] + phrases, j) == Weight(d, m, k, phrases, j) + Count(Indexes(d, m, k, p), j)
  {
    WeightWithout(d, m, k, [p] + phrases, 0, j);
    assert ([p] + phrases)[..0] + ([p] + phrases)[1..] == phrases;
  }

  lemma MembersKeepStep(d: Digests, b: Bloom, a: seq<string>, c: seq<string>)
    requires InStep(d, b, a) && multiset(a) == multiset(c)
    ensures InStep(d, b, c)
  {
    forall j: nat | j < b.m ensures b.counters[j] == Weight(d, b.m, b.k, c, j) {
      WeightOfMembers(d, b.m, b.k, a, c, j);
    }
  }

  // ---- distinct entries ---------------------------------------------------------------

  lemma {:induction false} SingleMembers<T>(s: seq<T>)
    ensures NoDuplicates(s) <==> forall x :: x in s ==> multiset(s)[x] == 1
  {
    if s != [] {
      var front, last := s[..|s| - 1], s[|s| - 1];
      SingleMembers(front);
      assert s == front + [last];
      if NoDuplicates(s) {
        assert last !in front;
      } else if forall x :: x in s ==> multiset(s)[x] == 1 {
        assert multiset(s)[last] == multiset(front)[last] + 1;
        assert last !in front;
        forall x | x in front ensures multiset(front)[x] == 1 { assert multiset(s)[x] == 1; }
      }
    }
  }

  lemma SameMembersDistinct<T>(a: seq<T>, b: seq<T>)
    requires multiset(a) == multiset(b) && NoDuplicates(a)
    ensures NoDuplicates(b)
  {
    SingleMembers(a);
    SingleMembers(b);
    forall x | x in b ensures multiset(b)[x] == 1 {
      assert x in multiset(b);
      assert x in a;
    }
  }

  lemma {:induction false} IdsOfMembers(a: seq<Slot>, b: seq<Slot>)
    requires multiset(a) == multiset(b)
    ensures multiset(Ids(a)) == multiset(Ids(b)) && multiset(Phrases(a)) == multiset(Phrases(b))
    decreases |a|
  {
    if a == [] {
      NoMembers(b);
    } else {
      var i := MemberMatch(a, b);
      IdsOfMembers(a[..|a| - 1], b[..i] + b[i + 1..]);
      ProjectLast(a);
      ProjectAt(b, i);
    }
  }

  lemma ProjectLast(a: seq<Slot>)
    requires a != []
    ensures multiset(Ids(a)) == multiset(Ids(a[..|a| - 1])) + multiset{a[|a| - 1].id}
    ensures multiset(Phrases(a)) == multiset(Phrases(a[..|a| - 1])) + multiset{a[|a| - 1].entry.phrase}
  {
    assert a == a[..|a| - 1] + [a[|a| - 1]];
    Projections(a[..|a| - 1], [a[|a| - 1]]);
  }

  lemma ProjectAt(b: seq<Slot>, i: nat)
    requires i < |b|
    ensures multiset(Ids(b)) == multiset(Ids(b[..i] + b[i + 1..])) + multiset{b[i].id}
    ensures multiset(Phrases(b)) == multiset(Phrases(b[..i] + b[i + 1..])) + multiset{b[i].entry.phrase}
  {
    assert b == (b[..i] + [b[i]]) + b[i + 1..];
    Projections(b[..i] + [b[i]], b[i + 1..]);
    Projections(b[..i], [b[i]]);
    Projections(b[..i], b[i + 1..]);
  }

  lemma Projections(a: seq<Slot>, b: seq<Slot>)
    ensures Ids(a + b) == Ids(a) + Ids(b) && Phrases(a + b) == Phrases(a) + Phrases(b)
  {
  }

  /** Entries with different ids and different phrases, none empty. */
  ghost predicate Distinct(slots: seq<Slot>) {
    && NoDuplicates(Ids(slots)) && NoDuplicates(Phrases(slots))
    && forall i :: 0 <= i < |slots| ==> slots[i].id != "" && slots[i].entry.phrase != ""
  }

  ghost predicate Good(d: Digests, s: Store) {
    Distinct(s.slots) && InStep(d, s.bloom, Phrases(s.slots)) && 1 <= s.cap && |s.slots| <= s.cap
  }

  /** With distinct phrases, the scan finds an entry exactly if it is there, wherever it is. */
  lemma {:induction false} ScanFinds(slots: seq<Slot>, phrase: string)
    ensures FindByPhrase(slots, phrase).None? <==> phrase !in Phrases(slots)
    ensures NoDuplicates(Phrases(slots)) ==>
              forall slot :: slot in slots && slot.entry.phrase == phrase ==> FindByPhrase(slots, phrase) == Some(slot.id)
  {
    if slots != [] {
      assert slots == [slots[0]] + slots[1..];
      Projections([slots[0]], slots[1..]);
      ScanFinds(slots[1..], phrase);
      assert Phrases(slots)[1..] == Phrases(slots[1..]);
      if slots[0].entry.phrase == phrase {
        assert Phrases(slots)[0] == phrase;
        if NoDuplicates(Phrases(slots)) {
          forall slot | slot in slots && slot.entry.phrase == phrase ensures slot == slots[0] {
            var i :| 0 <= i < |slots| && slots[i] == slot;
            assert Phrases(slots)[i] == phrase;
          }
        }
      }
    }
  }

  /** The gated lookup is the plain scan. */
  lemma GatingIsInvisible(d: Digests, s: Store, phrase: string)
    requires InStep(d, s.bloom, Phrases(s.slots))
    ensures GatedFind(d, s, phrase) == FindByPhrase(s.slots, phrase)
  {
    ScanFinds(s.slots, phrase);
    if phrase in Phrases(s.slots) { StoredIsContained(d, s.bloom, Phrases(s.slots), phrase); }
  }
}
