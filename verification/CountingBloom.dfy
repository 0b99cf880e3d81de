/** A counting Bloom filter with 8-bit counters that saturate: what its updates do to each
    counter, and that its JSON form loses nothing. */
module CountingBlooms {
  import opened Common

  /** The two digests of a phrase that its probes are derived from. */
  datatype Digests = Digests(h1: string -> nat, h2: string -> nat)

  datatype Bloom = Bloom(m: nat, k: nat, counters: seq<nat>, inserts: int, negatives: int, positives: int)

  ghost predicate Shaped(b: Bloom) {
    64 <= b.m && 1 <= b.k && |b.counters| == b.m && forall j :: 0 <= j < b.m ==> b.counters[j] <= 255
  }

  function Zeros(m: nat): seq<nat> { seq(m, i => 0) }

  function Empty(m: nat, k: nat): Bloom { Bloom(Max(64, m), Max(1, k), Zeros(Max(64, m)), 0, 0, 0) }

  // ---- probes -------------------------------------------------------------------------

  function Stride(d: Digests, phrase: string): nat {
    if d.h2(phrase) == 0 then 1 else d.h2(phrase)
  }

  function Probe(d: Digests, m: nat, phrase: string, i: nat): nat
    requires m > 0
  {
    (d.h1(phrase) + i * Stride(d, phrase)) % m
  }

  function Indexes(d: Digests, m: nat, k: nat, phrase: string): (r: seq<nat>)
    requires m > 0
    ensures |r| == k && forall i :: 0 <= i < k ==> r[i] < m
  {
    seq(k, i requires 0 <= i < k => Probe(d, m, phrase, i))
  }

  ghost predicate Within(indexes: seq<nat>, m: nat) { forall i :: 0 <= i < |indexes| ==> indexes[i] < m }

  /** How many probes hit a counter. */
  function Count(indexes: seq<nat>, j: nat): nat {
    if indexes == [] then 0 else Count(indexes[..|indexes| - 1], j) + if indexes[|indexes| - 1] == j then 1 else 0
  }

  // ---- updates ------------------------------------------------------------------------

  function Up(c: seq<nat>, j: nat): (r: seq<nat>)
    requires j < |c|
    ensures |r| == |c|
  {
    if c[j] < 255 then c[j := c[j] + 1] else c
  }

  function Down(c: seq<nat>, j: nat): (r: seq<nat>)
    requires j < |c|
    ensures |r| == |c|
  {
    if c[j] > 0 then c[j := c[j] - 1] else c
  }

  function UpAll(c: seq<nat>, indexes: seq<nat>): (r: seq<nat>)
    requires Within(indexes, |c|)
    ensures |r| == |c|
  {
    if indexes == [] then c else Up(UpAll(c, indexes[..|indexes| - 1]), indexes[|indexes| - 1])
  }

  function DownAll(c: seq<nat>, indexes: seq<nat>): (r: seq<nat>)
    requires Within(indexes, |c|)
    ensures |r| == |c|
  {
    if indexes == [] then c else Down(DownAll(c, indexes[..|indexes| - 1]), indexes[|indexes| - 1])
  }

  /** Adding raises each counter by its number of probes, and no further than 255. */
  lemma {:induction false} UpAllAt(c: seq<nat>, indexes: seq<nat>, j: nat)
    requires Within(indexes, |c|) && j < |c| && c[j] <= 255
    ensures UpAll(c, indexes)[j] == Min(255, c[j] + Count(indexes, j))
  {
    if indexes != [] { UpAllAt(c, indexes[..|indexes| - 1], j); }
  }

  /** Removing lowers each counter by its number of probes, and no further than zero. */
  lemma {:induction false} DownAllAt(c: seq<nat>, indexes: seq<nat>, j: nat)
    requires Within(indexes, |c|) && j < |c|
    ensures DownAll(c, indexes)[j] == Max(0, c[j] - Count(indexes, j))
  {
    if indexes != [] { DownAllAt(c, indexes[..|indexes| - 1], j); }
  }

  lemma {:induction false} CountIsPositive(indexes: seq<nat>, i: nat)
    requires i < |indexes|
    ensures Count(indexes, indexes[i]) > 0
  {
    if i < |indexes| - 1 {
      assert indexes[..|indexes| - 1][i] == indexes[i];
      CountIsPositive(indexes[..|indexes| - 1], i);
    }
  }

  function Add(d: Digests, b: Bloom, phrase: string): Bloom
    requires Shaped(b)
  {
    b.(counters := UpAll(b.counters, Indexes(d, b.m, b.k, phrase)), inserts := b.inserts + 1)
  }

  function Remove(d: Digests, b: Bloom, phrase: string): Bloom
    requires Shaped(b)
  {
    b.(counters := DownAll(b.counters, Indexes(d, b.m, b.k, phrase)))
  }

  /** Whether every probe of the phrase hits a counter that is not zero. */
  predicate Contains(d: Digests, b: Bloom, phrase: string)
    requires b.m > 0 && |b.counters| == b.m
  {
    forall i :: 0 <= i < b.k ==> b.counters[Probe(d, b.m, phrase, i)] != 0
  }

  /** Asking also counts the answer. */
  function Asked(d: Digests, b: Bloom, phrase: string): (r: Bloom)
    requires b.m > 0 && |b.counters| == b.m
    ensures r == b.(positives := r.positives, negatives := r.negatives)
  {
    if Contains(d, b, phrase) then b.(positives := b.positives + 1) else b.(negatives := b.negatives + 1)
  }

  lemma UpdatesStayShaped(d: Digests, b: Bloom, phrase: string)
    requires Shaped(b)
    ensures Shaped(Add(d, b, phrase)) && Shaped(Remove(d, b, phrase)) && Shaped(Asked(d, b, phrase))
  {
    var indexes := Indexes(d, b.m, b.k, phrase);
    forall j: nat | j < b.m ensures UpAll(b.counters, indexes)[j] <= 255 && DownAll(b.counters, indexes)[j] <= 255 {
      UpAllAt(b.counters, indexes, j);
      DownAllAt(b.counters, indexes, j);
    }
  }

  // ---- JSON ---------------------------------------------------------------------------

  /** The saved form keeps only the counters that are not zero. */
  datatype Saved = Saved(m: nat, k: nat, nz: map<nat, int>, inserts: int, negatives: int, positives: int)

  function ToJson(b: Bloom): Saved {
    Saved(b.m, b.k, map i: nat | i < |b.counters| && b.counters[i] != 0 :: b.counters[i], b.inserts, b.negatives, b.positives)
  }

  /** `c & 0xFF` for any integer. */
  function LowByte(c: int): (r: nat)
    ensures r <= 255
  {
    c % 256
  }

  /** Reads a saved filter. Its counters are kept only when the saved size is legal. */
  function FromJson(s: Option<Saved>): Bloom {
    match s
    case None => Empty(8192, 4)
    case Some(s) =>
      var m := if s.m == 0 then 8192 else Max(64, s.m);
      var k := if s.k == 0 then 4 else s.k;
      Bloom(m, k, if s.m == m then seq(m, i requires 0 <= i < m => if i in s.nz then LowByte(s.nz[i]) else 0) else Zeros(m),
            s.inserts, s.negatives, s.positives)
  }

  lemma LoadedIsShaped(s: Option<Saved>)
    ensures Shaped(FromJson(s))
  {
  }

  /** Loading what was saved gives the same filter back. */
  lemma JsonRoundTrip(b: Bloom)
    requires Shaped(b)
    ensures FromJson(Some(ToJson(b))) == b
  {
    var c := FromJson(Some(ToJson(b))).counters;
    forall i | 0 <= i < b.m ensures c[i] == b.counters[i] {
    }
    assert c == b.counters;
  }

  // ---- the object ---------------------------------------------------------------------

  class CountingBloom {
    const d: Digests
    const m: nat
    const k: nat
    const counters: array<nat>
    var inserts: int
    var negatives: int
    var positives: int

    constructor (d: Digests, m: nat, k: nat)
      ensures this.d == d && State() == Empty(m, k) && Valid() && fresh(counters)
    {
      this.d, this.m, this.k := d, Max(64, m), Max(1, k);
      counters := new nat[Max(64, m)](i => 0);
      inserts, negatives, positives := 0, 0, 0;
      new;
      assert counters[..] == Zeros(Max(64, m));
    }

    ghost function State(): Bloom
      reads this, counters
    {
      Bloom(m, k, counters[..], inserts, negatives, positives)
    }

    ghost predicate Valid()
      reads this, counters
    {
      Shaped(State())
    }

    method AddPhrase(phrase: string)
      requires Valid()
      modifies this`inserts, counters
      ensures Valid() && State() == Add(d, old(State()), phrase)
    {
      UpdatesStayShaped(d, State(), phrase);
      var indexes := Indexes(d, m, k, phrase);
      ghost var before := counters[..];
      for i := 0 to |indexes|
        invariant Within(indexes[..i], |before|) && counters[..] == UpAll(before, indexes[..i])
        invariant inserts == old(inserts)
      {
        assert indexes[..i + 1][..i] == indexes[..i];
        ghost var now := counters[..];
        if counters[indexes[i]] < 255 {
          counters[indexes[i]] := counters[indexes[i]] + 1;
        }
        assert counters[..] == Up(now, indexes[i]);
      }
      assert indexes[..|indexes|] == indexes;
      inserts := inserts + 1;
    }

    method RemovePhrase(phrase: string)
      requires Valid()
      modifies counters
      ensures Valid() && State() == Remove(d, old(State()), phrase)
    {
      UpdatesStayShaped(d, State(), phrase);
      var indexes := Indexes(d, m, k, phrase);
      ghost var before := counters[..];
      for i := 0 to |indexes|
        invariant Within(indexes[..i], |before|) && counters[..] == DownAll(before, indexes[..i])
      {
        assert indexes[..i + 1][..i] == indexes[..i];
        ghost var now := counters[..];
        if counters[indexes[i]] > 0 {
          counters[indexes[i]] := counters[indexes[i]] - 1;
        }
        assert counters[..] == Down(now, indexes[i]);
      }
      assert indexes[..|indexes|] == indexes;
    }

    method MightContain(phrase: string) returns (maybe: bool)
      requires Valid()
      modifies this`negatives, this`positives
      ensures Valid() && maybe == Contains(d, old(State()), phrase) && State() == Asked(d, old(State()), phrase)
    {
      var indexes := Indexes(d, m, k, phrase);
      for i := 0 to |indexes|
        invariant forall j :: 0 <= j < i ==> counters[..][Probe(d, m, phrase, j)] != 0
        invariant negatives == old(negatives) && positives == old(positives)
      {
        if counters[indexes[i]] == 0 {
          assert State().counters[Probe(d, m, phrase, i)] == 0;
          negatives := negatives + 1;
          return false;
        }
      }
      positives := positives + 1;
      return true;
    }
  }
}
