/** Ranked recall: an exact top-k over the records of a branch. */
module Recall {
  import opened Common
  import opened Sorting
  import opened Objects
  import opened Trie
  import opened Collecting
  import opened Dreamcatcher

  datatype Row = Row(record: Record, firstHand: bool, provenanceWeight: real, score: real)

  /** The options of a recall: who reads, how much each record matters, and the multipliers. */
  datatype Query = Query(
    reader: string, relevance: Record -> real, firstHandWeight: real, inheritedWeight: real,
    keyLess: (string, string) -> bool)

  datatype RecallError = BadLimit | BadQuery | Forged | Unreadable(fault: Fault)

  function WeightMemory(d: Digests, r: Record, q: Query): Result<Row, RecallError> {
    var relevance := q.relevance(r);
    if !Verified(d, r) then Err(Forged)
    else if d.blank(q.reader) then Err(BadQuery)
    else if !UnitInterval(relevance) || !UnitInterval(q.firstHandWeight) || !UnitInterval(q.inheritedWeight) then Err(BadQuery)
    else if q.inheritedWeight > q.firstHandWeight then Err(BadQuery)
    else
      var firstHand := r.originAgentHash == d.agentHash(q.reader);
      var weight := if firstHand then q.firstHandWeight else q.inheritedWeight;
      Ok(Row(r, firstHand, weight, relevance * r.salience * r.confidence * weight))
  }

  function WeighAll(d: Digests, records: seq<Record>, q: Query): Result<seq<Row>, RecallError> {
    if records == [] then Ok([])
    else
      var first :- WeightMemory(d, records[0], q);
      var rest :- WeighAll(d, records[1..], q);
      Ok([first] + rest)
  }

  /** Higher scores first, then keys in order. */
  predicate Outranks(q: Query, a: Row, b: Row) {
    a.score > b.score || (a.score == b.score && q.keyLess(a.record.key, b.record.key))
  }

  function Ranking(q: Query): (Row, Row) -> bool {
    (a: Row, b: Row) => Outranks(q, a, b)
  }

  function Recall(d: Digests, db: Db, branch: string, limit: int, q: Query): Result<seq<Row>, RecallError> {
    if limit <= 0 then Err(BadLimit)
    else if branch !in db.refs || db.refs[branch].head.None? then Ok([])
    else
      match RootOf(d, db.heap.objects, db.refs[branch].head)
      case Err(f) => Err(Unreadable(f))
      case Ok(root) =>
        match CollectTrie(d, db.heap.objects, root, d.digits)
        case Err(f) => Err(Unreadable(f))
        case Ok(records) =>
          var rows :- WeighAll(d, records, q);
          Ok(Take(limit, Sort(Ranking(q), rows)))
  }

  // ---- scores -------------------------------------------------------------------------

  lemma UnitProduct(a: real, b: real)
    requires UnitInterval(a) && UnitInterval(b)
    ensures UnitInterval(a * b)
  {
    ProductIsNonNegative(a, b);
    ProductIsNonNegative(1.0 - a, b);
    assert (1.0 - a) * b == b - a * b;
  }

  lemma ProductIsNonNegative(a: real, b: real)
    requires a >= 0.0 && b >= 0.0
    ensures a * b >= 0.0
  {
  }

  /** Scores of well made records stay in the unit interval. */
  lemma ScoreIsUnit(d: Digests, r: Record, q: Query)
    requires WellMade(d, r) && WeightMemory(d, r, q).Ok?
    ensures UnitInterval(WeightMemory(d, r, q).value.score)
  {
    var row := WeightMemory(d, r, q).value;
    UnitProduct(q.relevance(r), r.salience);
    UnitProduct(q.relevance(r) * r.salience, r.confidence);
    UnitProduct(q.relevance(r) * r.salience * r.confidence, row.provenanceWeight);
  }

  /** A record is first-hand to a reader exactly if the reader is its origin, and is weighed so. */
  lemma OriginDecidesWeight(d: Digests, r: Record, q: Query)
    requires WeightMemory(d, r, q).Ok?
    ensures var row := WeightMemory(d, r, q).value;
            && row.record == r
            && (r.originAgentHash == d.agentHash(q.reader) ==> row.firstHand && row.provenanceWeight == q.firstHandWeight)
            && (r.originAgentHash != d.agentHash(q.reader) ==> !row.firstHand && row.provenanceWeight == q.inheritedWeight)
  {
  }

  /** When a record can be weighed: it is what it was sealed as, the reader has a name, and all
      multipliers are between zero and one, the inherited one not above the first-hand one. */
  lemma WeighsExactly(d: Digests, r: Record, q: Query)
    ensures WeightMemory(d, r, q).Ok?
            <==> && d.isDigest(r.provenanceHash) && r.provenanceHash == d.provenance(r.(provenanceHash := ""))
                 && !d.blank(q.reader)
                 && 0.0 <= q.relevance(r) <= 1.0
                 && 0.0 <= q.inheritedWeight <= q.firstHandWeight <= 1.0
  {
  }

  /** Of two records that matter equally, the reader's own is weighed as first-hand, the other as
      inherited, and the own one is never scored below the other. */
  lemma FirstHandIsNotBelowInherited(d: Digests, own: Record, inherited: Record, q: Query)
    requires WellMade(d, own) && WellMade(d, inherited)
    requires WeightMemory(d, own, q).Ok? && WeightMemory(d, inherited, q).Ok?
    requires own.originAgentHash == d.agentHash(q.reader) && inherited.originAgentHash != d.agentHash(q.reader)
    requires own.salience == inherited.salience && own.confidence == inherited.confidence
    requires q.relevance(own) == q.relevance(inherited)
    ensures var a, b := WeightMemory(d, own, q).value, WeightMemory(d, inherited, q).value;
            && a.firstHand && !b.firstHand
            && a.provenanceWeight == q.firstHandWeight && b.provenanceWeight == q.inheritedWeight
            && a.score >= b.score
  {
    var base := q.relevance(own) * own.salience * own.confidence;
    UnitProduct(q.relevance(own), own.salience);
    UnitProduct(q.relevance(own) * own.salience, own.confidence);
    ProductIsNonNegative(base, q.firstHandWeight - q.inheritedWeight);
    assert base * (q.firstHandWeight - q.inheritedWeight) == base * q.firstHandWeight - base * q.inheritedWeight;
  }

  /** A score is the provenance weight when everything else is full. */
  lemma FullScoreIsWeight(d: Digests, r: Record, q: Query)
    requires WeightMemory(d, r, q).Ok? && q.relevance(r) == 1.0 && r.salience == 1.0 && r.confidence == 1.0
    ensures WeightMemory(d, r, q).value.score == WeightMemory(d, r, q).value.provenanceWeight
  {
  }

  /** A score is zero exactly if something that it is made of is. */
  lemma ZeroScore(d: Digests, r: Record, q: Query)
    requires WeightMemory(d, r, q).Ok?
    ensures WeightMemory(d, r, q).value.score == 0.0
            <==> q.relevance(r) == 0.0 || r.salience == 0.0 || r.confidence == 0.0 || WeightMemory(d, r, q).value.provenanceWeight == 0.0
  {
    NonZeroProduct(q.relevance(r), r.salience);
    NonZeroProduct(q.relevance(r) * r.salience, r.confidence);
    NonZeroProduct(q.relevance(r) * r.salience * r.confidence, WeightMemory(d, r, q).value.provenanceWeight);
  }

  lemma NonZeroProduct(a: real, b: real)
    ensures a * b == 0.0 <==> a == 0.0 || b == 0.0
  {
    if a != 0.0 && b != 0.0 { assert a * b != 0.0; }
  }

  /** What one thing contributes to a score: scaling it scales the score. */
  ghost predicate Scales(a: Record, b: Record, qa: Query, qb: Query, t: real) {
    || (qb.relevance(b) == t * qa.relevance(a) && b.salience == a.salience && b.confidence == a.confidence)
    || (qb.relevance(b) == qa.relevance(a) && b.salience == t * a.salience && b.confidence == a.confidence)
    || (qb.relevance(b) == qa.relevance(a) && b.salience == a.salience && b.confidence == t * a.confidence)
  }

  /** Scaling the relevance, the salience or the confidence scales the score alike. */
  lemma ScoreScales(d: Digests, a: Record, b: Record, qa: Query, qb: Query, t: real)
    requires WeightMemory(d, a, qa).Ok? && WeightMemory(d, b, qb).Ok? && Scales(a, b, qa, qb, t)
    requires WeightMemory(d, a, qa).value.provenanceWeight == WeightMemory(d, b, qb).value.provenanceWeight
    ensures WeightMemory(d, b, qb).value.score == t * WeightMemory(d, a, qa).value.score
  {
    var w := WeightMemory(d, a, qa).value.provenanceWeight;
    ScaledProduct(qa.relevance(a), a.salience, a.confidence, w, t);
  }

  lemma ScaledProduct(x: real, y: real, z: real, w: real, t: real)
    ensures (t * x) * y * z * w == t * (x * y * z * w)
    ensures x * (t * y) * z * w == t * (x * y * z * w)
    ensures x * y * (t * z) * w == t * (x * y * z * w)
  {
    assert x * (t * y) == t * (x * y);
    assert (t * (x * y)) * z == t * (x * y * z);
    assert (t * x) * y == t * (x * y);
    assert (x * y) * (t * z) == t * (x * y * z);
    assert (t * (x * y * z)) * w == t * (x * y * z * w);
  }

  /** A record that matters at least as much in every respect scores at least as much. */
  lemma ScoreIsMonotone(d: Digests, a: Record, b: Record, qa: Query, qb: Query)
    requires WellMade(d, a) && WellMade(d, b) && WeightMemory(d, a, qa).Ok? && WeightMemory(d, b, qb).Ok?
    requires qa.relevance(a) <= qb.relevance(b) && a.salience <= b.salience && a.confidence <= b.confidence
    requires WeightMemory(d, a, qa).value.provenanceWeight <= WeightMemory(d, b, qb).value.provenanceWeight
    ensures WeightMemory(d, a, qa).value.score <= WeightMemory(d, b, qb).value.score
  {
    MonotoneProduct(qa.relevance(a), qb.relevance(b), a.salience, b.salience);
    MonotoneProduct(qa.relevance(a) * a.salience, qb.relevance(b) * b.salience, a.confidence, b.confidence);
    MonotoneProduct(qa.relevance(a) * a.salience * a.confidence, qb.relevance(b) * b.salience * b.confidence,
                    WeightMemory(d, a, qa).value.provenanceWeight, WeightMemory(d, b, qb).value.provenanceWeight);
  }

  lemma MonotoneProduct(a: real, b: real, x: real, y: real)
    requires 0.0 <= a <= b && 0.0 <= x <= y
    ensures 0.0 <= a * x <= b * y
  {
    ProductIsNonNegative(a, x);
    ProductIsNonNegative(b - a, x);
    ProductIsNonNegative(b, y - x);
    assert (b - a) * x == b * x - a * x;
    assert b * (y - x) == b * y - b * x;
  }

  // ---- exactness ----------------------------------------------------------------------

  lemma RankingIsOrder(q: Query)
    requires StringOrder(q.keyLess)
    ensures WeakOrder(Ranking(q))
  {
    var lt := Ranking(q);
    forall a: Row, b: Row, c: Row | lt(a, c) ensures lt(a, b) || lt(b, c) {
      if !lt(a, b) && a.score == b.score && b.score == c.score && a.record.key != b.record.key {
        assert q.keyLess(b.record.key, a.record.key);
      }
    }
  }

  lemma {:induction false} WeighAllFacts(d: Digests, records: seq<Record>, q: Query)
    ensures WeighAll(d, records, q).Ok? <==> forall r :: r in records ==> WeightMemory(d, r, q).Ok?
    ensures var rows := WeighAll(d, records, q);
            rows.Ok? ==>
              && |rows.value| == |records|
              && forall i :: 0 <= i < |records| ==> rows.value[i] == WeightMemory(d, records[i], q).value
  {
    if records != [] {
      WeighAllFacts(d, records[1..], q);
      assert records == [records[0]] + records[1..];
    }
  }

  ghost predicate Weighable(d: Digests, m: Content, q: Query) {
    forall p :: p in m ==> WeightMemory(d, m[p], q).Ok?
  }

  /** The rows to be ranked, in the order in which the trie is walked: a function of the map. */
  ghost function AllRows(d: Digests, m: Content, q: Query): seq<Row>
    requires Filed(d, m) && Weighable(d, m, q)
  {
    PathsAreExact(m, d.digits);
    var paths := Paths(m, d.digits);
    seq(|paths|, i requires 0 <= i < |paths| => WeightMemory(d, m[paths[i]], q).value)
  }

  /** A recall depends on the records of the branch alone; it fails exactly when the limit is
      not positive or some record of the branch cannot be weighed. */
  lemma RecallIsDetermined(d: Digests, db: Db, c: Picture, branch: string, limit: int, q: Query)
    requires Depicts(d, db, c)
    ensures branch in c ==> Filed(d, c[branch])
    ensures var r := Recall(d, db, branch, limit, q);
            && (r.Ok? <==> limit > 0 && (branch in c ==> Weighable(d, c[branch], q)))
            && (r.Ok? ==> r.value == if branch !in c then []
                                     else Take(limit, Sort(Ranking(q), AllRows(d, c[branch], q))))
  {
    if branch in c {
      var m := c[branch];
      RootOfBranch(d, db, c, branch);
      assert BranchHolds(d, db.heap.objects, db.refs[branch].head, m);
      PathsAreExact(m, d.digits);
      if db.refs[branch].head.Some? {
        CollectTrieIsExact(d, db.heap.objects, m, d.digits);
        WeighListing(d, m, q);
      } else {
        EmptyRows(d, m, q);
      }
    }
  }

  lemma EmptyRows(d: Digests, m: Content, q: Query)
    requires m == map[]
    ensures Filed(d, m) && Weighable(d, m, q) && AllRows(d, m, q) == []
  {
  }

  lemma WeighListing(d: Digests, m: Content, q: Query)
    requires Filed(d, m)
    ensures forall p :: p in Paths(m, d.digits) ==> p in m
    ensures var rows := WeighAll(d, RecordsAt(m, Paths(m, d.digits)), q);
            && (rows.Ok? <==> Weighable(d, m, q))
            && (rows.Ok? ==> rows.value == AllRows(d, m, q))
  {
    PathsAreExact(m, d.digits);
    var paths := Paths(m, d.digits);
    var records := RecordsAt(m, paths);
    WeighAllFacts(d, records, q);
    if WeighAll(d, records, q).Ok? {
      forall p | p in m ensures WeightMemory(d, m[p], q).Ok? {
        var i :| 0 <= i < |paths| && paths[i] == p;
        assert records[i] in records;
      }
    }
  }

  /** Recall is an exact top-k: as many rows as asked for or as there are, each the row of a
      record of the branch, strictly ranked (hence none twice), and every record that is left
      out is outranked by every row that is returned. */
  lemma RecallIsExactTopK(d: Digests, db: Db, c: Picture, branch: string, limit: int, q: Query)
    requires Depicts(d, db, c) && branch in c && StringOrder(q.keyLess)
    requires Recall(d, db, branch, limit, q).Ok?
    ensures Weighable(d, c[branch], q)
    ensures var rows, m := Recall(d, db, branch, limit, q).value, c[branch];
            && |rows| == Min(limit, |m|)
            && (forall row :: row in rows ==> IsRowOf(d, m, q, row))
            && (forall i, j :: 0 <= i < j < |rows| ==> Outranks(q, rows[i], rows[j]))
            && (forall p :: p in m ==>
                  WeightMemory(d, m[p], q).value in rows || OutrankedBy(q, rows, WeightMemory(d, m[p], q).value))
  {
    RecallIsDetermined(d, db, c, branch, limit, q);
    var m := c[branch];
    var sorted := Sort(Ranking(q), AllRows(d, m, q));
    SortedRowsAreStrict(d, m, q);
    SortedRowsAreAll(d, m, q);
    TopOfStrict(q, sorted, limit);
    forall p | p in m
      ensures WeightMemory(d, m[p], q).value in Take(limit, sorted)
              || OutrankedBy(q, Take(limit, sorted), WeightMemory(d, m[p], q).value)
    {
      assert IsRowOf(d, m, q, WeightMemory(d, m[p], q).value);
    }
  }

  /** The sorted rows are those of the branch, as many as its records. */
  lemma SortedRowsAreAll(d: Digests, m: Content, q: Query)
    requires Filed(d, m) && Weighable(d, m, q)
    ensures var sorted := Sort(Ranking(q), AllRows(d, m, q));
            |sorted| == |m| && forall row :: row in sorted <==> IsRowOf(d, m, q, row)
  {
    var all := AllRows(d, m, q);
    PathsAreExact(m, d.digits);
    DistinctCount(Paths(m, d.digits), m.Keys);
    SortMembers(Ranking(q), all);
    MembersAgree(Sort(Ranking(q), all), all);
    RowMembers(d, m, q);
  }

  /** The best come first: scores never rise along the answer, equal scores are in the order of
      keys, and nothing left out would have come before what is returned. */
  lemma RecallIsBestFirst(d: Digests, db: Db, c: Picture, branch: string, limit: int, q: Query)
    requires Depicts(d, db, c) && branch in c && StringOrder(q.keyLess)
    requires Recall(d, db, branch, limit, q).Ok?
    ensures Weighable(d, c[branch], q)
    ensures var rows := Recall(d, db, branch, limit, q).value;
            && (forall i, j :: 0 <= i < j < |rows| ==>
                  && rows[i].score >= rows[j].score
                  && (rows[i].score == rows[j].score ==> q.keyLess(rows[i].record.key, rows[j].record.key)))
            && (forall p, i :: p in c[branch] && 0 <= i < |rows| && WeightMemory(d, c[branch][p], q).value !in rows ==>
                  && rows[i].score >= WeightMemory(d, c[branch][p], q).value.score
                  && (rows[i].score == WeightMemory(d, c[branch][p], q).value.score ==>
                        q.keyLess(rows[i].record.key, c[branch][p].key)))
  {
    RecallIsExactTopK(d, db, c, branch, limit, q);
    var rows := Recall(d, db, branch, limit, q).value;
    forall p, i | p in c[branch] && 0 <= i < |rows| && WeightMemory(d, c[branch][p], q).value !in rows
      ensures Outranks(q, rows[i], WeightMemory(d, c[branch][p], q).value)
    {
      assert rows[i] in rows;
    }
  }

  lemma RanksAll(d: Digests, m: Content, q: Query)
    requires Filed(d, m) && Weighable(d, m, q) && StringOrder(q.keyLess)
    ensures TotalOn(Ranking(q), AllRows(d, m, q))
  {
    var all := AllRows(d, m, q);
    RowKeysDiffer(d, m, q);
    forall x, y | x in all && y in all && x != y ensures Ranking(q)(x, y) || Ranking(q)(y, x) {
      var i :| 0 <= i < |all| && all[i] == x;
      var j :| 0 <= j < |all| && all[j] == y;
      assert i < j || j < i;
    }
  }

  /** A recall does not depend on how the rows are sorted, nor on the order in which the trie is
      walked: it is the front of any ranked arrangement of the weighted records of the branch. */
  lemma AnySortRanksAlike(d: Digests, db: Db, c: Picture, branch: string, limit: int, q: Query, arranged: seq<Row>)
    requires Depicts(d, db, c) && branch in c && StringOrder(q.keyLess) && Recall(d, db, branch, limit, q).Ok?
    requires Filed(d, c[branch]) && Weighable(d, c[branch], q)
    requires multiset(arranged) == multiset(AllRows(d, c[branch], q)) && Sorted(Ranking(q), arranged)
    ensures Recall(d, db, branch, limit, q).value == Take(limit, arranged)
  {
    RecallIsDetermined(d, db, c, branch, limit, q);
    RankingIsOrder(q);
    RanksAll(d, c[branch], q);
    AnySortAgrees(Ranking(q), AllRows(d, c[branch], q), arranged);
  }

  ghost predicate OutrankedBy(q: Query, rows: seq<Row>, loser: Row) {
    forall row :: row in rows ==> Outranks(q, row, loser)
  }

  ghost predicate IsRowOf(d: Digests, m: Content, q: Query, row: Row) {
    exists p :: p in m && WeightMemory(d, m[p], q) == Ok(row)
  }

  lemma RowMembers(d: Digests, m: Content, q: Query)
    requires Filed(d, m) && Weighable(d, m, q)
    ensures forall row :: row in AllRows(d, m, q) <==> IsRowOf(d, m, q, row)
  {
    PathsAreExact(m, d.digits);
    var paths, all := Paths(m, d.digits), AllRows(d, m, q);
    forall row ensures row in all <==> IsRowOf(d, m, q, row) {
      if row in all {
        var i :| 0 <= i < |all| && all[i] == row;
        assert paths[i] in m;
      }
      if p :| p in m && WeightMemory(d, m[p], q) == Ok(row) {
        var i :| 0 <= i < |paths| && paths[i] == p;
        assert all[i] == row;
      }
    }
  }

  /** Different paths hold different keys, so ties are always broken. */
  lemma SortedRowsAreStrict(d: Digests, m: Content, q: Query)
    requires Filed(d, m) && Weighable(d, m, q) && StringOrder(q.keyLess)
    ensures var sorted := Sort(Ranking(q), AllRows(d, m, q));
            forall i, j :: 0 <= i < j < |sorted| ==> Outranks(q, sorted[i], sorted[j])
  {
    var all := AllRows(d, m, q);
    var sorted := Sort(Ranking(q), all);
    RankingIsOrder(q);
    SortSorted(Ranking(q), all);
    SortMembers(Ranking(q), all);
    RowKeysDiffer(d, m, q);
    DistinctKeysSurvive(all, sorted);
    forall i, j | 0 <= i < j < |sorted| ensures Outranks(q, sorted[i], sorted[j]) {
      assert !Ranking(q)(sorted[j], sorted[i]);
    }
  }

  ghost predicate KeysDiffer(rows: seq<Row>) {
    forall i, j :: 0 <= i < j < |rows| ==> rows[i].record.key != rows[j].record.key
  }

  lemma RowKeysDiffer(d: Digests, m: Content, q: Query)
    requires Filed(d, m) && Weighable(d, m, q)
    ensures KeysDiffer(AllRows(d, m, q))
  {
    PathsAreExact(m, d.digits);
    var paths, all := Paths(m, d.digits), AllRows(d, m, q);
    forall i, j | 0 <= i < j < |all| ensures all[i].record.key != all[j].record.key {
      assert paths[i] in m && paths[j] in m;
      assert paths[i] == d.PathOf(all[i].record.key) && paths[j] == d.PathOf(all[j].record.key);
    }
  }

  /** Keys that differ pairwise still do after a permutation. */
  lemma {:induction false} DistinctKeysSurvive(a: seq<Row>, b: seq<Row>)
    requires KeysDiffer(a) && multiset(a) == multiset(b)
    ensures KeysDiffer(b)
  {
    MembersAgree(a, b);
    forall i, j | 0 <= i < j < |b| ensures b[i].record.key != b[j].record.key {
      assert b[i] in a && b[j] in a;
      var x :| 0 <= x < |a| && a[x] == b[i];
      var y :| 0 <= y < |a| && a[y] == b[j];
      if b[i] == b[j] {
        TwiceInMultiset(b, i, j);
        OnceInMultiset(a, x);
      } else {
        assert x != y;
        assert x < y || y < x;
      }
    }
  }

  lemma TwiceInMultiset<T>(s: seq<T>, i: int, j: int)
    requires 0 <= i < j < |s| && s[i] == s[j]
    ensures multiset(s)[s[i]] >= 2
  {
    assert s == s[..i] + [s[i]] + s[i + 1..j] + [s[j]] + s[j + 1..];
  }

  lemma OnceInMultiset(s: seq<Row>, x: int)
    requires KeysDiffer(s) && 0 <= x < |s|
    ensures multiset(s)[s[x]] == 1
  {
    assert s == s[..x] + [s[x]] + s[x + 1..];
    assert s[x] !in s[..x];
    assert s[x] !in s[x + 1..];
  }

  /** The front of a strictly ranked list. */
  lemma TopOfStrict(q: Query, sorted: seq<Row>, limit: nat)
    requires forall i, j :: 0 <= i < j < |sorted| ==> Outranks(q, sorted[i], sorted[j])
    ensures |Take(limit, sorted)| == Min(limit, |sorted|)
    ensures forall row :: row in Take(limit, sorted) ==> row in sorted
    ensures forall row :: row in sorted ==>
              row in Take(limit, sorted) || OutrankedBy(q, Take(limit, sorted), row)
  {
    var top := Take(limit, sorted);
    forall row | row in sorted
      ensures row in top || OutrankedBy(q, top, row)
    {
      var j :| 0 <= j < |sorted| && sorted[j] == row;
      if j < |top| { assert top[j] == row; }
    }
  }
}
