/** Filtered recall: the rows of the ranked ones that a view shows, and exactly when a view hides
    nothing that a caller could have had. The ordinary and the scoped recall are its two cases. */
module VisibleRecall {
  import opened Common
  import opened Sorting
  import opened FeedbackLoop
  import Objects
  import Trie
  import Dreamcatcher
  import Recall

  lemma {:induction false} FilterMembers<T>(rows: seq<T>, keep: T -> bool)
    ensures forall x :: x in Filter(rows, keep) <==> x in rows && keep(x)
    ensures |Filter(rows, keep)| <= |rows|
    ensures |Filter(rows, keep)| == |rows| <==> forall x :: x in rows ==> keep(x)
    ensures NoDuplicates(rows) ==> NoDuplicates(Filter(rows, keep))
  {
    if rows != [] {
      var front, last := rows[..|rows| - 1], rows[|rows| - 1];
      FilterMembers(front, keep);
      assert rows == front + [last];
      if NoDuplicates(rows) { assert last !in front; }
    }
  }

  /** The records of the branch that the view shows. */
  ghost function Visible(view: View, m: Trie.Content): set<Objects.Path> {
    set p | p in m && view(m[p].key)
  }

  ghost predicate NoneHidden(view: View, top: seq<Recall.Row>) {
    forall row :: row in top ==> view(row.record.key)
  }

  /** The rows include the row of every visible record. */
  ghost predicate AllVisibleIn(view: View, d: Objects.Digests, m: Trie.Content, q: Recall.Query, rows: seq<Recall.Row>) {
    forall p :: p in Visible(view, m) ==> Recall.WeightMemory(d, m[p], q).Ok? && Recall.WeightMemory(d, m[p], q).value in rows
  }

  function PathOfRow(d: Objects.Digests, row: Recall.Row): Objects.Path { d.PathOf(row.record.key) }

  ghost function PathsOf(d: Objects.Digests, rows: seq<Recall.Row>): set<Objects.Path> {
    set row | row in rows :: PathOfRow(d, row)
  }

  /** A list of different rows of the branch. */
  ghost predicate RowsOf(d: Objects.Digests, m: Trie.Content, q: Recall.Query, rows: seq<Recall.Row>) {
    NoDuplicates(rows) && forall row :: row in rows ==> RowAt(d, m, q, row)
  }

  ghost predicate RowAt(d: Objects.Digests, m: Trie.Content, q: Recall.Query, row: Recall.Row) {
    PathOfRow(d, row) in m && Recall.WeightMemory(d, m[PathOfRow(d, row)], q) == Ok(row) && row.record == m[PathOfRow(d, row)]
  }

  /** As many rows as records that they are rows of. */
  lemma {:induction false} RowsCount(d: Objects.Digests, m: Trie.Content, q: Recall.Query, rows: seq<Recall.Row>)
    requires RowsOf(d, m, q, rows)
    ensures |PathsOf(d, rows)| == |rows| && PathsOf(d, rows) <= m.Keys
  {
    if rows != [] {
      var front, last := rows[..|rows| - 1], rows[|rows| - 1];
      assert rows == front + [last];
      assert RowsOf(d, m, q, front);
      RowsCount(d, m, q, front);
      assert PathsOf(d, rows) == PathsOf(d, front) + {PathOfRow(d, last)};
      assert PathOfRow(d, last) !in PathsOf(d, front) by { NewPath(d, m, q, front, last); }
    }
  }

  lemma NewPath(d: Objects.Digests, m: Trie.Content, q: Recall.Query, rows: seq<Recall.Row>, last: Recall.Row)
    requires RowsOf(d, m, q, rows) && RowAt(d, m, q, last) && last !in rows
    ensures PathOfRow(d, last) !in PathsOf(d, rows)
  {
    forall row | row in rows ensures PathOfRow(d, row) != PathOfRow(d, last) {
      assert RowAt(d, m, q, row);
    }
  }

  /** What a recall returns: different rows of the branch, as many as the limit and the branch allow. */
  lemma TopIsRows(d: Objects.Digests, db: Dreamcatcher.Db, c: Dreamcatcher.Picture, branch: string, limit: int, q: Recall.Query)
    requires Dreamcatcher.Depicts(d, db, c) && branch in c && StringOrder(q.keyLess)
    requires Recall.Recall(d, db, branch, limit, q).Ok?
    ensures var top := Recall.Recall(d, db, branch, limit, q).value;
            RowsOf(d, c[branch], q, top) && |top| == Min(limit, |c[branch]|) && limit > 0
  {
    var top, m := Recall.Recall(d, db, branch, limit, q).value, c[branch];
    Recall.RecallIsExactTopK(d, db, c, branch, limit, q);
    Recall.RecallIsDetermined(d, db, c, branch, limit, q);
    forall row | row in top ensures RowAt(d, m, q, row) {
      var p :| p in m && Recall.WeightMemory(d, m[p], q) == Ok(row);
      assert p == d.PathOf(m[p].key);
    }
    forall i, j | 0 <= i < j < |top| ensures top[i] != top[j] {
      assert Recall.Outranks(q, top[i], top[j]);
    }
  }

  /** Completeness, by counting: the visible rows are as many as the limit and the visible records
      allow if and only if nothing hidden is among the ranked rows or everything visible is. */
  lemma CountDecides(view: View, d: Objects.Digests, m: Trie.Content, q: Recall.Query, limit: nat, top: seq<Recall.Row>, rows: seq<Recall.Row>)
    requires Dreamcatcher.Filed(d, m) && RowsOf(d, m, q, top) && |top| == Min(limit, |m|) && rows == Filter(top, RowView(view))
    ensures |rows| == Min(limit, |Visible(view, m)|) <==> NoneHidden(view, top) || AllVisibleIn(view, d, m, q, rows)
  {
    FilterMembers(top, RowView(view));
    assert RowsOf(d, m, q, rows);
    RowsCount(d, m, q, top);
    RowsCount(d, m, q, rows);
    VisiblePaths(view, d, m, q, top, rows);
    SubsetIsSmaller(PathsOf(d, rows), Visible(view, m));
    SubsetIsSmaller(Visible(view, m), m.Keys);
    SubsetIsSmaller(PathsOf(d, top), m.Keys);
    if NoneHidden(view, top) && |m| <= limit { AllAreVisible(view, d, m, q, top); }
  }

  lemma AllAreVisible(view: View, d: Objects.Digests, m: Trie.Content, q: Recall.Query, top: seq<Recall.Row>)
    requires RowsOf(d, m, q, top) && PathsOf(d, top) == m.Keys && NoneHidden(view, top)
    ensures Visible(view, m) == m.Keys
  {
    forall p | p in m ensures view(m[p].key) {
      var row :| row in top && PathOfRow(d, row) == p;
      assert RowAt(d, m, q, row);
    }
  }

  lemma VisiblePaths(view: View, d: Objects.Digests, m: Trie.Content, q: Recall.Query, top: seq<Recall.Row>, rows: seq<Recall.Row>)
    requires Dreamcatcher.Filed(d, m) && RowsOf(d, m, q, top) && RowsOf(d, m, q, rows)
    requires forall row :: row in rows <==> row in top && view(row.record.key)
    ensures PathsOf(d, rows) <= Visible(view, m)
    ensures PathsOf(d, rows) == Visible(view, m) <==> AllVisibleIn(view, d, m, q, rows)
  {
    forall row | row in rows ensures PathOfRow(d, row) in Visible(view, m) {
      assert RowAt(d, m, q, row);
    }
    if PathsOf(d, rows) == Visible(view, m) {
      forall p | p in Visible(view, m) ensures Recall.WeightMemory(d, m[p], q).Ok? && Recall.WeightMemory(d, m[p], q).value in rows {
        var row :| row in rows && PathOfRow(d, row) == p;
        assert RowAt(d, m, q, row);
      }
    }
    if AllVisibleIn(view, d, m, q, rows) {
      forall p | p in Visible(view, m) ensures p in PathsOf(d, rows) {
        var row := Recall.WeightMemory(d, m[p], q).value;
        assert row in rows && row.record == m[p];
        assert PathOfRow(d, row) == p;
      }
    }
  }

  /** A filtered recall returns exactly the visible rows among the ranked ones. It returns as many
      as the limit and the visible records allow if and only if no hidden row has used up a place,
      or there was place for every visible one all the same. */
  lemma RecallIsVisibleTopK(view: View, d: Objects.Digests, db: Dreamcatcher.Db, c: Dreamcatcher.Picture,
                            branch: string, limit: int, q: Recall.Query)
    requires Dreamcatcher.Depicts(d, db, c) && branch in c && StringOrder(q.keyLess)
    requires RecallThrough(view, d, db, branch, limit, q).Ok?
    ensures Recall.Recall(d, db, branch, limit, q).Ok?
    ensures var rows, top := RecallThrough(view, d, db, branch, limit, q).value, Recall.Recall(d, db, branch, limit, q).value;
            && (forall row :: row in rows <==> row in top && view(row.record.key))
            && (|rows| == Min(limit, |Visible(view, c[branch])|)
                <==> NoneHidden(view, top) || AllVisibleIn(view, d, c[branch], q, rows))
            && (limit >= |c[branch]| ==> AllVisibleIn(view, d, c[branch], q, rows))
  {
    Recall.RecallIsDetermined(d, db, c, branch, limit, q);
    TopIsRows(d, db, c, branch, limit, q);
    FilteredRows(view, d, c[branch], q, limit, Recall.Recall(d, db, branch, limit, q).value);
  }

  lemma FilteredRows(view: View, d: Objects.Digests, m: Trie.Content, q: Recall.Query, limit: nat, top: seq<Recall.Row>)
    requires Dreamcatcher.Filed(d, m) && RowsOf(d, m, q, top) && |top| == Min(limit, |m|)
    ensures var rows := Filter(top, RowView(view));
            && (forall row :: row in rows <==> row in top && view(row.record.key))
            && (|rows| == Min(limit, |Visible(view, m)|) <==> NoneHidden(view, top) || AllVisibleIn(view, d, m, q, rows))
            && (limit >= |m| ==> AllVisibleIn(view, d, m, q, rows))
  {
    var rows := Filter(top, RowView(view));
    FilterMembers(top, RowView(view));
    CountDecides(view, d, m, q, limit, top, rows);
    if limit >= |m| { CoversBranch(view, d, m, q, top, rows); }
  }

  lemma CoversBranch(view: View, d: Objects.Digests, m: Trie.Content, q: Recall.Query, top: seq<Recall.Row>, rows: seq<Recall.Row>)
    requires RowsOf(d, m, q, top) && |top| == |m|
    requires forall row :: row in rows <==> row in top && view(row.record.key)
    ensures AllVisibleIn(view, d, m, q, rows)
  {
    RowsCount(d, m, q, top);
    SubsetIsSmaller(PathsOf(d, top), m.Keys);
    assert |m| == |m.Keys|;
    forall p | p in Visible(view, m) ensures Recall.WeightMemory(d, m[p], q).Ok? && Recall.WeightMemory(d, m[p], q).value in rows {
      var row :| row in top && PathOfRow(d, row) == p;
      assert RowAt(d, m, q, row);
    }
  }

  // ---- what a query ranks ---------------------------------------------------------------

  /** The recall returns as many visible rows as the limit and the visible records allow. */
  ghost predicate Complete(view: View, d: Objects.Digests, db: Dreamcatcher.Db, m: Trie.Content, branch: string, limit: int, q: Recall.Query) {
    RecallThrough(view, d, db, branch, limit, q).Ok?
    && |RecallThrough(view, d, db, branch, limit, q).value| == Min(limit, |Visible(view, m)|)
  }

  ghost predicate Valid(d: Objects.Digests, db: Dreamcatcher.Db, branch: string, limit: int, q: Recall.Query) {
    StringOrder(q.keyLess) && Recall.Recall(d, db, branch, limit, q).Ok?
  }

  function RowOf(d: Objects.Digests, m: Trie.Content, q: Recall.Query, p: Objects.Path): Recall.Row
    requires p in m && Recall.WeightMemory(d, m[p], q).Ok?
  {
    Recall.WeightMemory(d, m[p], q).value
  }

  /** The records at these paths are the first ones: each of them outranks all others. */
  ghost predicate First(d: Objects.Digests, m: Trie.Content, q: Recall.Query, first: set<Objects.Path>)
    requires Recall.Weighable(d, m, q)
  {
    first <= m.Keys && forall p, y :: p in first && y in m && y !in first ==> Recall.Outranks(q, RowOf(d, m, q, p), RowOf(d, m, q, y))
  }

  lemma OneWay(q: Recall.Query, a: Recall.Row, b: Recall.Row)
    requires StringOrder(q.keyLess) && Recall.Outranks(q, a, b)
    ensures !Recall.Outranks(q, b, a)
  {
    var less, x, y := q.keyLess, a.record.key, b.record.key;
    assert less(x, y) && less(y, x) ==> less(x, x);
  }

  /** What the ranked rows are rows of. */
  ghost predicate Ranked(d: Objects.Digests, m: Trie.Content, q: Recall.Query, top: seq<Recall.Row>) {
    && StringOrder(q.keyLess) && Dreamcatcher.Filed(d, m) && Recall.Weighable(d, m, q) && RowsOf(d, m, q, top)
    && forall p :: p in m ==> RowOf(d, m, q, p) in top || Recall.OutrankedBy(q, top, RowOf(d, m, q, p))
  }

  lemma TopIsRanked(d: Objects.Digests, db: Dreamcatcher.Db, c: Dreamcatcher.Picture, branch: string, limit: int, q: Recall.Query)
    requires Dreamcatcher.Depicts(d, db, c) && branch in c && Valid(d, db, branch, limit, q)
    ensures Ranked(d, c[branch], q, Recall.Recall(d, db, branch, limit, q).value)
  {
    TopIsRows(d, db, c, branch, limit, q);
    Recall.RecallIsExactTopK(d, db, c, branch, limit, q);
    Recall.RecallIsDetermined(d, db, c, branch, limit, q);
  }

  lemma PathIsRanked(d: Objects.Digests, m: Trie.Content, q: Recall.Query, top: seq<Recall.Row>, p: Objects.Path)
    requires Ranked(d, m, q, top) && p in m
    ensures p in PathsOf(d, top) <==> RowOf(d, m, q, p) in top
  {
    assert PathOfRow(d, RowOf(d, m, q, p)) == p;
    if p in PathsOf(d, top) {
      var row :| row in top && PathOfRow(d, row) == p;
      assert RowAt(d, m, q, row);
    }
  }

  /** As many first records as there are rows are the ranked ones. */
  lemma FirstAreRanked(d: Objects.Digests, m: Trie.Content, q: Recall.Query, top: seq<Recall.Row>, first: set<Objects.Path>)
    requires Ranked(d, m, q, top) && First(d, m, q, first) && |first| == |top|
    ensures PathsOf(d, top) == first
  {
    RowsCount(d, m, q, top);
    var paths := PathsOf(d, top);
    if paths <= first {
      SubsetIsSmaller(paths, first);
    } else {
      var y :| y in paths && y !in first;
      forall p | p in first ensures p in paths { PlaceIsKept(d, m, q, top, first, p, y); }
      SubsetIsSmaller(first, paths);
    }
  }

  /** A first record does not leave its place to one that it outranks. */
  lemma PlaceIsKept(d: Objects.Digests, m: Trie.Content, q: Recall.Query, top: seq<Recall.Row>, first: set<Objects.Path>,
                    p: Objects.Path, y: Objects.Path)
    requires Ranked(d, m, q, top) && First(d, m, q, first) && p in first && y in m && y in PathsOf(d, top) && y !in first
    ensures p in PathsOf(d, top)
  {
    PathIsRanked(d, m, q, top, y);
    PathIsRanked(d, m, q, top, p);
    OneWay(q, RowOf(d, m, q, p), RowOf(d, m, q, y));
  }

  // ---- when a record is lost ------------------------------------------------------------

  /** A record whose score some query can make positive. */
  predicate Weighty(r: Objects.Record) { r.salience > 0.0 && r.confidence > 0.0 }

  /** The records that some query ranks before the one at v, all of them together: those that can
      score at all, and those that the order of keys puts first. */
  ghost function Above(m: Trie.Content, less: (string, string) -> bool, v: Objects.Path): set<Objects.Path>
    requires v in m
  {
    set p | p in m && p != v && (Weighty(m[p]) || less(m[p].key, m[v].key))
  }

  /** The record at h and those that the order of keys puts before it. */
  ghost function UpTo(m: Trie.Content, less: (string, string) -> bool, h: Objects.Path): set<Objects.Path>
    requires h in m
  {
    set p | p in m && (p == h || less(m[p].key, m[h].key))
  }

  /** Some query ranks the record at h within the limit and the one at v beyond it. */
  ghost predicate CanPrecede(m: Trie.Content, less: (string, string) -> bool, limit: int, h: Objects.Path, v: Objects.Path)
    requires h in m && v in m
  {
    limit <= |Above(m, less, v)| && (Weighty(m[h]) || (less(m[h].key, m[v].key) && |UpTo(m, less, h)| <= limit))
  }

  /** A hidden record can take the place of a visible one. */
  ghost predicate CanLose(view: View, m: Trie.Content, less: (string, string) -> bool, limit: int) {
    exists h, v :: h in m && v in m && !view(m[h].key) && view(m[v].key) && CanPrecede(m, less, limit, h, v)
  }

  lemma ScoreIsNotNegative(d: Objects.Digests, m: Trie.Content, q: Recall.Query, p: Objects.Path)
    requires Dreamcatcher.Filed(d, m) && p in m && Recall.WeightMemory(d, m[p], q).Ok?
    ensures RowOf(d, m, q, p).score >= 0.0 && (!Weighty(m[p]) ==> RowOf(d, m, q, p).score == 0.0)
  {
    Recall.ScoreIsUnit(d, m[p], q);
    if !Weighty(m[p]) { WeightlessScore(d, m, q, p); }
  }

  lemma WeightlessScore(d: Objects.Digests, m: Trie.Content, q: Recall.Query, p: Objects.Path)
    requires Dreamcatcher.Filed(d, m) && p in m && Recall.WeightMemory(d, m[p], q).Ok? && !Weighty(m[p])
    ensures RowOf(d, m, q, p).score == 0.0
  {
    assert m[p].salience == 0.0 || m[p].confidence == 0.0;
  }

  /** A weightless record outranks another only by its key, and then the other scores nothing. */
  lemma WeightlessOutranks(d: Objects.Digests, m: Trie.Content, q: Recall.Query, p: Objects.Path, y: Objects.Path)
    requires Dreamcatcher.Filed(d, m) && Recall.Weighable(d, m, q) && p in m && y in m && !Weighty(m[p])
    requires Recall.Outranks(q, RowOf(d, m, q, p), RowOf(d, m, q, y))
    ensures q.keyLess(m[p].key, m[y].key)
  {
    ScoreIsNotNegative(d, m, q, p);
    ScoreIsNotNegative(d, m, q, y);
  }

  /** Whatever a query ranks could have been so ranked. */
  lemma RankedPrecedes(d: Objects.Digests, m: Trie.Content, q: Recall.Query, top: seq<Recall.Row>, h: Objects.Path, v: Objects.Path)
    requires Ranked(d, m, q, top) && h in PathsOf(d, top) && v in m && v !in PathsOf(d, top)
    ensures h in m && CanPrecede(m, q.keyLess, |top|, h, v)
  {
    RowsCount(d, m, q, top);
    var paths := PathsOf(d, top);
    forall p, y | p in paths && y in m && y !in paths && !Weighty(m[p]) ensures q.keyLess(m[p].key, m[y].key) {
      RankedOutranks(d, m, q, top, p, y);
      WeightlessOutranks(d, m, q, p, y);
    }
    SubsetIsSmaller(paths, Above(m, q.keyLess, v));
    if !Weighty(m[h]) {
      UpToIsRanked(m, q.keyLess, paths, h);
      SubsetIsSmaller(UpTo(m, q.keyLess, h), paths);
    }
  }

  lemma UpToIsRanked(m: Trie.Content, less: (string, string) -> bool, paths: set<Objects.Path>, h: Objects.Path)
    requires StringOrder(less) && h in m && h in paths
    requires forall y :: y in m && y !in paths ==> less(m[h].key, m[y].key)
    ensures UpTo(m, less, h) <= paths
  {
    forall y | y in UpTo(m, less, h) ensures y in paths {
      var a, b := m[h].key, m[y].key;
      assert less(a, b) && less(b, a) ==> less(a, a);
    }
  }

  lemma RankedOutranks(d: Objects.Digests, m: Trie.Content, q: Recall.Query, top: seq<Recall.Row>, p: Objects.Path, y: Objects.Path)
    requires Ranked(d, m, q, top) && p in m && p in PathsOf(d, top) && y in m && y !in PathsOf(d, top)
    ensures Recall.Outranks(q, RowOf(d, m, q, p), RowOf(d, m, q, y))
  {
    PathIsRanked(d, m, q, top, p);
    PathIsRanked(d, m, q, top, y);
  }

  // ---- a query that loses it --------------------------------------------------------------

  /** Records that a query can rank first: a weightless one among them is, by its key, before all
      records that are not. */
  ghost predicate Rankable(m: Trie.Content, less: (string, string) -> bool, first: set<Objects.Path>) {
    first <= m.Keys && forall p, y :: p in first && y in m && y !in first && !Weighty(m[p]) ==> less(m[p].key, m[y].key)
  }

  lemma AboveIsRankable(m: Trie.Content, less: (string, string) -> bool, v: Objects.Path)
    requires StringOrder(less) && v in m && KeysDiffer(m)
    ensures Rankable(m, less, Above(m, less, v))
  {
    forall p, y | p in Above(m, less, v) && y in m && y !in Above(m, less, v) && !Weighty(m[p]) ensures less(m[p].key, m[y].key) {
      if y != v { assert less(m[v].key, m[y].key); }
    }
  }

  ghost predicate KeysDiffer(m: Trie.Content) {
    forall p, y :: p in m && y in m && p != y ==> m[p].key != m[y].key
  }

  /** The one with the greatest key. */
  lemma {:induction false} Greatest(m: Trie.Content, less: (string, string) -> bool, s: set<Objects.Path>) returns (g: Objects.Path)
    requires StringOrder(less) && KeysDiffer(m) && s <= m.Keys && s != {}
    ensures g in s && forall p :: p in s && p != g ==> less(m[p].key, m[g].key)
    decreases |s|
  {
    var x :| x in s;
    if s == {x} { return x; }
    var rest := s - {x};
    assert s == rest + {x};
    var y := Greatest(m, less, rest);
    g := if less(m[x].key, m[y].key) then y else x;
  }

  /** Records that can be ranked first can be cut down to the limit without giving up the one at h. */
  lemma {:induction false} CutDown(m: Trie.Content, less: (string, string) -> bool, limit: nat, h: Objects.Path, first: set<Objects.Path>)
    returns (cut: set<Objects.Path>)
    requires StringOrder(less) && KeysDiffer(m) && Rankable(m, less, first) && h in first && 1 <= limit <= |first|
    requires Weighty(m[h]) || |UpTo(m, less, h)| <= limit
    ensures h in cut && cut <= first && |cut| == limit && Rankable(m, less, cut)
    decreases |first|
  {
    if |first| == limit { return first; }
    var others := first - {h};
    assert first == others + {h};
    var g := Greatest(m, less, others);
    GreatestGoes(m, less, limit, h, first, g);
    cut := CutDown(m, less, limit, h, first - {g});
  }

  lemma GreatestGoes(m: Trie.Content, less: (string, string) -> bool, limit: nat, h: Objects.Path, first: set<Objects.Path>, g: Objects.Path)
    requires StringOrder(less) && KeysDiffer(m) && Rankable(m, less, first) && h in first && limit < |first|
    requires Weighty(m[h]) || |UpTo(m, less, h)| <= limit
    requires g in first && g != h && forall p :: p in first && p != h && p != g ==> less(m[p].key, m[g].key)
    ensures Rankable(m, less, first - {g})
  {
    if !Weighty(m[h]) && !less(m[h].key, m[g].key) {
      assert less(m[g].key, m[h].key);
      assert first <= UpTo(m, less, h);
      SubsetIsSmaller(first, UpTo(m, less, h));
      assert false;
    }
    forall p, y | p in first - {g} && y in m && y !in first - {g} && !Weighty(m[p]) ensures less(m[p].key, m[y].key) {
      if y == g { assert p == h || less(m[p].key, m[g].key); }
    }
  }

  /** A query that wants these records and no others. */
  function Wanting(q: Recall.Query, wanted: set<Objects.Record>): Recall.Query {
    q.(relevance := (r: Objects.Record) => if r in wanted then 1.0 else 0.0, firstHandWeight := 1.0, inheritedWeight := 1.0)
  }

  ghost function RecordsOf(m: Trie.Content, paths: set<Objects.Path>): set<Objects.Record> {
    set p | p in paths && p in m :: m[p]
  }

  lemma WantedScore(d: Objects.Digests, m: Trie.Content, q: Recall.Query, wanted: set<Objects.Record>, p: Objects.Path)
    requires Dreamcatcher.Filed(d, m) && p in m && Recall.WeightMemory(d, m[p], q).Ok?
    ensures Recall.WeightMemory(d, m[p], Wanting(q, wanted)).Ok?
    ensures RowOf(d, m, Wanting(q, wanted), p).record == m[p]
    ensures var score := RowOf(d, m, Wanting(q, wanted), p).score;
            && (m[p] !in wanted ==> score == 0.0)
            && (m[p] in wanted && Weighty(m[p]) ==> score > 0.0)
  {
    var r := m[p];
    if r in wanted && Weighty(r) { Positive(r.salience, r.confidence); }
  }

  lemma Positive(a: real, b: real)
    requires a > 0.0 && b > 0.0
    ensures 1.0 * a * b * 1.0 > 0.0
  {
    assert a * b > 0.0;
  }

  /** That query ranks first what can be ranked first. */
  lemma WantedAreFirst(d: Objects.Digests, m: Trie.Content, q: Recall.Query, first: set<Objects.Path>)
    requires Dreamcatcher.Filed(d, m) && Recall.Weighable(d, m, q) && Rankable(m, q.keyLess, first)
    ensures Recall.Weighable(d, m, Wanting(q, RecordsOf(m, first)))
    ensures First(d, m, Wanting(q, RecordsOf(m, first)), first)
  {
    var wanted := RecordsOf(m, first);
    forall p | p in m ensures Recall.WeightMemory(d, m[p], Wanting(q, wanted)).Ok? { WantedScore(d, m, q, wanted, p); }
    forall p, y | p in first && y in m && y !in first
      ensures Recall.Outranks(Wanting(q, wanted), RowOf(d, m, Wanting(q, wanted), p), RowOf(d, m, Wanting(q, wanted), y))
    {
      WantedScore(d, m, q, wanted, p);
      WantedScore(d, m, q, wanted, y);
      Recall.ScoreIsUnit(d, m[p], Wanting(q, wanted));
      assert m[p] in wanted && m[y] !in wanted by { WantedPaths(d, m, first, y); }
    }
  }

  lemma WantedPaths(d: Objects.Digests, m: Trie.Content, first: set<Objects.Path>, y: Objects.Path)
    requires Dreamcatcher.Filed(d, m) && y in m && y !in first
    ensures m[y] !in RecordsOf(m, first)
  {
    forall p | p in first && p in m ensures m[p] != m[y] {
      assert p == d.PathOf(m[p].key) && y == d.PathOf(m[y].key);
    }
  }

  lemma FiledKeysDiffer(d: Objects.Digests, m: Trie.Content)
    requires Dreamcatcher.Filed(d, m)
    ensures KeysDiffer(m)
  {
    forall p, y | p in m && y in m && p != y ensures m[p].key != m[y].key {
      assert p == d.PathOf(m[p].key) && y == d.PathOf(m[y].key);
    }
  }

  /** A query under the given order of keys that has the record at h and not the one at v. */
  lemma LosingQuery(d: Objects.Digests, m: Trie.Content, q: Recall.Query, limit: nat, h: Objects.Path, v: Objects.Path)
    returns (loses: Recall.Query, first: set<Objects.Path>)
    requires StringOrder(q.keyLess) && Dreamcatcher.Filed(d, m) && Recall.Weighable(d, m, q)
    requires h in m && v in m && h != v && limit >= 1 && CanPrecede(m, q.keyLess, limit, h, v)
    ensures loses.keyLess == q.keyLess && Recall.Weighable(d, m, loses) && First(d, m, loses, first)
    ensures h in first && v !in first && |first| == limit
  {
    FiledKeysDiffer(d, m);
    AboveIsRankable(m, q.keyLess, v);
    first := CutDown(m, q.keyLess, limit, h, Above(m, q.keyLess, v));
    loses := Wanting(q, RecordsOf(m, first));
    WantedAreFirst(d, m, q, first);
  }

  // ---- every query ------------------------------------------------------------------------

  /** A recall is incomplete exactly if it ranks a hidden record and leaves out a visible one. */
  lemma IncompleteIff(view: View, d: Objects.Digests, db: Dreamcatcher.Db, c: Dreamcatcher.Picture, branch: string, limit: int, q: Recall.Query)
    requires Dreamcatcher.Depicts(d, db, c) && branch in c && Valid(d, db, branch, limit, q)
    ensures var m, paths := c[branch], PathsOf(d, Recall.Recall(d, db, branch, limit, q).value);
            Complete(view, d, db, m, branch, limit, q)
            <==> !((exists h :: h in paths && h in m && !view(m[h].key)) && exists v :: v in m && v !in paths && view(m[v].key))
  {
    var top, m := Recall.Recall(d, db, branch, limit, q).value, c[branch];
    RecallIsVisibleTopK(view, d, db, c, branch, limit, q);
    TopIsRanked(d, db, c, branch, limit, q);
    var rows := RecallThrough(view, d, db, branch, limit, q).value;
    HiddenRow(view, d, m, q, top);
    LeftOut(view, d, m, q, top, rows);
  }

  lemma HiddenRow(view: View, d: Objects.Digests, m: Trie.Content, q: Recall.Query, top: seq<Recall.Row>)
    requires Ranked(d, m, q, top)
    ensures NoneHidden(view, top) <==> !exists h :: h in PathsOf(d, top) && h in m && !view(m[h].key)
  {
    if h :| h in PathsOf(d, top) && h in m && !view(m[h].key) {
      PathIsRanked(d, m, q, top, h);
      assert RowOf(d, m, q, h).record.key == m[h].key;
    }
    if row :| row in top && !view(row.record.key) {
      assert RowAt(d, m, q, row);
      assert PathOfRow(d, row) in PathsOf(d, top);
    }
  }

  lemma LeftOut(view: View, d: Objects.Digests, m: Trie.Content, q: Recall.Query, top: seq<Recall.Row>, rows: seq<Recall.Row>)
    requires Ranked(d, m, q, top) && forall row :: row in rows <==> row in top && view(row.record.key)
    ensures AllVisibleIn(view, d, m, q, rows) <==> !exists v :: v in m && v !in PathsOf(d, top) && view(m[v].key)
  {
    forall p | p in m ensures p in PathsOf(d, top) <==> RowOf(d, m, q, p) in top { PathIsRanked(d, m, q, top, p); }
    if v :| v in m && v !in PathsOf(d, top) && view(m[v].key) { assert v in Visible(view, m); }
  }

  /** Completeness, exactly: under a given order of keys, every query that is answered finds as many
      visible rows as the limit and the visible records allow, if and only if no hidden record can
      take the place of a visible one. */
  lemma CompleteIffNoneCanBeLost(view: View, d: Objects.Digests, db: Dreamcatcher.Db, c: Dreamcatcher.Picture, branch: string, limit: int,
                                 some: Recall.Query)
    requires Dreamcatcher.Depicts(d, db, c) && branch in c && Valid(d, db, branch, limit, some)
    ensures (forall q: Recall.Query :: q.keyLess == some.keyLess && Valid(d, db, branch, limit, q)
                                       ==> Complete(view, d, db, c[branch], branch, limit, q))
            <==> !CanLose(view, c[branch], some.keyLess, limit)
  {
    var m := c[branch];
    Recall.RecallIsDetermined(d, db, c, branch, limit, some);
    if CanLose(view, m, some.keyLess, limit) {
      var h, v :| h in m && v in m && !view(m[h].key) && view(m[v].key) && CanPrecede(m, some.keyLess, limit, h, v);
      var q := LosesIt(view, d, db, c, branch, limit, some, h, v);
    } else {
      forall q: Recall.Query | q.keyLess == some.keyLess && Valid(d, db, branch, limit, q)
        ensures Complete(view, d, db, m, branch, limit, q)
      {
        NothingIsLost(view, d, db, c, branch, limit, q);
      }
    }
  }

  lemma LosesIt(view: View, d: Objects.Digests, db: Dreamcatcher.Db, c: Dreamcatcher.Picture, branch: string, limit: int,
                some: Recall.Query, h: Objects.Path, v: Objects.Path) returns (q: Recall.Query)
    requires Dreamcatcher.Depicts(d, db, c) && branch in c && Valid(d, db, branch, limit, some) && h in c[branch] && v in c[branch]
    requires !view(c[branch][h].key) && view(c[branch][v].key) && CanPrecede(c[branch], some.keyLess, limit, h, v)
    ensures q.keyLess == some.keyLess && Valid(d, db, branch, limit, q) && !Complete(view, d, db, c[branch], branch, limit, q)
  {
    var m := c[branch];
    Recall.RecallIsDetermined(d, db, c, branch, limit, some);
    var first;
    q, first := LosingQuery(d, m, some, limit, h, v);
    Recall.RecallIsDetermined(d, db, c, branch, limit, q);
    TopIsRanked(d, db, c, branch, limit, q);
    TopIsRows(d, db, c, branch, limit, q);
    SubsetIsSmaller(first, m.Keys);
    FirstAreRanked(d, m, q, Recall.Recall(d, db, branch, limit, q).value, first);
    IncompleteIff(view, d, db, c, branch, limit, q);
  }

  lemma NothingIsLost(view: View, d: Objects.Digests, db: Dreamcatcher.Db, c: Dreamcatcher.Picture, branch: string, limit: int, q: Recall.Query)
    requires Dreamcatcher.Depicts(d, db, c) && branch in c && Valid(d, db, branch, limit, q) && !CanLose(view, c[branch], q.keyLess, limit)
    ensures Complete(view, d, db, c[branch], branch, limit, q)
  {
    var top, m := Recall.Recall(d, db, branch, limit, q).value, c[branch];
    IncompleteIff(view, d, db, c, branch, limit, q);
    TopIsRanked(d, db, c, branch, limit, q);
    TopIsRows(d, db, c, branch, limit, q);
    if !Complete(view, d, db, m, branch, limit, q) {
      var h :| h in PathsOf(d, top) && h in m && !view(m[h].key);
      var v :| v in m && v !in PathsOf(d, top) && view(m[v].key);
      RankedPrecedes(d, m, q, top, h, v);
      LimitIsReached(d, m, q, top, limit, v);
    }
  }

  lemma LimitIsReached(d: Objects.Digests, m: Trie.Content, q: Recall.Query, top: seq<Recall.Row>, limit: int, v: Objects.Path)
    requires RowsOf(d, m, q, top) && |top| == Min(limit, |m|) && v in m && v !in PathsOf(d, top)
    ensures |top| == limit
  {
    RowsCount(d, m, q, top);
    SubsetIsSmaller(PathsOf(d, top), m.Keys);
    assert |m| == |m.Keys|;
  }

  // ---- the caller's condition ---------------------------------------------------------------

  /** Nothing is hidden, nothing is visible, or the limit covers the branch. */
  ghost predicate NothingToLose(view: View, m: Trie.Content, limit: int) {
    (forall p :: p in m ==> view(m[p].key)) || Visible(view, m) == {} || limit >= |m|
  }

  lemma LosingNeedsBoth(view: View, m: Trie.Content, less: (string, string) -> bool, limit: int)
    requires NothingToLose(view, m, limit)
    ensures !CanLose(view, m, less, limit)
  {
    if h, v :| h in m && v in m && !view(m[h].key) && view(m[v].key) && CanPrecede(m, less, limit, h, v) {
      assert v in Visible(view, m);
      AboveIsProper(m, less, v);
    }
  }

  lemma AboveIsProper(m: Trie.Content, less: (string, string) -> bool, v: Objects.Path)
    requires v in m
    ensures |Above(m, less, v)| < |m|
  {
    SubsetIsSmaller(Above(m, less, v) + {v}, m.Keys);
    assert |m| == |m.Keys|;
  }

  /** Where every record weighs something, the order of keys does not matter. */
  lemma WeightyCanLose(view: View, m: Trie.Content, less: (string, string) -> bool, limit: int)
    requires forall p :: p in m ==> Weighty(m[p])
    ensures CanLose(view, m, less, limit) <==> !NothingToLose(view, m, limit)
  {
    if NothingToLose(view, m, limit) {
      LosingNeedsBoth(view, m, less, limit);
    } else {
      var h :| h in m && !view(m[h].key);
      var v :| v in Visible(view, m);
      assert Above(m, less, v) + {v} == m.Keys;
      assert |m| == |m.Keys|;
      assert CanPrecede(m, less, limit, h, v);
    }
  }

  /** Under one order of keys, where every record weighs something: every query is complete if and
      only if nothing is hidden, nothing is visible, or the limit covers the branch. */
  lemma RelevanceAloneLoses(view: View, d: Objects.Digests, db: Dreamcatcher.Db, c: Dreamcatcher.Picture, branch: string, limit: int,
                            some: Recall.Query)
    requires Dreamcatcher.Depicts(d, db, c) && branch in c && Valid(d, db, branch, limit, some)
    requires forall p :: p in c[branch] ==> Weighty(c[branch][p])
    ensures (forall q: Recall.Query :: q.keyLess == some.keyLess && Valid(d, db, branch, limit, q)
                                       ==> Complete(view, d, db, c[branch], branch, limit, q))
            <==> NothingToLose(view, c[branch], limit)
  {
    CompleteIffNoneCanBeLost(view, d, db, c, branch, limit, some);
    WeightyCanLose(view, c[branch], some.keyLess, limit);
  }

  /** An order with a given first and a given last key. */
  function Edged(first: string, last: string, less: (string, string) -> bool): (string, string) -> bool {
    (a, b) => if a == first || b == first then a == first && b != first
              else if a == last || b == last then b == last && a != last
              else less(a, b)
  }

  lemma EdgedIsOrder(first: string, last: string, less: (string, string) -> bool)
    requires StringOrder(less) && first != last
    ensures StringOrder(Edged(first, last, less))
  {
  }

  /** Whatever they weigh, some order of keys lets one record take the place of another. */
  lemma EdgedPrecedes(m: Trie.Content, less: (string, string) -> bool, limit: int, h: Objects.Path, v: Objects.Path)
    requires KeysDiffer(m) && h in m && v in m && h != v && 1 <= limit < |m|
    ensures CanPrecede(m, Edged(m[h].key, m[v].key, less), limit, h, v)
  {
    var edged := Edged(m[h].key, m[v].key, less);
    assert Above(m, edged, v) + {v} == m.Keys;
    assert |m| == |m.Keys|;
    assert UpTo(m, edged, h) == {h};
  }

  /** Over queries in any order of keys: if some query is answered at all, every query that is
      answered is complete if and only if the branch hides nothing, shows nothing, or is no larger
      than the limit. */
  lemma CompleteIffNothingToLose(view: View, d: Objects.Digests, db: Dreamcatcher.Db, c: Dreamcatcher.Picture, branch: string, limit: int,
                                 some: Recall.Query)
    requires Dreamcatcher.Depicts(d, db, c) && branch in c && Valid(d, db, branch, limit, some)
    ensures (forall q: Recall.Query :: Valid(d, db, branch, limit, q) ==> Complete(view, d, db, c[branch], branch, limit, q))
            <==> NothingToLose(view, c[branch], limit)
  {
    var m := c[branch];
    if NothingToLose(view, m, limit) {
      forall q: Recall.Query | Valid(d, db, branch, limit, q) ensures Complete(view, d, db, m, branch, limit, q) {
        LosingNeedsBoth(view, m, q.keyLess, limit);
        NothingIsLost(view, d, db, c, branch, limit, q);
      }
    } else {
      var h :| h in m && !view(m[h].key);
      var v :| v in Visible(view, m);
      var q := Reordered(d, db, c, branch, limit, some, h, v);
      var loses := LosesIt(view, d, db, c, branch, limit, q, h, v);
    }
  }

  lemma SameWeights(d: Objects.Digests, m: Trie.Content, q: Recall.Query, less: (string, string) -> bool)
    requires Recall.Weighable(d, m, q)
    ensures Recall.Weighable(d, m, q.(keyLess := less))
  {
    forall p | p in m ensures Recall.WeightMemory(d, m[p], q.(keyLess := less)).Ok? {
      assert Recall.WeightMemory(d, m[p], q).Ok?;
    }
  }

  lemma Reordered(d: Objects.Digests, db: Dreamcatcher.Db, c: Dreamcatcher.Picture, branch: string, limit: int,
                  some: Recall.Query, h: Objects.Path, v: Objects.Path) returns (q: Recall.Query)
    requires Dreamcatcher.Depicts(d, db, c) && branch in c && Valid(d, db, branch, limit, some)
    requires h in c[branch] && v in c[branch] && h != v && limit < |c[branch]|
    ensures Valid(d, db, branch, limit, q) && CanPrecede(c[branch], q.keyLess, limit, h, v)
  {
    var m := c[branch];
    Recall.RecallIsDetermined(d, db, c, branch, limit, some);
    FiledKeysDiffer(d, m);
    q := some.(keyLess := Edged(m[h].key, m[v].key, some.keyLess));
    EdgedIsOrder(m[h].key, m[v].key, some.keyLess);
    SameWeights(d, m, some, q.keyLess);
    Recall.RecallIsDetermined(d, db, c, branch, limit, q);
    EdgedPrecedes(m, some.keyLess, limit, h, v);
  }

  // ---- rows shown, in order -------------------------------------------------------------

  /** Increasing places in a list of so many. */
  ghost predicate Places(at: seq<nat>, n: nat) {
    && (forall i: nat :: i < |at| ==> at[i] < n)
    && (forall i: nat, j: nat :: i < j < |at| ==> at[i] < at[j])
  }

  /** At these places are the rows, and at no other places are any that may be kept. */
  ghost predicate PlacedAt<T>(all: seq<T>, kept: seq<T>, keep: T -> bool, at: seq<nat>) {
    && |at| == |kept| && Places(at, |all|)
    && (forall i: nat :: i < |kept| ==> kept[i] == all[at[i]])
    && (forall k: nat :: k < |all| ==> (keep(all[k]) <==> k in at))
  }

  /** Filtering keeps exactly the places of the rows to be kept, in their order. */
  lemma {:induction false} FilterKeepsPlaces<T>(all: seq<T>, keep: T -> bool) returns (at: seq<nat>)
    ensures PlacedAt(all, Filter(all, keep), keep, at)
  {
    at := [];
    if all != [] {
      var front, n := all[..|all| - 1], |all| - 1;
      var before := FilterKeepsPlaces(front, keep);
      at := if keep(all[n]) then before + [n] else before;
      OneMorePlace(all, Filter(front, keep), keep, before);
    }
  }

  lemma OneMorePlace<T>(all: seq<T>, kept: seq<T>, keep: T -> bool, at: seq<nat>)
    requires all != [] && PlacedAt(all[..|all| - 1], kept, keep, at)
    ensures var n := |all| - 1;
            if keep(all[n]) then PlacedAt(all, kept + [all[n]], keep, at + [n]) else PlacedAt(all, kept, keep, at)
  {
    var n := |all| - 1;
    assert n !in at;
    forall k: nat | k < |all| ensures keep(all[k]) <==> k in (if keep(all[n]) then at + [n] else at) {
      if k < n { assert all[..n][k] == all[k]; }
    }
  }

  /** A filtered recall is the ranked rows that its view shows, in their order. */
  lemma RecallKeepsPlaces(view: View, d: Objects.Digests, db: Dreamcatcher.Db, branch: string, limit: int, q: Recall.Query)
    ensures var ranked, rows := Recall.Recall(d, db, branch, limit, q), RecallThrough(view, d, db, branch, limit, q);
            && (ranked.Err? ==> rows == ranked)
            && (ranked.Ok? ==> rows.Ok? && exists at: seq<nat> :: PlacedAt(ranked.value, rows.value, RowView(view), at))
  {
    var ranked := Recall.Recall(d, db, branch, limit, q);
    if ranked.Ok? { var at := FilterKeepsPlaces(ranked.value, RowView(view)); }
  }

  // ---- the ordinary and the scoped recall ---------------------------------------------------

  /** The ordinary recall returns exactly the visible rows among the ranked ones; they are as many as
      they could be if and only if no hidden row is ranked or every visible one is. */
  lemma OrdinaryRecallIsVisibleTopK(st: Loop, d: Objects.Digests, db: Dreamcatcher.Db, c: Dreamcatcher.Picture,
                                    branch: string, limit: int, q: Recall.Query)
    requires Dreamcatcher.Depicts(d, db, c) && branch in c && StringOrder(q.keyLess)
    requires RecallOrdinary(st, d, db, branch, limit, q).Ok?
    ensures Recall.Recall(d, db, branch, limit, q).Ok?
    ensures var rows, top := RecallOrdinary(st, d, db, branch, limit, q).value, Recall.Recall(d, db, branch, limit, q).value;
            && (forall row :: row in rows <==>
                  row in top && (row.record.key in st.phase ==> st.phase[row.record.key] == Attention || st.phase[row.record.key] == Integration))
            && (|rows| == Min(limit, |Visible(Ordinary(st), c[branch])|)
                <==> NoneHidden(Ordinary(st), top) || AllVisibleIn(Ordinary(st), d, c[branch], q, rows))
            && (limit >= |c[branch]| ==> AllVisibleIn(Ordinary(st), d, c[branch], q, rows))
  {
    RecallIsVisibleTopK(Ordinary(st), d, db, c, branch, limit, q);
  }

  /** So does the scoped recall; each permission adds the rows of its phase and no others. */
  lemma ScopedRecallIsVisibleTopK(st: Loop, d: Objects.Digests, db: Dreamcatcher.Db, c: Dreamcatcher.Picture,
                                  branch: string, limit: int, q: Recall.Query, allowPartitioned: bool, allowContained: bool)
    requires Dreamcatcher.Depicts(d, db, c) && branch in c && StringOrder(q.keyLess)
    requires RecallScoped(st, d, db, branch, limit, q, allowPartitioned, allowContained).Ok?
    ensures Recall.Recall(d, db, branch, limit, q).Ok?
    ensures var view := Scoped(st, allowPartitioned, allowContained);
            var rows := RecallScoped(st, d, db, branch, limit, q, allowPartitioned, allowContained).value;
            var top := Recall.Recall(d, db, branch, limit, q).value;
            && (forall row :: row in rows <==>
                  row in top && !(row.record.key in st.phase && Withheld(st.phase[row.record.key], allowPartitioned, allowContained)))
            && (|rows| == Min(limit, |Visible(view, c[branch])|)
                <==> NoneHidden(view, top) || AllVisibleIn(view, d, c[branch], q, rows))
            && (limit >= |c[branch]| ==> AllVisibleIn(view, d, c[branch], q, rows))
  {
    RecallIsVisibleTopK(Scoped(st, allowPartitioned, allowContained), d, db, c, branch, limit, q);
    ScopedView(st, allowPartitioned, allowContained);
  }

  lemma ScopedView(st: Loop, allowPartitioned: bool, allowContained: bool)
    ensures forall key :: Scoped(st, allowPartitioned, allowContained)(key)
                          <==> !(key in st.phase && Withheld(st.phase[key], allowPartitioned, allowContained))
  {
  }

  predicate Withheld(p: Phase, allowPartitioned: bool, allowContained: bool) {
    p == Disintegration || (p == Partition && !allowPartitioned) || (p == Containment && !allowContained)
  }

  /** Without permissions, the scoped recall still shows what the ordinary one hides, namely the keys
      in derivation: the two agree if and only if no such row is ranked. */
  lemma ScopedShowsDerivations(st: Loop, d: Objects.Digests, db: Dreamcatcher.Db, branch: string, limit: int, q: Recall.Query)
    requires Recall.Recall(d, db, branch, limit, q).Ok?
    ensures RecallScoped(st, d, db, branch, limit, q, false, false) == RecallOrdinary(st, d, db, branch, limit, q)
            <==> forall row :: row in Recall.Recall(d, db, branch, limit, q).value ==> Lookup(st.phase, row.record.key) != Some(Derivation)
  {
    var top := Recall.Recall(d, db, branch, limit, q).value;
    FilterMembers(top, RowView(Ordinary(st)));
    FilterMembers(top, RowView(Scoped(st, false, false)));
    if forall row :: row in top ==> Lookup(st.phase, row.record.key) != Some(Derivation) {
      SameFilter(top, RowView(Scoped(st, false, false)), RowView(Ordinary(st)));
    } else {
      var row :| row in top && Lookup(st.phase, row.record.key) == Some(Derivation);
      assert row in Filter(top, RowView(Scoped(st, false, false))) && row !in Filter(top, RowView(Ordinary(st)));
    }
  }

  lemma {:induction false} NoneKept<T>(rows: seq<T>, keep: T -> bool)
    requires forall x :: x in rows ==> !keep(x)
    ensures Filter(rows, keep) == []
  {
    if rows != [] { NoneKept(rows[..|rows| - 1], keep); }
  }

  lemma {:induction false} SameFilter<T>(rows: seq<T>, f: T -> bool, g: T -> bool)
    requires forall x :: x in rows ==> f(x) == g(x)
    ensures Filter(rows, f) == Filter(rows, g)
  {
    if rows != [] { SameFilter(rows[..|rows| - 1], f, g); }
  }
}
