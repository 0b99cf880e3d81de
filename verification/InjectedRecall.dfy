/** What a recall for the next generation puts into its prompt: of the ranked rows those whose keys are
    not out of sight, in their order, as many as the token budget takes. */
module InjectedRecall {
  import opened Common
  import opened Sorting
  import opened FeedbackLoop
  import opened Hosts
  import Objects
  import Dreamcatcher
  import Recall
  import opened VisibleRecall

  // ---- what lines cost ------------------------------------------------------------------

  function Spent(rows: seq<Recall.Row>, cost: Recall.Row -> nat): nat {
    if rows == [] then 0 else Spent(rows[..|rows| - 1], cost) + cost(rows[|rows| - 1])
  }

  function CostsOf(rows: seq<Recall.Row>, cost: Recall.Row -> nat): seq<nat> {
    seq(|rows|, i requires 0 <= i < |rows| => cost(rows[i]))
  }

  lemma {:induction false} SumAppends(costs: seq<nat>, last: nat)
    ensures Sum(costs + [last]) == Sum(costs) + last
  {
    if costs == [] { assert Sum([last]) == last + Sum([]); }
    else {
      assert (costs + [last])[1..] == costs[1..] + [last];
      SumAppends(costs[1..], last);
    }
  }

  lemma {:induction false} SpentIsSum(rows: seq<Recall.Row>, cost: Recall.Row -> nat)
    ensures Spent(rows, cost) == Sum(CostsOf(rows, cost))
  {
    if rows != [] {
      var front, last := rows[..|rows| - 1], rows[|rows| - 1];
      SpentIsSum(front, cost);
      assert CostsOf(rows, cost) == CostsOf(front, cost) + [cost(last)];
      SumAppends(CostsOf(front, cost), cost(last));
    }
  }

  /** The budget takes a prefix of the rows and not one row more. */
  lemma FitsBudget(rows: seq<Recall.Row>, cost: Recall.Row -> nat, budget: int)
    ensures var n := Fitting(CostsOf(rows, cost), budget);
            && n <= |rows| && (n == 0 || Spent(rows[..n], cost) <= budget)
            && (n < |rows| ==> Spent(rows[..n], cost) + cost(rows[n]) > budget)
  {
    var costs := CostsOf(rows, cost);
    var n := Fitting(costs, budget);
    if budget >= 0 {
      FittingIsLongest(costs, budget);
      assert CostsOf(rows[..n], cost) == costs[..n];
      SpentIsSum(rows[..n], cost);
      if n < |rows| {
        assert costs[..n + 1] == costs[..n] + [cost(rows[n])];
        SumAppends(costs[..n], cost(rows[n]));
      }
    }
  }

  // ---- what is injected -----------------------------------------------------------------

  /** A key that is not in the lifecycle, or is in attention or integrated. */
  predicate InSight(st: Loop, key: string) {
    key !in st.phase || st.phase[key] == Attention || st.phase[key] == Integration
  }

  function SightOf(st: Loop): Recall.Row -> bool { (row: Recall.Row) => InSight(st, row.record.key) }

  /** The lines are the first ones of the rows in sight among the ranked ones; all together fit the
      budget, and with the next row in sight they would not. */
  ghost predicate Injects(st: Loop, ranked: seq<Recall.Row>, lines: seq<Recall.Row>, cost: Recall.Row -> nat, budget: int) {
    exists inSight, at: seq<nat> ::
      && PlacedAt(ranked, inSight, SightOf(st), at) && lines <= inSight
      && (lines == [] || Spent(lines, cost) <= budget)
      && (lines != inSight ==> Spent(lines, cost) + cost(inSight[|lines|]) > budget)
  }

  /** A recall injects the best rows of the branch that are in sight, as many as the budget takes; it
      fails exactly if the store's recall does. */
  lemma InjectsTheVisible(hc: HostConfig, h: Host, limit: int, q: Recall.Query, cost: Recall.Row -> nat, budget: int)
    ensures var ranked, lines := Recall.Recall(hc.d, h.db, hc.branch, limit, q), InjectedLines(hc, h, limit, q, cost, budget);
            && (ranked.Err? ==> lines == ranked)
            && (ranked.Ok? ==> lines.Ok? && Injects(h.loop, ranked.value, lines.value, cost, budget))
  {
    var ranked := Recall.Recall(hc.d, h.db, hc.branch, limit, q);
    if ranked.Ok? {
      var rows := Filter(ranked.value, RowView(Ordinary(h.loop)));
      SameFilter(ranked.value, RowView(Ordinary(h.loop)), SightOf(h.loop));
      var at := FilterKeepsPlaces(ranked.value, SightOf(h.loop));
      FitsBudget(rows, cost, budget);
      var lines := rows[..Fitting(CostsOf(rows, cost), budget)];
      assert InjectedLines(hc, h, limit, q, cost, budget) == Ok(lines);
      assert PlacedAt(ranked.value, rows, SightOf(h.loop), at) && lines <= rows;
    }
  }

  /** So no line tells of a key that is held back, and none is left out for a worse one: every line is a
      ranked row in sight, and a ranked row in sight before a line is a line. */
  lemma InjectedAreInSight(st: Loop, ranked: seq<Recall.Row>, lines: seq<Recall.Row>, cost: Recall.Row -> nat, budget: int)
    requires NoDuplicates(ranked) && Injects(st, ranked, lines, cost, budget)
    ensures forall row :: row in lines ==> row in ranked && InSight(st, row.record.key)
    ensures forall i: nat, k: nat :: k < i < |ranked| && ranked[i] in lines && InSight(st, ranked[k].record.key) ==> ranked[k] in lines
  {
    var inSight, at: seq<nat> :|
      && PlacedAt(ranked, inSight, SightOf(st), at) && lines <= inSight
      && (lines == [] || Spent(lines, cost) <= budget)
      && (lines != inSight ==> Spent(lines, cost) + cost(inSight[|lines|]) > budget);
    forall row | row in lines ensures row in ranked && InSight(st, row.record.key) {
      LineIsInSight(st, ranked, inSight, at, row);
    }
    forall i: nat, k: nat | k < i < |ranked| && ranked[i] in lines && InSight(st, ranked[k].record.key) ensures ranked[k] in lines {
      EarlierIsLine(st, ranked, inSight, at, lines, i, k);
    }
  }

  lemma LineIsInSight(st: Loop, ranked: seq<Recall.Row>, inSight: seq<Recall.Row>, at: seq<nat>, row: Recall.Row)
    requires PlacedAt(ranked, inSight, SightOf(st), at) && row in inSight
    ensures row in ranked && InSight(st, row.record.key)
  {
    var j: nat :| j < |inSight| && inSight[j] == row;
    assert ranked[at[j]] == row && at[j] in at;
    assert SightOf(st)(ranked[at[j]]);
  }

  lemma EarlierIsLine(st: Loop, ranked: seq<Recall.Row>, inSight: seq<Recall.Row>, at: seq<nat>, lines: seq<Recall.Row>, i: nat, k: nat)
    requires PlacedAt(ranked, inSight, SightOf(st), at) && lines <= inSight && NoDuplicates(ranked)
    requires k < i < |ranked| && ranked[i] in lines && InSight(st, ranked[k].record.key)
    ensures ranked[k] in lines
  {
    var j: nat :| j < |lines| && lines[j] == ranked[i];
    assert inSight[j] == ranked[i] && at[j] == i;
    assert SightOf(st)(ranked[k]);
    var m: nat :| m < |at| && at[m] == k;
    assert m < j;
    assert lines[m] == inSight[m] == ranked[k];
  }
}
