/**
 * The hyper-parameter optimiser of the adaptive system: the exhaustive grid
 * search (a recursion that evaluates every combination of a parameter grid
 * and keeps the best score), the per-layer configuration tiers, and the
 * selection, crossover and mutation steps of the genetic search. The
 * evaluation function is an oracle and the random draws are parameters.
 */
module Optimization {
  import opened Common

  /** A parameter assignment, an ordered dictionary from name to value. */
  type Params = seq<(string, real)>

  /** A parameter grid: each name with the list of values to try. */
  type Grid = seq<(string, seq<real>)>

  /** Parameter bounds: each name with its (low, high) pair. */
  type Bounds = seq<(string, (real, real))>

  const DefaultBounds: Bounds :=
    [("learning_rate", (0.01, 0.5)),
     ("weight_decay", (0.9, 0.999)),
     ("error_window_size", (5.0, 50.0)),
     ("recent_weight_factor", (1.0, 5.0)),
     ("min_weight", (0.05, 0.3)),
     ("max_weight", (2.0, 8.0))]

  const DefaultGrid: Grid :=
    [("learning_rate", [0.05, 0.1, 0.2, 0.3]),
     ("weight_decay", [0.95, 0.97, 0.99]),
     ("error_window_size", [10.0, 20.0, 30.0]),
     ("min_weight", [0.1, 0.2, 0.3]),
     ("max_weight", [3.0, 4.0, 5.0])]

  // ------------------------------------------------------------ grid search

  /**
   * The assignments `generate_combinations(grid, current)` evaluates, in
   * evaluation order: `current` itself once the grid is exhausted, otherwise
   * the combinations under each value of the first parameter in turn.
   */
  function Combinations(grid: Grid, current: Params): seq<Params>
    decreases |grid|, if |grid| == 0 then 0 else |grid[0].1| + 1
  {
    if |grid| == 0 then [current] else Branches(grid, current, grid[0].1)
  }

  /** The combinations under the given values of the grid's first parameter. */
  function Branches(grid: Grid, current: Params, values: seq<real>): seq<Params>
    requires |grid| > 0
    decreases |grid|, |values|
  {
    if |values| == 0 then []
    else
      Branches(grid, current, values[..|values| - 1])
      + Combinations(grid[1..], Put(current, grid[0].0, values[|values| - 1]))
  }

  /** The size of the cartesian product: the product of the list lengths. */
  function GridSize(grid: Grid): nat
  {
    if |grid| == 0 then 1 else |grid[0].1| * GridSize(grid[1..])
  }

  lemma {:induction false} CombinationsCount(grid: Grid, current: Params)
    ensures |Combinations(grid, current)| == GridSize(grid)
    decreases |grid|, 1
  {
    if |grid| > 0 {
      BranchesCount(grid, current, grid[0].1);
    }
  }

  lemma {:induction false} BranchesCount(grid: Grid, current: Params, values: seq<real>)
    requires |grid| > 0
    ensures |Branches(grid, current, values)| == |values| * GridSize(grid[1..])
    decreases |grid|, 0, |values|
  {
    if |values| > 0 {
      var init := values[..|values| - 1];
      var g := GridSize(grid[1..]);
      var next := Combinations(grid[1..], Put(current, grid[0].0, values[|values| - 1]));
      BranchesCount(grid, current, init);
      CombinationsCount(grid[1..], Put(current, grid[0].0, values[|values| - 1]));
      assert Branches(grid, current, values) == Branches(grid, current, init) + next;
      MulSucc(|init|, g);
      assert |init| + 1 == |values|;
    }
  }

  lemma MulSucc(n: nat, g: nat)
    ensures (n + 1) * g == n * g + g
  {
  }

  lemma GridSizeCons(x: (string, seq<real>), rest: Grid)
    ensures GridSize([x] + rest) == |x.1| * GridSize(rest)
  {
    assert ([x] + rest)[1..] == rest;
  }

  /** The default grid has 4 * 3 * 3 * 3 * 3 = 324 combinations. */
  lemma DefaultGridSize()
    ensures GridSize(DefaultGrid) == 324
  {
  }

  /**
   * `c` is `current` followed by one value of each grid parameter, in grid
   * order.
   */
  predicate Extends(c: Params, grid: Grid, current: Params)
  {
    |c| == |current| + |grid|
    && c[..|current|] == current
    && forall k :: 0 <= k < |grid| ==> c[|current| + k].0 == grid[k].0 && c[|current| + k].1 in grid[k].1
  }

  /** No grid parameter is already assigned, and the grid names are distinct. */
  predicate Fresh(grid: Grid, current: Params)
  {
    Unique(Keys(grid)) && forall k :: 0 <= k < |grid| ==> !HasKey(current, grid[k].0)
  }

  /**
   * The cartesian product exactly: an assignment is evaluated if and only if
   * it extends `current` by one listed value for each parameter.
   */
  lemma {:induction false} CombinationsExactly(grid: Grid, current: Params, c: Params)
    requires Fresh(grid, current)
    ensures c in Combinations(grid, current) <==> Extends(c, grid, current)
    decreases |grid|, 1
  {
    if |grid| == 0 {
      if Extends(c, grid, current) {
        assert c == c[..|current|];
      }
    } else {
      BranchesExactly(grid, current, grid[0].1, c);
      ExtendsByFirst(c, grid, current);
    }
  }

  /** Extending by the grid is choosing a first value, then extending by the rest. */
  lemma ExtendsByFirst(c: Params, grid: Grid, current: Params)
    requires |grid| > 0
    ensures Extends(c, grid, current) <==>
      exists v :: v in grid[0].1 && Extends(c, grid[1..], current + [(grid[0].0, v)])
  {
    var name := grid[0].0;
    if Extends(c, grid, current) {
      var v := c[|current|].1;
      assert c[|current|].0 == name && v in grid[0].1;
      ExtendsStep(c, grid, current, v);
    } else {
      forall v | v in grid[0].1
        ensures !Extends(c, grid[1..], current + [(name, v)])
      {
        if Extends(c, grid[1..], current + [(name, v)]) {
          var next := current + [(name, v)];
          assert c[|current|] == next[|current|] by {
            assert c[..|next|][|current|] == c[|current|];
          }
          ExtendsStep(c, grid, current, v);
        }
      }
    }
  }

  /** Extending by the grid is extending by its first value, then by the rest. */
  lemma ExtendsStep(c: Params, grid: Grid, current: Params, v: real)
    requires |grid| > 0 && v in grid[0].1
    requires |c| == |current| + |grid| && c[|current|] == (grid[0].0, v)
    ensures Extends(c, grid, current) <==> Extends(c, grid[1..], current + [(grid[0].0, v)])
  {
    var next := current + [(grid[0].0, v)];
    if c[..|current|] == current {
      assert c[..|next|] == next by {
        assert c[..|next|] == c[..|current|] + [c[|current|]];
      }
    }
    if c[..|next|] == next {
      assert c[..|current|] == next[..|current|];
    }
    forall k | 0 <= k < |grid| - 1
      ensures grid[1..][k] == grid[k + 1] && |next| + k == |current| + (k + 1)
    {
    }
    if Extends(c, grid[1..], next) {
      forall k | 0 <= k < |grid|
        ensures c[|current| + k].0 == grid[k].0 && c[|current| + k].1 in grid[k].1
      {
        if k > 0 {
          assert grid[1..][k - 1] == grid[k];
        }
      }
    }
  }

  /** Assigning the first grid parameter keeps the rest of the grid fresh. */
  lemma FreshStep(grid: Grid, current: Params, v: real)
    requires |grid| > 0 && Fresh(grid, current)
    ensures Put(current, grid[0].0, v) == current + [(grid[0].0, v)]
    ensures Fresh(grid[1..], current + [(grid[0].0, v)])
  {
    var name := grid[0].0;
    assert !HasKey(current, grid[0].0);
    forall k | 0 <= k < |grid| - 1
      ensures !HasKey(current + [(name, v)], grid[1..][k].0)
    {
      assert grid[1..][k] == grid[k + 1];
      assert grid[k + 1].0 != grid[0].0 by {
        assert Keys(grid)[k + 1] != Keys(grid)[0];
      }
      assert !HasKey(current, grid[k + 1].0);
      forall i | 0 <= i < |current| + 1
        ensures (current + [(name, v)])[i].0 != grid[k + 1].0
      {
        if i < |current| {
          assert (current + [(name, v)])[i] == current[i];
        }
      }
    }
    assert Keys(grid[1..]) == Keys(grid)[1..];
  }

  lemma {:induction false} BranchesExactly(grid: Grid, current: Params, values: seq<real>, c: Params)
    requires |grid| > 0 && Fresh(grid, current)
    ensures c in Branches(grid, current, values) <==>
      exists v :: v in values && Extends(c, grid[1..], current + [(grid[0].0, v)])
    decreases |grid|, 0, |values|
  {
    if |values| > 0 {
      var init := values[..|values| - 1];
      var last := values[|values| - 1];
      var name := grid[0].0;
      BranchesExactly(grid, current, init, c);
      FreshStep(grid, current, last);
      CombinationsExactly(grid[1..], current + [(name, last)], c);
      BranchesSnoc(grid, current, values);
      ExistsSnoc(values, v => Extends(c, grid[1..], current + [(name, v)]));
    }
  }

  lemma BranchesSnoc(grid: Grid, current: Params, values: seq<real>)
    requires |grid| > 0 && |values| > 0
    ensures var last := values[|values| - 1];
      Branches(grid, current, values)
      == Branches(grid, current, values[..|values| - 1]) + Combinations(grid[1..], Put(current, grid[0].0, last))
  {
  }

  lemma ExistsSnoc(values: seq<real>, p: real -> bool)
    requires |values| > 0
    ensures (exists v :: v in values && p(v)) <==>
      (exists v :: v in values[..|values| - 1] && p(v)) || p(values[|values| - 1])
  {
    var init := values[..|values| - 1];
    var last := values[|values| - 1];
    LastSplit(values);
    if exists v :: v in values && p(v) {
      var v :| v in values && p(v);
      assert v in init || v == last;
    }
    if exists v :: v in init && p(v) {
      var v :| v in init && p(v);
      assert v in values;
    }
    if p(last) {
      assert last in values;
    }
  }

  /** One history entry of the search. */
  datatype HistoryItem = HistoryItem(iteration: int, params: Params, score: real)

  /** The history entries for assignments evaluated from iteration `start` on. */
  function Entries(start: int, combos: seq<Params>, evaluate: Params -> real): (r: seq<HistoryItem>)
    ensures |r| == |combos|
    decreases |combos|
  {
    if |combos| == 0 then []
    else
      var n := |combos| - 1;
      Entries(start, combos[..n], evaluate) + [HistoryItem(start + n, combos[n], evaluate(combos[n]))]
  }

  /** Entry i records iteration start + i, the i-th assignment and its score. */
  lemma {:induction false} EntriesAt(start: int, combos: seq<Params>, evaluate: Params -> real)
    ensures forall i :: 0 <= i < |combos| ==>
      Entries(start, combos, evaluate)[i] == HistoryItem(start + i, combos[i], evaluate(combos[i]))
    decreases |combos|
  {
    if |combos| > 0 {
      var n := |combos| - 1;
      EntriesAt(start, combos[..n], evaluate);
    }
  }

  lemma {:induction false} EntriesConcat(start: int, xs: seq<Params>, ys: seq<Params>, evaluate: Params -> real)
    ensures Entries(start, xs + ys, evaluate) == Entries(start, xs, evaluate) + Entries(start + |xs|, ys, evaluate)
    decreases |ys|
  {
    if |ys| == 0 {
      assert xs + ys == xs;
    } else {
      var n := |ys| - 1;
      EntriesConcat(start, xs, ys[..n], evaluate);
      assert (xs + ys)[..|xs + ys| - 1] == xs + ys[..n];
      assert (xs + ys)[|xs + ys| - 1] == ys[n];
    }
  }

  /** The best-so-far update: a strictly greater score replaces the best (anything beats -inf). */
  function Better(best: Option<HistoryItem>, item: HistoryItem): Option<HistoryItem>
  {
    if best.None? || item.score > best.value.score then Some(item) else best
  }

  /** The best entry after seeing `items` in order, starting from `best`. */
  function Best(best: Option<HistoryItem>, items: seq<HistoryItem>): Option<HistoryItem>
    decreases |items|
  {
    if |items| == 0 then best else Better(Best(best, items[..|items| - 1]), items[|items| - 1])
  }

  lemma {:induction false} BestConcat(best: Option<HistoryItem>, xs: seq<HistoryItem>, ys: seq<HistoryItem>)
    ensures Best(best, xs + ys) == Best(Best(best, xs), ys)
    decreases |ys|
  {
    if |ys| == 0 {
      assert xs + ys == xs;
    } else {
      var init := ys[..|ys| - 1];
      BestConcat(best, xs, init);
      assert (xs + ys)[..|xs + ys| - 1] == xs + init;
    }
  }

  /** Entry j is `b` and every entry before it scores strictly less. */
  predicate FirstMaximumAt(items: seq<HistoryItem>, j: int, b: HistoryItem)
  {
    0 <= j < |items| && items[j] == b && forall i :: 0 <= i < j ==> items[i].score < b.score
  }

  /**
   * The best entry has the maximum score, and it is the first entry with
   * that score (only a strictly greater score replaces the best).
   */
  lemma {:induction false} BestIsFirstMaximum(items: seq<HistoryItem>)
    requires |items| > 0
    ensures Best(None, items).Some?
    ensures forall i :: 0 <= i < |items| ==> items[i].score <= Best(None, items).value.score
    ensures exists j :: FirstMaximumAt(items, j, Best(None, items).value)
    decreases |items|
  {
    var init := items[..|items| - 1];
    var last := items[|items| - 1];
    if |init| == 0 {
      assert FirstMaximumAt(items, 0, Best(None, items).value);
    } else {
      BestIsFirstMaximum(init);
      var b := Best(None, init).value;
      var j :| FirstMaximumAt(init, j, b);
      assert forall i :: 0 <= i < |init| ==> items[i] == init[i];
      if last.score > b.score {
        assert FirstMaximumAt(items, |items| - 1, Best(None, items).value);
      } else {
        assert FirstMaximumAt(items, j, Best(None, items).value);
      }
    }
  }

  /** The nonlocal state the recursive enumeration updates. */
  class GridSearchRun {
    var iteration: int
    var best: Option<HistoryItem>
    var history: seq<HistoryItem>

    constructor()
      ensures iteration == 0 && best == None && history == []
    {
      iteration := 0;
      best := None;
      history := [];
    }

    /**
     * `generate_combinations`: evaluates every combination under `current`
     * in order, appending one history entry each, numbering them from the
     * current iteration and updating the best.
     */
    method Generate(evaluate: Params -> real, paramsDict: Grid, current: Params)
      modifies this
      decreases |paramsDict|, if |paramsDict| == 0 then 0 else |paramsDict[0].1| + 1
      ensures history == old(history) + Entries(old(iteration), Combinations(paramsDict, current), evaluate)
      ensures iteration == old(iteration) + |Combinations(paramsDict, current)|
      ensures best == Best(old(best), Entries(old(iteration), Combinations(paramsDict, current), evaluate))
    {
      if |paramsDict| == 0 {
        var score := evaluate(current);
        var item := HistoryItem(iteration, current, score);
        history := history + [item];
        if best.None? || score > best.value.score {
          best := Some(item);
        }
        iteration := iteration + 1;
        assert Entries(old(iteration), [current], evaluate) == [item];
        assert [item][..0] == [];
        return;
      }
      var name := paramsDict[0].0;
      var values := paramsDict[0].1;
      var remaining := paramsDict[1..];
      var i := 0;
      while i < |values|
        invariant 0 <= i <= |values|
        invariant history == old(history) + Entries(old(iteration), Branches(paramsDict, current, values[..i]), evaluate)
        invariant iteration == old(iteration) + |Branches(paramsDict, current, values[..i])|
        invariant best == Best(old(best), Entries(old(iteration), Branches(paramsDict, current, values[..i]), evaluate))
      {
        ghost var h0, it0, b0 := history, iteration, best;
        Generate(evaluate, remaining, Put(current, name, values[i]));
        BranchStep(old(history), old(iteration), old(best), paramsDict, current, i, evaluate, h0, it0, b0, history, iteration, best);
        i := i + 1;
      }
      assert values[..i] == values;
    }
  }

  /** The loop invariant of `Generate` after evaluating the branch of value i. */
  lemma BranchStep(h: seq<HistoryItem>, it: int, b: Option<HistoryItem>, grid: Grid, current: Params, i: nat,
                   evaluate: Params -> real,
                   h0: seq<HistoryItem>, it0: int, b0: Option<HistoryItem>,
                   h1: seq<HistoryItem>, it1: int, b1: Option<HistoryItem>)
    requires |grid| > 0 && i < |grid[0].1|
    requires var done := Branches(grid, current, grid[0].1[..i]);
      h0 == h + Entries(it, done, evaluate) && it0 == it + |done| && b0 == Best(b, Entries(it, done, evaluate))
    requires var next := Combinations(grid[1..], Put(current, grid[0].0, grid[0].1[i]));
      h1 == h0 + Entries(it0, next, evaluate) && it1 == it0 + |next| && b1 == Best(b0, Entries(it0, next, evaluate))
    ensures var all := Branches(grid, current, grid[0].1[..i + 1]);
      h1 == h + Entries(it, all, evaluate) && it1 == it + |all| && b1 == Best(b, Entries(it, all, evaluate))
  {
    var values := grid[0].1;
    var done := Branches(grid, current, values[..i]);
    var next := Combinations(grid[1..], Put(current, grid[0].0, values[i]));
    AppendEntries(h, it, b, done, next, evaluate);
    PrefixSnoc(values, i);
    assert values[..i + 1][..i] == values[..i];
    var all := Branches(grid, current, values[..i + 1]);
    assert all == done + next;
    assert h1 == h + Entries(it, done, evaluate) + Entries(it + |done|, next, evaluate);
    assert h1 == h + Entries(it, all, evaluate);
    assert b1 == Best(Best(b, Entries(it, done, evaluate)), Entries(it + |done|, next, evaluate));
    assert b1 == Best(b, Entries(it, all, evaluate));
    assert |all| == |done| + |next|;
  }

  /** Evaluating `done` and then `next` is evaluating `done + next`. */
  lemma AppendEntries(h: seq<HistoryItem>, it: int, b: Option<HistoryItem>, done: seq<Params>, next: seq<Params>, evaluate: Params -> real)
    ensures h + Entries(it, done, evaluate) + Entries(it + |done|, next, evaluate) == h + Entries(it, done + next, evaluate)
    ensures Best(Best(b, Entries(it, done, evaluate)), Entries(it + |done|, next, evaluate)) == Best(b, Entries(it, done + next, evaluate))
  {
    EntriesConcat(it, done, next, evaluate);
    BestConcat(b, Entries(it, done, evaluate), Entries(it + |done|, next, evaluate));
  }

  /** The result record of a search; `bestScore` None stands for -inf. */
  datatype OptimizationResult = OptimizationResult(
    bestParams: Option<Params>,
    bestScore: Option<real>,
    history: seq<HistoryItem>,
    convergenceIteration: Option<int>)

  /** `param_grid` defaults to the built-in grid only when it is None. */
  function GridOrDefault(paramGrid: Option<Grid>): Grid
  {
    if paramGrid.None? then DefaultGrid else paramGrid.value
  }

  /**
   * `grid_search` as written: every combination is evaluated, but the
   * return statement reads `convergence_iteration`, which is assigned only
   * inside the nested function, so the call always ends in NameError.
   */
  method GridSearchAsWritten(evaluate: Params -> real, paramGrid: Option<Grid>) returns (r: Result<OptimizationResult>)
    ensures r.Err?
  {
    var run := new GridSearchRun();
    run.Generate(evaluate, GridOrDefault(paramGrid), []);
    return Err("NameError: name 'convergence_iteration' is not defined");
  }

  /**
   * What `grid_search` evidently intends to return for `grid`: the history
   * holds one entry per combination, numbered 0..N-1 in evaluation order,
   * and the best entry is the first with the maximum score, its iteration
   * being the convergence iteration (all None when nothing was evaluated).
   */
  predicate SearchOutcome(r: OptimizationResult, grid: Grid, evaluate: Params -> real)
  {
    Enumerated(r.history, grid, evaluate) && BestRecorded(r)
  }

  /** One entry per combination, numbered 0..N-1 in evaluation order. */
  predicate Enumerated(history: seq<HistoryItem>, grid: Grid, evaluate: Params -> real)
  {
    var combos := Combinations(grid, []);
    |history| == |combos| == GridSize(grid)
    && forall i :: 0 <= i < |history| ==>
         history[i].iteration == i && history[i].params == combos[i] && history[i].score == evaluate(combos[i])
  }

  /** The best fields describe the first entry with the maximum score (all None if there is none). */
  predicate BestRecorded(r: OptimizationResult)
  {
    (|r.history| == 0 ==> r.bestParams.None? && r.bestScore.None? && r.convergenceIteration.None?)
    && (|r.history| > 0 ==>
          r.bestParams.Some? && r.bestScore.Some? && r.convergenceIteration.Some?
          && (forall i :: 0 <= i < |r.history| ==> r.history[i].score <= r.bestScore.value)
          && BestAt(r.history, r.convergenceIteration.value, r.bestParams.value, r.bestScore.value))
  }

  /** Entry j has these params and score, and every entry before it scores strictly less. */
  predicate BestAt(history: seq<HistoryItem>, j: int, params: Params, score: real)
  {
    0 <= j < |history| && history[j].params == params && history[j].score == score
    && forall i :: 0 <= i < j ==> history[i].score < score
  }

  /** The result record built from the final history and best entry. */
  function ResultOf(history: seq<HistoryItem>, best: Option<HistoryItem>): OptimizationResult
  {
    if best.None? then OptimizationResult(None, None, history, None)
    else OptimizationResult(Some(best.value.params), Some(best.value.score), history, Some(best.value.iteration))
  }

  /** A full enumeration numbers every combination of `grid` in order. */
  lemma EnumerationNumbered(grid: Grid, evaluate: Params -> real)
    ensures Enumerated(Entries(0, Combinations(grid, []), evaluate), grid, evaluate)
  {
    CombinationsCount(grid, []);
    EntriesAt(0, Combinations(grid, []), evaluate);
  }

  /** The record built from the running best describes the first maximum. */
  lemma BestOfNumbered(history: seq<HistoryItem>)
    requires forall i :: 0 <= i < |history| ==> history[i].iteration == i
    ensures BestRecorded(ResultOf(history, Best(None, history)))
  {
    if |history| > 0 {
      BestIsFirstMaximum(history);
      var b := Best(None, history).value;
      var j :| FirstMaximumAt(history, j, b);
      assert b.iteration == j;
      assert BestAt(history, j, b.params, b.score);
    }
  }

  /** `grid_search` as evidently intended, on a given grid. */
  method GridSearchOn(evaluate: Params -> real, grid: Grid) returns (r: OptimizationResult)
    ensures SearchOutcome(r, grid, evaluate)
  {
    var run := new GridSearchRun();
    run.Generate(evaluate, grid, []);
    assert run.history == Entries(0, Combinations(grid, []), evaluate);
    EnumerationNumbered(grid, evaluate);
    BestOfNumbered(run.history);
    r := ResultOf(run.history, run.best);
  }

  /** `grid_search` as evidently intended; `param_grid` None selects the default grid. */
  method GridSearch(evaluate: Params -> real, paramGrid: Option<Grid>) returns (r: OptimizationResult)
    ensures SearchOutcome(r, GridOrDefault(paramGrid), evaluate)
  {
    r := GridSearchOn(evaluate, GridOrDefault(paramGrid));
  }

  // -------------------------------------------------------- layer configs

  /** One agent's performance record: its layer (if given) and its metrics. */
  datatype Perf = Perf(layer: Option<string>, metrics: map<string, real>)

  /** A generated layer configuration. */
  datatype LayerTuning = LayerTuning(adjustSpeed: real, minWeight: real, maxWeight: real, volatilityTolerance: real)

  function LayerOf(p: Perf): string
  {
    if p.layer.Some? then p.layer.value else "analyst"
  }

  function Metric(p: Perf, metric: string): real
  {
    if metric in p.metrics then p.metrics[metric] else 0.0
  }

  /** The per-layer lists of the target metric, layers in order of first appearance. */
  function Grouped(perfs: seq<(string, Perf)>, metric: string): seq<(string, seq<real>)>
    decreases |perfs|
  {
    if |perfs| == 0 then []
    else
      var prev := Grouped(perfs[..|perfs| - 1], metric);
      var p := perfs[|perfs| - 1].1;
      Put(prev, LayerOf(p), GetOr(prev, LayerOf(p), []) + [Metric(p, metric)])
  }

  /** Each layer is grouped once, and no group is empty. */
  lemma {:induction false} GroupedShape(perfs: seq<(string, Perf)>, metric: string)
    ensures Unique(Keys(Grouped(perfs, metric)))
    ensures forall k :: 0 <= k < |Grouped(perfs, metric)| ==> |Grouped(perfs, metric)[k].1| > 0
    decreases |perfs|
  {
    if |perfs| > 0 {
      var init := perfs[..|perfs| - 1];
      var prev := Grouped(init, metric);
      var p := perfs[|perfs| - 1].1;
      var g := GetOr(prev, LayerOf(p), []) + [Metric(p, metric)];
      GroupedShape(init, metric);
      PutUnique(prev, LayerOf(p), g);
      PutNonEmpty(prev, LayerOf(p), g);
    }
  }

  /** A layer is grouped if and only if some agent belongs to it. */
  lemma {:induction false} GroupedHasKey(perfs: seq<(string, Perf)>, metric: string, l: string)
    ensures HasKey(Grouped(perfs, metric), l) <==> exists i :: 0 <= i < |perfs| && LayerOf(perfs[i].1) == l
    decreases |perfs|
  {
    if |perfs| > 0 {
      var init := perfs[..|perfs| - 1];
      var prev := Grouped(init, metric);
      var p := perfs[|perfs| - 1].1;
      var g := GetOr(prev, LayerOf(p), []) + [Metric(p, metric)];
      assert Grouped(perfs, metric) == Put(prev, LayerOf(p), g);
      GroupedHasKey(init, metric, l);
      PutGet(prev, LayerOf(p), g, l);
      LayerSnoc(perfs, l);
    }
  }

  /** Some agent of the list belongs to layer l. */
  ghost predicate InLayer(perfs: seq<(string, Perf)>, l: string)
  {
    exists i :: 0 <= i < |perfs| && LayerOf(perfs[i].1) == l
  }

  /** Some agent of the list is in layer l exactly when one before the last is, or the last is. */
  lemma LayerSnoc(perfs: seq<(string, Perf)>, l: string)
    requires |perfs| > 0
    ensures InLayer(perfs, l) <==> InLayer(perfs[..|perfs| - 1], l) || LayerOf(perfs[|perfs| - 1].1) == l
  {
    var init := perfs[..|perfs| - 1];
    if exists i :: 0 <= i < |perfs| && LayerOf(perfs[i].1) == l {
      var i :| 0 <= i < |perfs| && LayerOf(perfs[i].1) == l;
      if i < |init| {
        assert LayerOf(init[i].1) == l;
      }
    }
    if exists i :: 0 <= i < |init| && LayerOf(init[i].1) == l {
      var i :| 0 <= i < |init| && LayerOf(init[i].1) == l;
      assert perfs[i] == init[i];
    }
  }

  lemma {:induction false} PutNonEmpty(d: seq<(string, seq<real>)>, k: string, v: seq<real>)
    requires |v| > 0
    requires forall i :: 0 <= i < |d| ==> |d[i].1| > 0
    ensures forall i :: 0 <= i < |Put(d, k, v)| ==> |Put(d, k, v)[i].1| > 0
  {
    if |d| > 0 && d[0].0 != k {
      PutNonEmpty(d[1..], k, v);
      assert Put(d, k, v) == [d[0]] + Put(d[1..], k, v);
    }
  }

  /**
   * The config for one layer's scores: tier by mean (> 0.5, > 0, otherwise),
   * and a standard deviation above 0.3 (a variance above 0.09) multiplies
   * the volatility tolerance by 1.5.
   */
  function Tuning(scores: seq<real>): LayerTuning
    requires |scores| > 0
  {
    var mean := Mean(scores);
    var base :=
      if mean > 0.5 then LayerTuning(0.4, 0.3, 3.0, 1.0)
      else if mean > 0.0 then LayerTuning(0.6, 0.2, 2.5, 0.8)
      else LayerTuning(0.2, 0.1, 2.0, 1.2);
    if Variance(scores) > 0.09 then base.(volatilityTolerance := base.volatilityTolerance * 1.5) else base
  }

  /**
   * Every generated config is usable by the layer manager: speed in (0, 1),
   * 0 < min < max, and a positive tolerance no greater than 1.8; better
   * performance never gets a lower minimum weight.
   */
  lemma TuningSane(scores: seq<real>, other: seq<real>)
    requires |scores| > 0 && |other| > 0
    ensures var t := Tuning(scores);
      0.0 < t.adjustSpeed < 1.0 && 0.0 < t.minWeight < t.maxWeight
      && 0.8 <= t.volatilityTolerance <= 1.8
    ensures Mean(scores) <= Mean(other) ==> Tuning(scores).minWeight <= Tuning(other).minWeight
  {
  }

  /** The first loop of `optimize_layer_configs`: the target metric grouped by layer. */
  method GroupByLayer(agentPerformance: seq<(string, Perf)>, targetMetric: string)
    returns (layerPerformance: seq<(string, seq<real>)>)
    ensures layerPerformance == Grouped(agentPerformance, targetMetric)
  {
    layerPerformance := [];
    var i := 0;
    while i < |agentPerformance|
      invariant 0 <= i <= |agentPerformance|
      invariant layerPerformance == Grouped(agentPerformance[..i], targetMetric)
    {
      var perf := agentPerformance[i].1;
      var layer := LayerOf(perf);
      var scores := GetOr(layerPerformance, layer, []);
      PrefixSnoc(agentPerformance, i);
      assert agentPerformance[..i + 1][..i] == agentPerformance[..i];
      layerPerformance := Put(layerPerformance, layer, scores + [Metric(perf, targetMetric)]);
      i := i + 1;
    }
    assert agentPerformance[..i] == agentPerformance;
  }

  /** The second loop of `optimize_layer_configs`: one config per group, in order. */
  method TuneLayers(groups: seq<(string, seq<real>)>) returns (r: seq<(string, LayerTuning)>)
    requires forall k :: 0 <= k < |groups| ==> |groups[k].1| > 0
    ensures |r| == |groups|
    ensures forall k :: 0 <= k < |r| ==> r[k] == (groups[k].0, Tuning(groups[k].1))
  {
    r := [];
    var k := 0;
    while k < |groups|
      invariant 0 <= k <= |groups|
      invariant |r| == k
      invariant forall j :: 0 <= j < k ==> r[j] == (groups[j].0, Tuning(groups[j].1))
    {
      r := r + [(groups[k].0, Tuning(groups[k].1))];
      k := k + 1;
    }
  }

  /** Two dictionaries with the same key list have the same keys. */
  lemma SameKeys<U, W>(a: seq<(string, U)>, b: seq<(string, W)>)
    requires Keys(a) == Keys(b)
    ensures forall l :: HasKey(a, l) <==> HasKey(b, l)
  {
    assert |a| == |Keys(a)| == |Keys(b)| == |b|;
    forall l
      ensures HasKey(a, l) <==> HasKey(b, l)
    {
      if HasKey(a, l) {
        var j :| 0 <= j < |a| && a[j].0 == l;
        assert Keys(a)[j] == l;
      }
      if HasKey(b, l) {
        var j :| 0 <= j < |b| && b[j].0 == l;
        assert Keys(b)[j] == l;
      }
    }
  }

  /**
   * `optimize_layer_configs`: groups the target metric by layer, then emits
   * one tiered config per layer present, in order of first appearance.
   */
  method OptimizeLayerConfigs(agentPerformance: seq<(string, Perf)>, targetMetric: string)
    returns (r: seq<(string, LayerTuning)>)
    ensures Keys(r) == Keys(Grouped(agentPerformance, targetMetric))
    ensures forall l :: HasKey(r, l) <==> exists i :: 0 <= i < |agentPerformance| && LayerOf(agentPerformance[i].1) == l
    ensures forall k :: 0 <= k < |r| ==>
      |Grouped(agentPerformance, targetMetric)[k].1| > 0 && r[k].1 == Tuning(Grouped(agentPerformance, targetMetric)[k].1)
  {
    var layerPerformance := GroupByLayer(agentPerformance, targetMetric);
    GroupedShape(agentPerformance, targetMetric);
    r := TuneLayers(layerPerformance);
    assert Keys(r) == Keys(layerPerformance);
    SameKeys(r, layerPerformance);
    forall l
      ensures HasKey(r, l) <==> exists i :: 0 <= i < |agentPerformance| && LayerOf(agentPerformance[i].1) == l
    {
      GroupedHasKey(agentPerformance, targetMetric, l);
    }
  }

  // ---------------------------------------------------------- genetic steps

  /**
   * The selection probabilities of `_roulette_select`: each score shifted by
   * the minimum plus 0.01, divided by the total; `min` of an empty list
   * raises ValueError.
   */
  function RouletteProbabilities(scores: seq<real>): (r: Result<seq<real>>)
    ensures r.Err? <==> |scores| == 0
    ensures r.Ok? ==> |r.value| == |scores|
  {
    if |scores| == 0 then Err("ValueError: min() arg is an empty sequence")
    else
      var m := SeqMin(scores);
      var adjusted := seq(|scores|, i requires 0 <= i < |scores| => scores[i] - m + 0.01);
      var total := Sum(adjusted);
      SumLowerBound(adjusted, 0.01);
      Ok(seq(|scores|, i requires 0 <= i < |scores| => adjusted[i] / total))
  }

  /**
   * Every probability is strictly positive, they sum to 1, and a higher
   * score never gets a lower probability.
   */
  lemma RouletteProbabilitiesValid(scores: seq<real>)
    requires |scores| > 0
    ensures var p := RouletteProbabilities(scores).value;
      (forall i :: 0 <= i < |p| ==> p[i] > 0.0)
      && Sum(p) == 1.0
      && forall i, j :: 0 <= i < |p| && 0 <= j < |p| && scores[i] <= scores[j] ==> p[i] <= p[j]
  {
    var m := SeqMin(scores);
    var adjusted := seq(|scores|, i requires 0 <= i < |scores| => scores[i] - m + 0.01);
    var total := Sum(adjusted);
    var p := RouletteProbabilities(scores).value;
    SumLowerBound(adjusted, 0.01);
    SumScaled(adjusted, total, p);
    assert total / total == 1.0;
    forall i, j | 0 <= i < |p| && 0 <= j < |p| && scores[i] <= scores[j]
      ensures p[i] <= p[j]
    {
      DivMonotone(adjusted[i], adjusted[j], total);
    }
    forall i | 0 <= i < |p|
      ensures p[i] > 0.0
    {
      DivPositive(adjusted[i], total);
    }
  }

  lemma {:induction false} SumLowerBound(s: seq<real>, lo: real)
    requires |s| > 0 && lo > 0.0
    requires forall i :: 0 <= i < |s| ==> s[i] >= lo
    ensures Sum(s) >= lo
  {
    if |s| > 1 {
      SumLowerBound(s[1..], lo);
    } else {
      assert Sum(s[1..]) == 0.0;
    }
  }

  lemma DivMonotone(a: real, b: real, t: real)
    requires t > 0.0 && a <= b
    ensures a / t <= b / t
  {
    assert b / t - a / t == (b - a) / t;
  }

  lemma DivPositive(a: real, t: real)
    requires t > 0.0 && a > 0.0
    ensures a / t > 0.0
  {
  }

  /** Running totals of the weights, as `random.choices` accumulates them. */
  function Cumulative(ws: seq<real>): (c: seq<real>)
    ensures |c| == |ws|
    decreases |ws|
  {
    if |ws| == 0 then [] else var prev := Cumulative(ws[..|ws| - 1]); prev + [(if |prev| == 0 then 0.0 else prev[|prev| - 1]) + ws[|ws| - 1]]
  }

  /** `bisect_right(cum, x, i, hi)`: the first index from i below hi whose total exceeds x, else hi. */
  function BisectFrom(cum: seq<real>, x: real, i: nat, hi: nat): (k: nat)
    requires hi <= |cum|
    ensures i <= hi ==> i <= k <= hi
    ensures k < hi ==> cum[k] > x
    ensures forall j :: i <= j < k && j < hi ==> cum[j] <= x
    decreases hi - i
  {
    if i >= hi then hi else if cum[i] > x then i else BisectFrom(cum, x, i + 1, hi)
  }

  /**
   * `_roulette_select`: `random.choices(population, weights=probabilities)`
   * with `u` the draw of `random()`; ValueError when the scores are empty or
   * the list lengths differ.
   */
  function RouletteSelect(population: seq<Params>, scores: seq<real>, u: real): (r: Result<nat>)
    requires 0.0 <= u < 1.0
    ensures r.Err? <==> |scores| == 0 || |population| != |scores|
    ensures r.Ok? ==> r.value < |population|
  {
    var probs := RouletteProbabilities(scores);
    if probs.Err? then Err(probs.msg)
    else if |population| != |probs.value| then Err("ValueError: The number of weights does not match the population")
    else
      var cum := Cumulative(probs.value);
      Ok(BisectFrom(cum, u * cum[|cum| - 1], 0, |cum| - 1))
  }

  /**
   * The selected slot is the one the scaled draw falls into: its running
   * total exceeds the draw and the totals before it do not, except that the
   * last slot also takes what rounding leaves above the total.
   */
  lemma RouletteSelectSlot(population: seq<Params>, scores: seq<real>, u: real)
    requires 0.0 <= u < 1.0
    requires |scores| > 0 && |population| == |scores|
    ensures var k := RouletteSelect(population, scores, u).value;
      var cum := Cumulative(RouletteProbabilities(scores).value);
      var x := u * cum[|cum| - 1];
      (k < |cum| - 1 ==> cum[k] > x) && forall j :: 0 <= j < k ==> cum[j] <= x
  {
  }

  /**
   * `_crossover`: a child with exactly parent1's keys, in its order, each
   * value from parent1 when the draw exceeds 0.5 and from parent2 otherwise;
   * KeyError when parent2 lacks a key it is asked for.
   */
  method Crossover(parent1: Params, parent2: Params, draw: nat -> real) returns (r: Result<Params>)
    requires Unique(Keys(parent1))
    ensures r.Err? <==> exists i :: 0 <= i < |parent1| && draw(i) <= 0.5 && !HasKey(parent2, parent1[i].0)
    ensures r.Ok? ==> |r.value| == |parent1| && forall i :: 0 <= i < |parent1| ==>
      r.value[i].0 == parent1[i].0
      && r.value[i].1 == (if draw(i) > 0.5 then parent1[i].1 else Get(parent2, parent1[i].0).value)
  {
    var child: Params := [];
    var i := 0;
    while i < |parent1|
      invariant 0 <= i <= |parent1|
      invariant |child| == i
      invariant forall j :: 0 <= j < i ==> draw(j) > 0.5 || HasKey(parent2, parent1[j].0)
      invariant forall j :: 0 <= j < i ==>
        child[j].0 == parent1[j].0 && child[j].1 == (if draw(j) > 0.5 then parent1[j].1 else Get(parent2, parent1[j].0).value)
    {
      var name := parent1[i].0;
      var value: real;
      if draw(i) > 0.5 {
        value := parent1[i].1;
      } else {
        var found := Get(parent2, name);
        if found.None? {
          assert draw(i) <= 0.5 && !HasKey(parent2, parent1[i].0);
          return Err("KeyError: " + name);
        }
        value := found.value;
      }
      // parent1's keys are distinct, so assigning `name` appends it
      child := child + [(name, value)];
      i := i + 1;
    }
    return Ok(child);
  }

  /** Python `int(x)`: truncation toward zero. */
  function Trunc(x: real): int
  {
    if x >= 0.0 then x.Floor else -((-x).Floor)
  }

  /**
   * One mutated value: `random.randint(int(low), int(high))` for the window
   * size (ValueError for an empty range), `random.uniform(low, high)`
   * otherwise, with `u` the underlying draw in [0, 1).
   */
  function MutatedValue(name: string, bounds: (real, real), u: real): Result<real>
  {
    if name == "error_window_size" then
      var a := Trunc(bounds.0);
      var b := Trunc(bounds.1);
      if b < a then Err("ValueError: empty range for randrange")
      else Ok((a + Scaled((b - a + 1) as real, u).Floor) as real)
    else Ok(Uniform(bounds.0, bounds.1, u))
  }

  /** `random.uniform(lo, hi)`: lo plus the draw's share of the span. */
  function Uniform(lo: real, hi: real, u: real): real
  {
    lo + Scaled(hi - lo, u)
  }

  /** A span scaled by the draw. */
  function Scaled(d: real, u: real): real
  {
    d * u
  }

  /** A value lies within its bounds as the sampler draws them. */
  predicate InBounds(name: string, bounds: (real, real), v: real)
  {
    if name == "error_window_size" then Trunc(bounds.0) as real <= v <= Trunc(bounds.1) as real && v == v.Floor as real
    else Min(bounds.0, bounds.1) <= v <= Max(bounds.0, bounds.1)
  }

  lemma MutatedValueInBounds(name: string, bounds: (real, real), u: real)
    requires 0.0 <= u < 1.0
    ensures MutatedValue(name, bounds, u).Ok? ==> InBounds(name, bounds, MutatedValue(name, bounds, u).value)
    ensures MutatedValue(name, bounds, u).Err? <==> name == "error_window_size" && Trunc(bounds.1) < Trunc(bounds.0)
  {
    if name == "error_window_size" {
      if Trunc(bounds.0) <= Trunc(bounds.1) {
        WindowValueInBounds(bounds, u);
      }
    } else {
      UniformValueInBounds(name, bounds, u);
    }
  }

  lemma WindowValueInBounds(bounds: (real, real), u: real)
    requires 0.0 <= u < 1.0 && Trunc(bounds.0) <= Trunc(bounds.1)
    ensures MutatedValue("error_window_size", bounds, u).Ok?
    ensures InBounds("error_window_size", bounds, MutatedValue("error_window_size", bounds, u).value)
  {
    var a := Trunc(bounds.0);
    var b := Trunc(bounds.1);
    FloorScaled(u, b - a + 1);
    var k := Scaled((b - a + 1) as real, u).Floor;
    assert ((a + k) as real).Floor == a + k;
  }

  lemma UniformValueInBounds(name: string, bounds: (real, real), u: real)
    requires 0.0 <= u < 1.0 && name != "error_window_size"
    ensures MutatedValue(name, bounds, u).Ok?
    ensures InBounds(name, bounds, MutatedValue(name, bounds, u).value)
  {
    UniformBetween(bounds.0, bounds.1, u);
  }

  /** `random.uniform(lo, hi)` lies between the two bounds, whichever is larger. */
  lemma UniformBetween(lo: real, hi: real, u: real)
    requires 0.0 <= u < 1.0
    ensures Min(lo, hi) <= Uniform(lo, hi, u) <= Max(lo, hi)
  {
    ScaledFraction(hi - lo, u);
  }

  /** `randint`'s offset: a draw in [0, 1) scaled by n lands in 0..n-1. */
  lemma FloorScaled(u: real, n: int)
    requires 0.0 <= u < 1.0 && n > 0
    ensures 0 <= Scaled(n as real, u).Floor < n
  {
    var x := n as real * u;
    MulNonNegative(n as real, u);
    MulPositive(n as real, 1.0 - u);
    assert n as real - x == n as real * (1.0 - u);
  }

  lemma ScaledFraction(d: real, u: real)
    requires 0.0 <= u < 1.0
    ensures d >= 0.0 ==> 0.0 <= Scaled(d, u) <= d
    ensures d < 0.0 ==> d <= Scaled(d, u) <= 0.0
  {
    assert d - d * u == d * (1.0 - u);
    if d >= 0.0 {
      MulNonNegative(d, u);
      MulNonNegative(d, 1.0 - u);
    } else {
      MulNonNegative(-d, u);
      MulNonNegative(-d, 1.0 - u);
    }
  }

  /**
   * The mutation of `individual` by the first `|bounds|` bounds: bound j is
   * applied when `coin(j)` is below the rate, with `sample(j)` as its draw.
   */
  function Mutated(individual: Params, bounds: Bounds, rate: real, coin: nat -> real, sample: nat -> real): Result<Params>
    decreases |bounds|
  {
    if |bounds| == 0 then Ok(individual)
    else
      var prev := Mutated(individual, bounds[..|bounds| - 1], rate, coin, sample);
      var j := |bounds| - 1;
      if prev.Err? || coin(j) >= rate then prev
      else
        match MutatedValue(bounds[j].0, bounds[j].1, sample(j))
        case Err(e) => Err(e)
        case Ok(v) => Ok(Put(prev.value, bounds[j].0, v))
  }

  /** Draws that are valid values of `random()`. */
  ghost predicate Draws(sample: nat -> real)
  {
    forall k: nat :: 0.0 <= sample(k) < 1.0
  }

  /** Bound j's coin fell below the mutation rate. */
  predicate Selected(bounds: Bounds, j: int, rate: real, coin: nat -> real)
  {
    0 <= j < |bounds| && coin(j) < rate
  }

  /** Some selected bound is named `n`. */
  predicate SelectsName(bounds: Bounds, rate: real, coin: nat -> real, n: string)
  {
    exists j :: 0 <= j < |bounds| && Selected(bounds, j, rate, coin) && bounds[j].0 == n
  }

  /** Bound j is selected and is the window size with an empty integer range. */
  predicate EmptyWindowAt(bounds: Bounds, j: int, rate: real, coin: nat -> real)
  {
    Selected(bounds, j, rate, coin) && bounds[j].0 == "error_window_size" && Trunc(bounds[j].1.1) < Trunc(bounds[j].1.0)
  }

  /** `_mutate` fails exactly when a selected window bound has an empty integer range. */
  lemma {:induction false} MutatedFails(individual: Params, bounds: Bounds, rate: real, coin: nat -> real, sample: nat -> real)
    requires Draws(sample)
    ensures Mutated(individual, bounds, rate, coin, sample).Err? <==> exists j :: EmptyWindowAt(bounds, j, rate, coin)
    decreases |bounds|
  {
    if |bounds| > 0 {
      var init := bounds[..|bounds| - 1];
      var j := |bounds| - 1;
      MutatedFails(individual, init, rate, coin, sample);
      assert forall i :: 0 <= i < j ==> init[i] == bounds[i];
      var prev := Mutated(individual, init, rate, coin, sample);
      if prev.Err? {
        var i :| EmptyWindowAt(init, i, rate, coin);
        assert EmptyWindowAt(bounds, i, rate, coin);
      } else {
        MutatedValueInBounds(bounds[j].0, bounds[j].1, sample(j));
        if coin(j) < rate && MutatedValue(bounds[j].0, bounds[j].1, sample(j)).Err? {
          assert EmptyWindowAt(bounds, j, rate, coin);
        } else {
          forall i
            ensures !EmptyWindowAt(bounds, i, rate, coin)
          {
            if 0 <= i < j {
              assert !EmptyWindowAt(init, i, rate, coin);
            }
          }
        }
      }
    }
  }

  /** A successful mutation has the input's keys plus the selected names. */
  lemma {:induction false} MutatedKeys(individual: Params, bounds: Bounds, rate: real, coin: nat -> real, sample: nat -> real)
    requires Mutated(individual, bounds, rate, coin, sample).Ok?
    ensures forall n :: HasKey(Mutated(individual, bounds, rate, coin, sample).value, n) <==>
      HasKey(individual, n) || SelectsName(bounds, rate, coin, n)
    decreases |bounds|
  {
    if |bounds| > 0 {
      var init := bounds[..|bounds| - 1];
      var j := |bounds| - 1;
      var prev := Mutated(individual, init, rate, coin, sample);
      MutatedKeys(individual, init, rate, coin, sample);
      assert forall i :: 0 <= i < j ==> init[i] == bounds[i];
      forall n
        ensures SelectsName(bounds, rate, coin, n) <==> SelectsName(init, rate, coin, n) || (Selected(bounds, j, rate, coin) && bounds[j].0 == n)
      {
        if SelectsName(bounds, rate, coin, n) {
          var i :| 0 <= i < |bounds| && Selected(bounds, i, rate, coin) && bounds[i].0 == n;
          if i < j {
            assert Selected(init, i, rate, coin) && init[i].0 == n;
          }
        }
        if SelectsName(init, rate, coin, n) {
          var i :| 0 <= i < |init| && Selected(init, i, rate, coin) && init[i].0 == n;
          assert Selected(bounds, i, rate, coin) && bounds[i].0 == n;
        }
      }
      if coin(j) < rate {
        var v := MutatedValue(bounds[j].0, bounds[j].1, sample(j)).value;
        forall n
          ensures HasKey(Put(prev.value, bounds[j].0, v), n) <==> HasKey(prev.value, n) || n == bounds[j].0
        {
          PutGet(prev.value, bounds[j].0, v, n);
        }
      }
    }
  }

  /** After a successful mutation every selected name holds a value within its bounds. */
  lemma {:induction false} MutatedSelectedInBounds(individual: Params, bounds: Bounds, rate: real, coin: nat -> real, sample: nat -> real)
    requires Draws(sample) && Unique(Keys(bounds))
    requires Mutated(individual, bounds, rate, coin, sample).Ok?
    ensures forall j :: Selected(bounds, j, rate, coin) ==>
      var r := Mutated(individual, bounds, rate, coin, sample).value;
      Get(r, bounds[j].0).Some? && InBounds(bounds[j].0, bounds[j].1, Get(r, bounds[j].0).value)
    decreases |bounds|
  {
    if |bounds| > 0 {
      var init := bounds[..|bounds| - 1];
      var j := |bounds| - 1;
      var prev := Mutated(individual, init, rate, coin, sample);
      assert Keys(init) == Keys(bounds)[..j];
      MutatedSelectedInBounds(individual, init, rate, coin, sample);
      assert forall i :: 0 <= i < j ==> init[i] == bounds[i];
      if coin(j) < rate {
        var mv := MutatedValue(bounds[j].0, bounds[j].1, sample(j));
        MutatedValueInBounds(bounds[j].0, bounds[j].1, sample(j));
        var v := mv.value;
        forall i | Selected(bounds, i, rate, coin)
          ensures Get(Put(prev.value, bounds[j].0, v), bounds[i].0).Some?
          ensures InBounds(bounds[i].0, bounds[i].1, Get(Put(prev.value, bounds[j].0, v), bounds[i].0).value)
        {
          PutGet(prev.value, bounds[j].0, v, bounds[i].0);
          if i < j {
            assert Keys(bounds)[i] != Keys(bounds)[j];
            assert Selected(init, i, rate, coin);
          }
        }
      } else {
        forall i | Selected(bounds, i, rate, coin)
          ensures i < j && Selected(init, i, rate, coin)
        {
        }
      }
    }
  }

  /** A successful mutation leaves every name no selected bound carries as it was. */
  lemma {:induction false} MutatedUntouched(individual: Params, bounds: Bounds, rate: real, coin: nat -> real, sample: nat -> real, n: string)
    requires Mutated(individual, bounds, rate, coin, sample).Ok?
    requires !SelectsName(bounds, rate, coin, n)
    ensures Get(Mutated(individual, bounds, rate, coin, sample).value, n) == Get(individual, n)
    decreases |bounds|
  {
    if |bounds| > 0 {
      var init := bounds[..|bounds| - 1];
      var j := |bounds| - 1;
      var prev := Mutated(individual, init, rate, coin, sample);
      assert forall i :: 0 <= i < |init| ==> init[i] == bounds[i];
      assert !SelectsName(init, rate, coin, n);
      MutatedUntouched(individual, init, rate, coin, sample, n);
      if coin(j) < rate {
        assert Selected(bounds, j, rate, coin);
        assert bounds[j].0 != n;
        var v := MutatedValue(bounds[j].0, bounds[j].1, sample(j)).value;
        PutGet(prev.value, bounds[j].0, v, n);
      }
    }
  }

  /** The optimiser's parameter bounds (the source keeps them on the instance). */
  class WeightOptimizer {
    const paramBounds: Bounds
    var optimizationHistory: seq<OptimizationResult>

    predicate Valid()
      reads this
    {
      Unique(Keys(paramBounds))
    }

    /** `param_bounds or {...}`: None and an empty dictionary both select the defaults. */
    constructor(bounds: Option<Bounds>)
      requires bounds.Some? ==> Unique(Keys(bounds.value))
      ensures Valid()
      ensures paramBounds == if bounds.None? || |bounds.value| == 0 then DefaultBounds else bounds.value
      ensures optimizationHistory == []
    {
      paramBounds := if bounds.None? || |bounds.value| == 0 then DefaultBounds else bounds.value;
      optimizationHistory := [];
      assert Keys(DefaultBounds) == ["learning_rate", "weight_decay", "error_window_size", "recent_weight_factor", "min_weight", "max_weight"];
    }

    /**
     * `_mutate`: a copy of `individual` with each bound applied in turn when
     * its coin falls below the mutation rate (the input is a value and stays
     * as it was).
     */
    method Mutate(individual: Params, mutationRate: real, coin: nat -> real, sample: nat -> real) returns (r: Result<Params>)
      requires Valid() && Draws(sample)
      ensures r == Mutated(individual, paramBounds, mutationRate, coin, sample)
      ensures r.Ok? ==> forall j :: Selected(paramBounds, j, mutationRate, coin) ==>
        Get(r.value, paramBounds[j].0).Some? && InBounds(paramBounds[j].0, paramBounds[j].1, Get(r.value, paramBounds[j].0).value)
    {
      var mutated := individual;
      var j := 0;
      while j < |paramBounds|
        invariant 0 <= j <= |paramBounds|
        invariant Mutated(individual, paramBounds[..j], mutationRate, coin, sample) == Ok(mutated)
      {
        PrefixSnoc(paramBounds, j);
        assert paramBounds[..j + 1][..j] == paramBounds[..j];
        if coin(j) < mutationRate {
          var v := MutatedValue(paramBounds[j].0, paramBounds[j].1, sample(j));
          if v.Err? {
            r := Err(v.msg);
            MutatedFailureSticks(individual, paramBounds, j + 1, mutationRate, coin, sample);
            return;
          }
          mutated := Put(mutated, paramBounds[j].0, v.value);
        }
        j := j + 1;
      }
      assert paramBounds[..j] == paramBounds;
      r := Ok(mutated);
      MutatedSelectedInBounds(individual, paramBounds, mutationRate, coin, sample);
    }
  }

  /** Once a prefix of the bounds fails, the whole mutation fails with the same error. */
  lemma {:induction false} MutatedFailureSticks(individual: Params, bounds: Bounds, k: nat, rate: real, coin: nat -> real, sample: nat -> real)
    requires k <= |bounds|
    requires Mutated(individual, bounds[..k], rate, coin, sample).Err?
    ensures Mutated(individual, bounds, rate, coin, sample) == Mutated(individual, bounds[..k], rate, coin, sample)
    decreases |bounds| - k
  {
    if k < |bounds| {
      PrefixSnoc(bounds, k);
      assert bounds[..k + 1][..k] == bounds[..k];
      MutatedFailureSticks(individual, bounds, k + 1, rate, coin, sample);
    } else {
      assert bounds[..k] == bounds;
    }
  }
}
