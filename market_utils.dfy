/**
 * Helpers of the market-analysis package: price change, score
 * normalisation, state smoothing, repeated-pattern detection, merging of
 * several analyses and flattening of nested result dictionaries.
 */
module MarketUtils {
  import opened Common

  // -------------------------------------------------------- price change

  /**
   * `calculate_price_change(prices, periods)`: the relative change between
   * the last price and the one `periods` steps before it; 0 without enough
   * prices or with a zero earlier price.
   */
  function PriceChange(prices: seq<real>, periods: nat): (r: real)
    ensures |prices| < periods + 1 ==> r == 0.0
    ensures |prices| >= periods + 1 && prices[|prices| - periods - 1] == 0.0 ==> r == 0.0
  {
    if |prices| < periods + 1 then 0.0
    else
      var current := prices[|prices| - 1];
      var previous := prices[|prices| - periods - 1];
      if previous == 0.0 then 0.0 else (current - previous) / previous
  }

  /** Applying the change to the earlier price gives back the last price. */
  lemma PriceChangeRoundTrip(prices: seq<real>, periods: nat)
    requires |prices| >= periods + 1 && prices[|prices| - periods - 1] != 0.0
    ensures var previous := prices[|prices| - periods - 1];
      previous * (1.0 + PriceChange(prices, periods)) == prices[|prices| - 1]
  {
    var previous := prices[|prices| - periods - 1];
    var d := prices[|prices| - 1] - previous;
    assert previous * (d / previous) == d;
  }

  /** With a positive earlier price the change is positive exactly when the price rose. */
  lemma PriceChangeSign(prices: seq<real>, periods: nat)
    requires |prices| >= periods + 1 && prices[|prices| - periods - 1] > 0.0
    ensures PriceChange(prices, periods) > 0.0 <==> prices[|prices| - 1] > prices[|prices| - periods - 1]
  {
    var previous := prices[|prices| - periods - 1];
    var d := prices[|prices| - 1] - previous;
    if d > 0.0 {
      MulPositive(d, 1.0 / previous);
      assert d / previous == d * (1.0 / previous);
    } else {
      assert d / previous * previous == d;
    }
  }

  // -------------------------------------------------------- normalisation

  /** One score scaled onto [0, 1] between the smallest and the largest; 0.5 when they coincide. */
  function Scaled(x: real, lo: real, hi: real): real
  {
    if hi == lo then 0.5 else (x - lo) / (hi - lo)
  }

  lemma ScaledBounds(x: real, lo: real, hi: real)
    requires lo <= x <= hi
    ensures 0.0 <= Scaled(x, lo, hi) <= 1.0
  {
    if hi != lo {
      DivBounds(x - lo, hi - lo, 0.0, 1.0);
    }
  }

  lemma ScaledTop(lo: real, hi: real)
    requires lo != hi
    ensures Scaled(hi, lo, hi) == 1.0
  {
    var d := hi - lo;
    assert d * 1.0 == d;
    assert d / d == 1.0;
  }

  lemma ScaledMonotone(x: real, y: real, lo: real, hi: real)
    requires x <= y && lo <= hi
    ensures Scaled(x, lo, hi) <= Scaled(y, lo, hi)
  {
    if hi != lo {
      var d := hi - lo;
      assert (y - lo) / d - (x - lo) / d == (y - x) / d;
      assert (y - x) / d == (y - x) * (1.0 / d);
      MulNonNegative(y - x, 1.0 / d);
    }
  }

  /**
   * `normalize_scores`: min-max scaling of the values onto [0, 1], keys kept
   * in order; empty stays empty and equal values all become 0.5.
   */
  function NormalizeScores(scores: seq<(string, real)>): (r: seq<(string, real)>)
    ensures |r| == |scores| && Keys(r) == Keys(scores)
    ensures forall i :: 0 <= i < |r| ==> 0.0 <= r[i].1 <= 1.0
    ensures |scores| > 0 && SeqMin(Values(scores)) == SeqMax(Values(scores)) ==>
      forall i :: 0 <= i < |r| ==> r[i].1 == 0.5
  {
    if |scores| == 0 then []
    else
      var lo := SeqMin(Values(scores));
      var hi := SeqMax(Values(scores));
      var r := seq(|scores|, i requires 0 <= i < |scores| => (scores[i].0, Scaled(scores[i].1, lo, hi)));
      assert forall i :: 0 <= i < |r| ==> 0.0 <= r[i].1 <= 1.0 by {
        forall i | 0 <= i < |r| ensures 0.0 <= r[i].1 <= 1.0 {
          assert Values(scores)[i] == scores[i].1;
          ScaledBounds(scores[i].1, lo, hi);
        }
      }
      r
  }

  /** Unless all values are equal, the smallest becomes 0 and the largest 1. */
  lemma NormalizeEnds(scores: seq<(string, real)>)
    requires |scores| > 0 && SeqMin(Values(scores)) != SeqMax(Values(scores))
    ensures exists i :: 0 <= i < |scores| && NormalizeScores(scores)[i].1 == 0.0
    ensures exists j :: 0 <= j < |scores| && NormalizeScores(scores)[j].1 == 1.0
  {
    var vs := Values(scores);
    var lo := SeqMin(vs);
    var hi := SeqMax(vs);
    var i :| 0 <= i < |vs| && vs[i] == lo;
    var j :| 0 <= j < |vs| && vs[j] == hi;
    assert NormalizeScores(scores)[i].1 == Scaled(lo, lo, hi) == 0.0;
    ScaledTop(lo, hi);
    assert NormalizeScores(scores)[j].1 == Scaled(hi, lo, hi) == 1.0;
  }

  /** Scaling keeps the order of the scores. */
  lemma NormalizeMonotone(scores: seq<(string, real)>, i: nat, j: nat)
    requires i < |scores| && j < |scores| && scores[i].1 <= scores[j].1
    ensures NormalizeScores(scores)[i].1 <= NormalizeScores(scores)[j].1
  {
    var vs := Values(scores);
    var lo := SeqMin(vs);
    var hi := SeqMax(vs);
    assert vs[i] == scores[i].1 && vs[j] == scores[j].1;
    assert NormalizeScores(scores)[i].1 == Scaled(scores[i].1, lo, hi);
    assert NormalizeScores(scores)[j].1 == Scaled(scores[j].1, lo, hi);
    ScaledMonotone(scores[i].1, scores[j].1, lo, hi);
  }

  // ------------------------------------------------------------ smoothing

  /** The window of `smooth_states` ending at position i. */
  function WindowEnding(s: seq<string>, i: nat, window: nat): (w: seq<string>)
    requires i < |s| && window > 0
    ensures 0 < |w| <= window && w[|w| - 1] == s[i]
  {
    var start := if i + 1 >= window then i + 1 - window else 0;
    s[start..i + 1]
  }

  /** The counting loop of `smooth_states` over one window, then the state that occurs most. */
  method WindowMode(w: seq<string>) returns (m: string)
    requires |w| > 0
    ensures m == MostCommon(w)
  {
    var counts: seq<(string, int)> := [];
    var j := 0;
    while j < |w|
      invariant 0 <= j <= |w|
      invariant counts == Counts(w[..j])
    {
      assert w[..j + 1][..j] == w[..j];
      counts := Bump(counts, w[j]);
      j := j + 1;
    }
    assert w[..j] == w;
    CountsHas(w, w[0]);
    m := counts[ArgMax(RealCounts(counts))].0;
  }

  /**
   * `smooth_states`: a sequence shorter than the window is returned as it is;
   * otherwise each position becomes the most common state of the window
   * ending there. A window that is not positive leaves every window empty,
   * and `max` of an empty count raises.
   */
  method SmoothStates(states: seq<string>, window: int) returns (r: Result<seq<string>>)
    ensures |states| < window ==> r == Ok(states)
    ensures |states| >= window && window <= 0 && |states| > 0 ==> r.Err?
    ensures |states| >= window && |states| == 0 ==> r == Ok([])
    ensures |states| >= window && window > 0 ==>
      r.Ok? && |r.value| == |states|
      && forall i :: 0 <= i < |states| ==> r.value[i] == MostCommon(WindowEnding(states, i, window))
  {
    if |states| < window {
      return Ok(states);
    }
    if window <= 0 {
      if |states| > 0 {
        return Err("ValueError: max() arg is an empty sequence");
      }
      return Ok([]);
    }
    var smoothed := SmoothWindows(states, window);
    r := Ok(smoothed);
  }

  /** The loop of `smooth_states` over all positions, for a positive window. */
  method SmoothWindows(states: seq<string>, window: nat) returns (smoothed: seq<string>)
    requires window > 0
    ensures |smoothed| == |states|
    ensures forall i :: 0 <= i < |states| ==> smoothed[i] == MostCommon(WindowEnding(states, i, window))
  {
    smoothed := [];
    var i := 0;
    while i < |states|
      invariant 0 <= i <= |states|
      invariant |smoothed| == i
      invariant forall k :: 0 <= k < i ==> smoothed[k] == MostCommon(WindowEnding(states, k, window))
    {
      var m := WindowMode(WindowEnding(states, i, window));
      ghost var prev := smoothed;
      smoothed := smoothed + [m];
      forall k | 0 <= k < i + 1 ensures smoothed[k] == MostCommon(WindowEnding(states, k, window)) {
        if k < i {
          assert smoothed[k] == prev[k];
        }
      }
      i := i + 1;
    }
  }

  /** A smoothed state is the most frequent of its window: it occurs there, and nothing occurs more often. */
  lemma SmoothedIsMode(states: seq<string>, window: nat, i: nat, x: string)
    requires i < |states| && window > 0
    ensures var w := WindowEnding(states, i, window);
      MostCommon(w) in w && Count(w, x) <= Count(w, MostCommon(w))
  {
    MostCommonIsMode(WindowEnding(states, i, window), x);
  }

  // ------------------------------------------------------------- patterns

  /** One entry of `detect_state_patterns`. */
  datatype Pattern = Pattern(pattern: seq<string>, length: nat, startIndex: nat, repetitions: nat)

  /** The segment of length L at st is immediately repeated. */
  predicate Repeats(s: seq<string>, st: nat, L: nat)
  {
    st + 2 * L <= |s| && s[st..st + L] == s[st + L..st + 2 * L]
  }

  lemma MulDivBound(L: nat, i: nat, m: nat)
    requires L > 0 && i < m / L
    ensures L * (i + 1) <= m
  {
    assert m == (m / L) * L + m % L;
    assert i + 1 <= m / L;
    assert L * (i + 1) <= L * (m / L);
  }

  /**
   * The repetition count of the inner loop from copy i on: copies are
   * compared while the copy still fits in `(n - st) // L` copies.
   */
  function RepetitionsFrom(s: seq<string>, st: nat, L: nat, i: nat): (r: nat)
    requires L > 0 && st + L <= |s|
    decreases (|s| - st) / L - i
    ensures r >= i
  {
    if i < (|s| - st) / L then
      MulDivBound(L, i, |s| - st);
      if s[st + L * i..st + L * (i + 1)] == s[st..st + L] then RepetitionsFrom(s, st, L, i + 1) else i
    else i
  }

  /** Every copy counted equals the pattern, and the count stops at a mismatch or at the end. */
  lemma {:induction false} RepetitionsMeaning(s: seq<string>, st: nat, L: nat, i: nat, k: nat)
    requires L > 0 && st + L <= |s|
    requires i <= k < RepetitionsFrom(s, st, L, i)
    decreases (|s| - st) / L - i
    ensures st + L * (k + 1) <= |s| && s[st + L * k..st + L * (k + 1)] == s[st..st + L]
  {
    MulDivBound(L, i, |s| - st);
    if k > i {
      RepetitionsMeaning(s, st, L, i + 1, k);
    }
  }

  /** A reported pattern: long enough, repeated, and with its repetition count. */
  predicate Reported(s: seq<string>, minLength: nat, p: Pattern)
  {
    p.length >= minLength && p.length > 0 && Repeats(s, p.startIndex, p.length)
    && p.pattern == s[p.startIndex..p.startIndex + p.length]
    && p.repetitions == RepetitionsFrom(s, p.startIndex, p.length, 2)
  }

  /** Some reported pattern has length L and starts at st. */
  predicate Found(ps: seq<Pattern>, L: nat, st: nat)
  {
    exists k :: 0 <= k < |ps| && ps[k].length == L && ps[k].startIndex == st
  }

  /** Lexicographic order on (length, start). */
  predicate LexLess(l1: nat, s1: nat, l2: nat, s2: nat)
  {
    l1 < l2 || (l1 == l2 && s1 < s2)
  }

  /** Patterns come by increasing length, then increasing start. */
  predicate Ordered(ps: seq<Pattern>)
  {
    forall i, j :: 0 <= i < j < |ps| ==> LexLess(ps[i].length, ps[i].startIndex, ps[j].length, ps[j].startIndex)
  }

  lemma FoundExtend(ps: seq<Pattern>, p: Pattern, L: nat, st: nat)
    requires Found(ps, L, st)
    ensures Found(ps + [p], L, st)
  {
    var k :| 0 <= k < |ps| && ps[k].length == L && ps[k].startIndex == st;
    assert (ps + [p])[k] == ps[k];
  }

  /** The inner loop of `detect_state_patterns`: how many consecutive copies there are. */
  method CountRepetitions(states: seq<string>, start: nat, L: nat) returns (reps: nat)
    requires L > 0 && start + L <= |states|
    ensures reps == RepetitionsFrom(states, start, L, 2)
  {
    reps := 2;
    var i := 2;
    while i < (|states| - start) / L
      invariant i >= 2 && reps == i
      invariant RepetitionsFrom(states, start, L, 2) == RepetitionsFrom(states, start, L, i)
      decreases (|states| - start) / L - i
    {
      MulDivBound(L, i, |states| - start);
      if states[start + L * i..start + L * (i + 1)] == states[start..start + L] {
        reps := i + 1;
        i := i + 1;
      } else {
        break;
      }
    }
  }

  const ZeroDivision := "ZeroDivisionError: integer division or modulo by zero"

  /**
   * `detect_state_patterns`: every segment of at least `minLength` states
   * that is immediately repeated, by length and then start, each with its
   * number of consecutive copies. A minimum of 0 or less reaches the empty
   * segment, which always repeats, and the copy count then divides by its
   * length 0 (shorter, negative lengths only slice and never raise).
   */
  method DetectStatePatterns(states: seq<string>, minLength: int) returns (r: Result<seq<Pattern>>)
    ensures r.Err? <==> minLength <= 0
    ensures minLength <= 0 ==> r == Err(ZeroDivision)
    ensures r.Ok? ==> |states| < 2 * minLength ==> r.value == []
    ensures r.Ok? ==> forall k :: 0 <= k < |r.value| ==> Reported(states, minLength, r.value[k])
    ensures r.Ok? ==> forall L: nat, st: nat :: minLength <= L && Repeats(states, st, L) ==> Found(r.value, L, st)
    ensures r.Ok? ==> Ordered(r.value)
  {
    if minLength <= 0 {
      return Err(ZeroDivision);
    }
    var least: nat := minLength;
    var patterns := [];
    var n := |states|;
    if n < 2 * least {
      return Ok(patterns);
    }
    var L := least;
    while L < n / 2 + 1
      invariant least <= L <= n / 2 + 1
      invariant forall k :: 0 <= k < |patterns| ==> Reported(states, least, patterns[k]) && patterns[k].length < L
      invariant forall L': nat, st: nat :: least <= L' < L && Repeats(states, st, L') ==> Found(patterns, L', st)
      invariant Ordered(patterns)
    {
      patterns := ScanWindows(states, least, L, patterns);
      L := L + 1;
    }
    forall L': nat, st: nat | least <= L' && Repeats(states, st, L')
      ensures Found(patterns, L', st)
    {
      assert L' < L;
    }
    r := Ok(patterns);
  }

  /**
   * One pass of the inner loop of `detect_state_patterns`: every window
   * length L start at which the next L states repeat the window is reported,
   * by increasing start, after the patterns of the shorter lengths.
   */
  method ScanWindows(states: seq<string>, minLength: nat, L: nat, shorter: seq<Pattern>) returns (patterns: seq<Pattern>)
    requires 1 <= minLength <= L && 2 * L <= |states|
    requires forall k :: 0 <= k < |shorter| ==> Reported(states, minLength, shorter[k]) && shorter[k].length < L
    requires forall L': nat, st: nat :: minLength <= L' < L && Repeats(states, st, L') ==> Found(shorter, L', st)
    requires Ordered(shorter)
    ensures forall k :: 0 <= k < |patterns| ==> Reported(states, minLength, patterns[k]) && patterns[k].length < L + 1
    ensures forall L': nat, st: nat :: minLength <= L' < L + 1 && Repeats(states, st, L') ==> Found(patterns, L', st)
    ensures Ordered(patterns)
  {
    patterns := shorter;
    var n := |states|;
    var start := 0;
    while start < n - 2 * L + 1
      invariant 0 <= start <= n - 2 * L + 1
      invariant forall k :: 0 <= k < |patterns| ==>
        Reported(states, minLength, patterns[k]) && LexLess(patterns[k].length, patterns[k].startIndex, L, start)
      invariant forall L': nat, st: nat :: minLength <= L' && Repeats(states, st, L') && LexLess(L', st, L, start) ==>
        Found(patterns, L', st)
      invariant Ordered(patterns)
    {
      patterns := ScanAt(states, minLength, L, start, patterns);
      start := start + 1;
    }
    forall L': nat, st: nat | minLength <= L' < L + 1 && Repeats(states, st, L')
      ensures Found(patterns, L', st)
    {
      assert LexLess(L', st, L, start);
    }
  }

  /** One window of the inner loop: the L states at `start` are reported when the next L repeat them. */
  method ScanAt(states: seq<string>, minLength: nat, L: nat, start: nat, before: seq<Pattern>) returns (patterns: seq<Pattern>)
    requires 1 <= minLength <= L && start + 2 * L <= |states|
    requires forall k :: 0 <= k < |before| ==>
      Reported(states, minLength, before[k]) && LexLess(before[k].length, before[k].startIndex, L, start)
    requires forall L': nat, st: nat :: minLength <= L' && Repeats(states, st, L') && LexLess(L', st, L, start) ==>
      Found(before, L', st)
    requires Ordered(before)
    ensures forall k :: 0 <= k < |patterns| ==>
      Reported(states, minLength, patterns[k]) && LexLess(patterns[k].length, patterns[k].startIndex, L, start + 1)
    ensures forall L': nat, st: nat :: minLength <= L' && Repeats(states, st, L') && LexLess(L', st, L, start + 1) ==>
      Found(patterns, L', st)
    ensures Ordered(patterns)
  {
    patterns := before;
    if states[start..start + L] == states[start + L..start + 2 * L] {
      var reps := CountRepetitions(states, start, L);
      var p := Pattern(states[start..start + L], L, start, reps);
      patterns := patterns + [p];
      assert patterns[|before|] == p;
    }
    forall L': nat, st: nat | minLength <= L' && Repeats(states, st, L') && LexLess(L', st, L, start + 1)
      ensures Found(patterns, L', st)
    {
      if L' == L && st == start {
        assert patterns[|patterns| - 1].length == L && patterns[|patterns| - 1].startIndex == start;
      } else if patterns != before {
        FoundExtend(before, patterns[|patterns| - 1], L', st);
      }
    }
  }

  // -------------------------------------------------------------- merging

  /** One analysis result: a dictionary from field name to value. */
  type Analysis = seq<(string, Value)>

  /** `a.get('success', False)`, read as a condition. */
  predicate Succeeded(a: Analysis)
  {
    Truthy(GetOr(a, "success", Bool(false)))
  }

  /** `a.get('market_state', 'unknown')`. */
  function StateOf(a: Analysis): Value
  {
    GetOr(a, "market_state", Str("unknown"))
  }

  function StatesOf(analyses: seq<Analysis>): (r: seq<Value>)
    ensures |r| == |analyses| && forall i :: 0 <= i < |analyses| ==> r[i] == StateOf(analyses[i])
  {
    seq(|analyses|, i requires 0 <= i < |analyses| => StateOf(analyses[i]))
  }

  /** Lists and dictionaries cannot be dictionary keys. */
  predicate Hashable(v: Value)
  {
    !v.List? && !v.Dict?
  }

  predicate AllHashable(vs: seq<Value>)
  {
    forall i :: 0 <= i < |vs| ==> Hashable(vs[i])
  }

  /** The analyses with a true `success` field, in order. */
  function Successful(analyses: seq<Analysis>): (r: seq<Analysis>)
    ensures |r| <= |analyses|
    ensures forall a :: a in r <==> a in analyses && Succeeded(a)
  {
    if |analyses| == 0 then []
    else (if Succeeded(analyses[0]) then [analyses[0]] else []) + Successful(analyses[1..])
  }

  /** `a.get('confidence', 0.0)` as a number; other values make the addition raise. */
  function ConfidenceOf(a: Analysis): Option<real>
  {
    AsNumber(GetOr(a, "confidence", Num(0.0)))
  }

  /** All confidences, or the error of the first one that is not a number. */
  function Confidences(analyses: seq<Analysis>): (r: Result<seq<real>>)
    ensures r.Ok? <==> forall i :: 0 <= i < |analyses| ==> ConfidenceOf(analyses[i]).Some?
    ensures r.Ok? ==> (|r.value| == |analyses|
      && forall i :: 0 <= i < |analyses| ==> ConfidenceOf(analyses[i]) == Some(r.value[i]))
  {
    if |analyses| == 0 then Ok([])
    else
      match ConfidenceOf(analyses[0])
      case None => Err("TypeError: unsupported operand type(s) for +")
      case Some(c) =>
        match Confidences(analyses[1..])
        case Err(e) => Err(e)
        case Ok(cs) => Ok([c] + cs)
  }

  /** The copy of the first analysis with the merged state, confidence and count written in. */
  function Stamped(first: Analysis, state: Value, confidence: real, n: nat): Analysis
  {
    Put(Put(Put(first, "market_state", state), "confidence", Num(confidence)), "merged_from", Int(n))
  }

  lemma StampedGet(first: Analysis, state: Value, confidence: real, n: nat, k: string)
    ensures Get(Stamped(first, state, confidence, n), k) ==
      if k == "merged_from" then Some(Int(n))
      else if k == "confidence" then Some(Num(confidence))
      else if k == "market_state" then Some(state)
      else Get(first, k)
  {
    var a := Put(first, "market_state", state);
    var b := Put(a, "confidence", Num(confidence));
    PutGet(first, "market_state", state, k);
    PutGet(a, "confidence", Num(confidence), k);
    PutGet(b, "merged_from", Int(n), k);
  }

  /** `_merge_by_majority`: the most frequent state, with its share as confidence. */
  function MergeByMajority(analyses: seq<Analysis>): (r: Result<Analysis>)
    requires |analyses| > 0
    ensures r.Ok? <==> AllHashable(StatesOf(analyses))
  {
    var states := StatesOf(analyses);
    if !AllHashable(states) then Err("TypeError: unhashable type")
    else
      var m := MostCommon(states);
      Ok(Stamped(analyses[0], m, Count(states, m) as real / |analyses| as real, |analyses|))
  }

  // The per-state sums of `_merge_by_weighted`, in first-seen order.

  function AddTo<T(==)>(c: seq<(T, real)>, x: T, w: real): seq<(T, real)>
  {
    Put(c, x, GetOr(c, x, 0.0) + w)
  }

  lemma AddToGet<T>(c: seq<(T, real)>, x: T, w: real, y: T)
    ensures GetOr(AddTo(c, x, w), y, 0.0) == GetOr(c, y, 0.0) + (if y == x then w else 0.0)
    ensures HasKey(AddTo(c, x, w), y) <==> HasKey(c, y) || y == x
  {
    var v := GetOr(c, x, 0.0) + w;
    var p := Put(c, x, v);
    assert AddTo(c, x, w) == p;
    PutGet(c, x, v, y);
    if y == x {
      assert Get(p, y) == Some(v);
    } else {
      assert Get(p, y) == Get(c, y);
    }
  }

  /** The sum of the weights of the positions holding x. */
  function SumFor<T(==)>(xs: seq<T>, ws: seq<real>, x: T): real
    requires |xs| == |ws|
    decreases |xs|
  {
    if |xs| == 0 then 0.0
    else SumFor(xs[..|xs| - 1], ws[..|ws| - 1], x) + (if xs[|xs| - 1] == x then ws[|ws| - 1] else 0.0)
  }

  function Totals<T(==)>(xs: seq<T>, ws: seq<real>): seq<(T, real)>
    requires |xs| == |ws|
    decreases |xs|
  {
    if |xs| == 0 then []
    else AddTo(Totals(xs[..|xs| - 1], ws[..|ws| - 1]), xs[|xs| - 1], ws[|ws| - 1])
  }

  lemma {:induction false} TotalsValue<T>(xs: seq<T>, ws: seq<real>, x: T)
    requires |xs| == |ws|
    ensures GetOr(Totals(xs, ws), x, 0.0) == SumFor(xs, ws, x)
    ensures HasKey(Totals(xs, ws), x) <==> x in xs
    decreases |xs|
  {
    var n := |xs|;
    if n > 0 {
      TotalsValue(xs[..n - 1], ws[..n - 1], x);
      AddToGet(Totals(xs[..n - 1], ws[..n - 1]), xs[n - 1], ws[n - 1], x);
      LastSplit(xs);
    }
  }

  /** Adding to a total keeps the states distinct. */
  lemma AddToUnique<T>(c: seq<(T, real)>, x: T, w: real)
    requires Unique(Keys(c))
    ensures Unique(Keys(AddTo(c, x, w)))
  {
    PutUnique(c, x, GetOr(c, x, 0.0) + w);
  }

  lemma {:induction false} TotalsUnique<T>(xs: seq<T>, ws: seq<real>)
    requires |xs| == |ws|
    ensures Unique(Keys(Totals(xs, ws)))
    decreases |xs|
  {
    if |xs| > 0 {
      TotalsUnique(xs[..|xs| - 1], ws[..|ws| - 1]);
      AddToUnique(Totals(xs[..|xs| - 1], ws[..|ws| - 1]), xs[|xs| - 1], ws[|ws| - 1]);
    }
  }

  /**
   * `_merge_by_weighted`: confidences summed per state, the state with the
   * largest sum chosen and the mean confidence reported; a zero total falls
   * back to the majority merge.
   */
  function MergeByWeighted(analyses: seq<Analysis>): (r: Result<Analysis>)
    requires |analyses| > 0
    ensures Confidences(analyses).Err? ==> r.Err?
    ensures Confidences(analyses).Ok? && Sum(Confidences(analyses).value) == 0.0 ==> r == MergeByMajority(analyses)
  {
    match Confidences(analyses)
    case Err(e) => Err(e)
    case Ok(cs) =>
      if Sum(cs) == 0.0 then MergeByMajority(analyses)
      else
        var states := StatesOf(analyses);
        if !AllHashable(states) then Err("TypeError: unhashable type")
        else
          var t := Totals(states, cs);
          TotalsValue(states, cs, states[0]);
          var m := t[ArgMax(t)].0;
          Ok(Stamped(analyses[0], m, Sum(cs) / |analyses| as real, |analyses|))
  }

  /**
   * `merge_analyses`: nothing for no analyses, a copy of a single one or of
   * the first when none succeeded; otherwise the successful ones merged by
   * majority, or by weight for any other method name.
   */
  function MergeAnalyses(analyses: seq<Analysis>, mergeMethod: string): (r: Result<Analysis>)
    ensures |analyses| == 0 ==> r == Ok([])
    ensures |analyses| > 0 && (|analyses| == 1 || |Successful(analyses)| == 0) ==> r == Ok(analyses[0])
  {
    if |analyses| == 0 then Ok([])
    else if |analyses| == 1 then Ok(analyses[0])
    else
      var ok := Successful(analyses);
      if |ok| == 0 then Ok(analyses[0])
      else if mergeMethod == "majority" then MergeByMajority(ok)
      else MergeByWeighted(ok)
  }

  /**
   * The majority merge states one of the input states, no less frequent than
   * any other, with its share of the analyses as confidence, the number of
   * analyses merged, and every other field of the first analysis unchanged.
   */
  lemma MajorityMerge(analyses: seq<Analysis>, x: Value, k: string)
    requires |analyses| > 0 && AllHashable(StatesOf(analyses))
    ensures var r := MergeByMajority(analyses); var states := StatesOf(analyses);
      r.Ok? && Get(r.value, "market_state").Some?
      && var s := Get(r.value, "market_state").value;
      s in states && Count(states, x) <= Count(states, s)
      && Get(r.value, "confidence") == Some(Num(Count(states, s) as real / |analyses| as real))
      && 0.0 < Count(states, s) as real / |analyses| as real <= 1.0
      && Get(r.value, "merged_from") == Some(Int(|analyses|))
      && (k != "market_state" && k != "confidence" && k != "merged_from" ==> Get(r.value, k) == Get(analyses[0], k))
  {
    var states := StatesOf(analyses);
    var m := MostCommon(states);
    var c := Count(states, m) as real / |analyses| as real;
    MostCommonIsMode(states, x);
    StampedGet(analyses[0], m, c, |analyses|, "market_state");
    StampedGet(analyses[0], m, c, |analyses|, "confidence");
    StampedGet(analyses[0], m, c, |analyses|, "merged_from");
    StampedGet(analyses[0], m, c, |analyses|, k);
    CountPositive(states, m);
    CountAtMost(states, m);
    ShareBounds(Count(states, m), |analyses|);
  }

  /** A positive count out of n is a share in (0, 1]. */
  lemma ShareBounds(c: nat, n: nat)
    requires 0 < c <= n
    ensures 0.0 < c as real / n as real <= 1.0
  {
    DivBounds(c as real, n as real, 0.0, 1.0);
    assert c as real / n as real == c as real * (1.0 / n as real);
    MulPositive(c as real, 1.0 / n as real);
  }

  lemma {:induction false} CountPositive<T>(s: seq<T>, x: T)
    requires x in s
    ensures Count(s, x) > 0
    decreases |s|
  {
    if s[|s| - 1] != x {
      assert x in s[..|s| - 1] by {
        var i :| 0 <= i < |s| && s[i] == x;
        assert s[..|s| - 1][i] == x;
      }
      CountPositive(s[..|s| - 1], x);
    }
  }

  lemma {:induction false} CountAtMost<T>(s: seq<T>, x: T)
    ensures Count(s, x) <= |s|
    decreases |s|
  {
    if |s| > 0 {
      CountAtMost(s[..|s| - 1], x);
    }
  }

  /**
   * The weighted merge states one of the input states whose confidence sum
   * is no less than that of any state present, the mean confidence, and the number
   * of analyses merged.
   */
  lemma WeightedMerge(analyses: seq<Analysis>, x: Value)
    requires |analyses| > 0 && AllHashable(StatesOf(analyses))
    requires Confidences(analyses).Ok? && Sum(Confidences(analyses).value) != 0.0
    requires x in StatesOf(analyses)
    ensures var r := MergeByWeighted(analyses); var states := StatesOf(analyses);
      var cs := Confidences(analyses).value;
      r.Ok? && Get(r.value, "market_state").Some?
      && var s := Get(r.value, "market_state").value;
      s in states && SumFor(states, cs, x) <= SumFor(states, cs, s)
      && Get(r.value, "confidence") == Some(Num(Mean(cs)))
      && Get(r.value, "merged_from") == Some(Int(|analyses|))
  {
    var states := StatesOf(analyses);
    var cs := Confidences(analyses).value;
    var t := Totals(states, cs);
    TotalsValue(states, cs, states[0]);
    var i := ArgMax(t);
    var m := t[i].0;
    var conf := Sum(cs) / |analyses| as real;
    StampedGet(analyses[0], m, conf, |analyses|, "market_state");
    StampedGet(analyses[0], m, conf, |analyses|, "confidence");
    StampedGet(analyses[0], m, conf, |analyses|, "merged_from");
    TotalsUnique(states, cs);
    UniqueGetAt(t, i);
    TotalsValue(states, cs, m);
    TotalsValue(states, cs, x);
    var j :| 0 <= j < |t| && t[j].0 == x;
    UniqueGetAt(t, j);
    assert t[j].1 <= t[i].1;
  }

  /** A merge of at least two analyses with some success counts the successful ones. */
  lemma MergedFromSuccessful(analyses: seq<Analysis>, mergeMethod: string)
    requires |analyses| >= 2 && |Successful(analyses)| > 0
    requires MergeAnalyses(analyses, mergeMethod).Ok?
    ensures Get(MergeAnalyses(analyses, mergeMethod).value, "merged_from") == Some(Int(|Successful(analyses)|))
  {
    var ok := Successful(analyses);
    if mergeMethod == "majority" || (Confidences(ok).Ok? && Sum(Confidences(ok).value) == 0.0) {
      var states := StatesOf(ok);
      var m := MostCommon(states);
      StampedGet(ok[0], m, Count(states, m) as real / |ok| as real, |ok|, "merged_from");
    } else {
      var states := StatesOf(ok);
      var cs := Confidences(ok).value;
      var t := Totals(states, cs);
      TotalsValue(states, cs, states[0]);
      var m := t[ArgMax(t)].0;
      StampedGet(ok[0], m, Sum(cs) / |ok| as real, |ok|, "merged_from");
    }
  }

  // ----------------------------------------------------------- flattening

  /** A flattened value: kept as it is, or a list turned into its text. */
  datatype Flat = Kept(v: Value) | Listed(items: seq<Value>)

  /** A flattened entry: no nested dictionary left, and under the parent's prefix. */
  predicate FlatEntry(e: (string, Flat), parent: string, sep: string)
  {
    (e.1.Kept? ==> Hashable(e.1.v)) && (parent != "" ==> StartsWith(e.0, parent + sep))
  }

  /** The items `_flatten_dict` collects from entry i of d on. */
  function FlattenItems(d: Value, parent: string, sep: string, i: nat): (r: seq<(string, Flat)>)
    requires d.Dict? && i <= |d.entries|
    decreases d, |d.entries| - i
    ensures forall e :: e in r ==> FlatEntry(e, parent, sep)
  {
    if i == |d.entries| then []
    else
      var k := d.entries[i].0;
      var v := d.entries[i].1;
      var key := if parent != "" then parent + sep + k else k;
      var here := match v
        case Dict(_) => FlattenDict(v, key, sep)
        case List(items) => [(key, Listed(items))]
        case _ => [(key, Kept(v))];
      var r := here + FlattenItems(d, parent, sep, i + 1);
      assert forall e :: e in here ==> FlatEntry(e, parent, sep) by {
        forall e | e in here ensures FlatEntry(e, parent, sep) {
          if v.Dict? && parent != "" {
            PrefixExtends(e.0, parent + sep, k + sep);
          }
        }
      }
      r
  }

  /** `_flatten_dict(d, parent_key, sep)`. */
  function FlattenDict(d: Value, parent: string, sep: string): (r: seq<(string, Flat)>)
    requires d.Dict?
    decreases d, |d.entries| + 1
    ensures forall e :: e in r ==> FlatEntry(e, parent, sep)
  {
    var items := FlattenItems(d, parent, sep, 0);
    var r := DictOf(items);
    assert forall e :: e in r ==> e in items by {
      forall e | e in r ensures e in items {
        DictOfMembers(items, e);
      }
    }
    r
  }

  lemma PrefixExtends(s: string, p: string, q: string)
    requires StartsWith(s, p + q)
    ensures StartsWith(s, p)
  {
    assert s[..|p|] == (p + q)[..|p|];
  }

  /** A dictionary with distinct keys and no nested dictionaries or lists keeps its entries. */
  lemma {:induction false} FlattenScalars(d: Value, sep: string)
    requires d.Dict? && Unique(Keys(d.entries))
    requires forall i :: 0 <= i < |d.entries| ==> Hashable(d.entries[i].1)
    ensures FlattenDict(d, "", sep) == seq(|d.entries|, i requires 0 <= i < |d.entries| => (d.entries[i].0, Kept(d.entries[i].1)))
  {
    var items := FlattenItems(d, "", sep, 0);
    ScalarItems(d, sep, 0);
    assert items == seq(|d.entries|, i requires 0 <= i < |d.entries| => (d.entries[i].0, Kept(d.entries[i].1)));
    assert Keys(items) == Keys(d.entries);
    DictOfDistinct(items);
  }

  lemma {:induction false} ScalarItems(d: Value, sep: string, i: nat)
    requires d.Dict? && i <= |d.entries|
    requires forall j :: 0 <= j < |d.entries| ==> Hashable(d.entries[j].1)
    ensures FlattenItems(d, "", sep, i) == seq(|d.entries| - i, j requires 0 <= j < |d.entries| - i => (d.entries[i + j].0, Kept(d.entries[i + j].1)))
    decreases |d.entries| - i
  {
    if i < |d.entries| {
      ScalarItems(d, sep, i + 1);
      assert Hashable(d.entries[i].1);
    }
  }
}
