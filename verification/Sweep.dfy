/** cmd/launcher/sweep.go: the search for the smallest VDF length that keeps the last revealer from
    finishing within the timeout. Trials are an oracle; the oracle may be noisy. */
module Sweep {

  /** The search parameters of the sweep: block. */
  datatype SweepConfig = SweepConfig(
    vdfTMin: int, vdfTStart: int, vdfTMax: int, binaryGap: int, confirmRuns: int, confirmStep: int)

  /** What loadSweepConfig guarantees after its defaults and checks. */
  predicate Loaded(sc: SweepConfig) {
    && sc.vdfTMin > 0 && sc.vdfTStart > 0 && sc.vdfTMax > 0
    && sc.binaryGap > 0 && sc.confirmRuns > 0 && sc.confirmStep > 0
  }

  datatype TrialPhase = Search | Confirm

  /** early: the last revealer had the output within the window, so T is unsafe. */
  datatype TrialResult = TrialResult(early: bool, durMs: int)

  /** A line of sweep_runs.csv. */
  datatype Row = Row(t: int, phase: TrialPhase, rep: int, result: TrialResult)

  /** The outcome of running T as the k-th trial. */
  type Oracle = (int, nat) -> TrialResult

  /** The rows are the oracle's answers, in order. */
  ghost predicate Recorded(trial: Oracle, rows: seq<Row>) {
    forall k | 0 <= k < |rows| :: rows[k].result == trial(rows[k].t, k)
  }

  /** A noiseless oracle: T is unsafe exactly below the threshold. */
  ghost predicate Monotone(trial: Oracle, threshold: int) {
    forall t, k :: trial(t, k).early <==> t < threshold
  }

  function Max(a: int, b: int): int { if a < b then b else a }

  /** The first upper bound tried. */
  function FirstHi(sc: SweepConfig): int { Max(sc.vdfTStart, sc.vdfTMin + 1) }

  /** x doubled k times. */
  function Doubled(x: int, k: nat): int {
    if k == 0 then x else 2 * Doubled(x, k - 1)
  }

  /** The largest T that the expansion can reach. */
  function Reach(hi: int, max: int): int
    decreases max - hi
  {
    if hi <= 0 || 2 * hi > max then hi else Reach(2 * hi, max)
  }

  lemma {:induction false} ReachIsOverHalf(hi: int, max: int)
    requires 0 < hi
    ensures hi <= Reach(hi, max) && max < 2 * Reach(hi, max)
    ensures hi <= max ==> Reach(hi, max) <= max
    decreases max - hi
  {
    if 2 * hi <= max {
      ReachIsOverHalf(2 * hi, max);
    }
  }

  lemma {:induction false} DoubledGrows(x: int, j: nat, k: nat)
    requires 0 < x && j <= k
    ensures 0 < Doubled(x, j) <= Doubled(x, k)
    decreases k
  {
    if j < k {
      DoubledGrows(x, j, k - 1);
    } else if j > 0 {
      DoubledGrows(x, j - 1, k - 1);
    }
  }

  /** hi - lo when the bisection starts, after that many expansion trials. */
  function StartWidth(sc: SweepConfig, expanded: nat): int {
    if expanded <= 1 then FirstHi(sc) - sc.vdfTMin else Doubled(FirstHi(sc), expanded - 2)
  }

  /** The last rows are confirmRuns safe confirmations of minT in a row. */
  ghost predicate Confirmed(sc: SweepConfig, rows: seq<Row>, minT: int, durMs: int) {
    && 0 < sc.confirmRuns <= |rows|
    && (forall k | |rows| - sc.confirmRuns <= k < |rows| ::
          rows[k] == Row(minT, Confirm, k + 1 - (|rows| - sc.confirmRuns), rows[k].result) && !rows[k].result.early)
    && durMs == rows[|rows| - 1].result.durMs
  }

  // What the rows show, for any oracle.

  /** The expansion tried the first bound and its doubles, every one but the last unsafe. */
  ghost predicate Expanded(sc: SweepConfig, rows: seq<Row>) {
    forall k | 0 <= k < |rows| ::
      && rows[k] == Row(Doubled(FirstHi(sc), k), Search, 0, rows[k].result)
      && (k < |rows| - 1 ==> rows[k].result.early)
  }

  datatype Bracket = Bracket(lo: int, hi: int)

  function Middle(b: Bracket): int { b.lo + (b.hi - b.lo) / 2 }

  /** An unsafe middle becomes the lower end, a safe one the upper. */
  function Narrowed(b: Bracket, rows: seq<Row>): Bracket {
    if rows == [] then b
    else
      var b', last := Narrowed(b, rows[..|rows| - 1]), rows[|rows| - 1];
      if last.result.early then b'.(lo := Middle(b')) else b'.(hi := Middle(b'))
  }

  /** Each trial of the bisection is at the middle of what the trials before it left, while that is
      wider than the gap. */
  ghost predicate Bisected(sc: SweepConfig, b: Bracket, rows: seq<Row>) {
    forall k | 0 <= k < |rows| ::
      var b' := Narrowed(b, rows[..k]);
      b'.hi - b'.lo > sc.binaryGap && rows[k] == Row(Middle(b'), Search, 0, rows[k].result)
  }

  /** Confirmations of t, numbered from 1. */
  ghost predicate ConfirmationsOf(t: int, rows: seq<Row>) {
    forall k | 0 <= k < |rows| :: rows[k] == Row(t, Confirm, k + 1, rows[k].result)
  }

  /** A series given up at its first unsafe confirmation. */
  ghost predicate FailedSeries(sc: SweepConfig, t: int, rows: seq<Row>) {
    && 0 < |rows| <= sc.confirmRuns && ConfirmationsOf(t, rows)
    && forall k | 0 <= k < |rows| :: rows[k].result.early <==> k == |rows| - 1
  }

  /** The candidate j confirmation steps above hi. */
  function Rung(sc: SweepConfig, hi: int, j: int): int { hi + j * sc.confirmStep }

  /** The j-th series, between two ends, failed j steps above hi. */
  ghost predicate FailedStep(sc: SweepConfig, hi: int, rows: seq<Row>, ends: seq<nat>, j: nat)
    requires j + 1 < |ends|
  {
    ends[j] <= ends[j + 1] <= |rows| && FailedSeries(sc, Rung(sc, hi, j), rows[ends[j]..ends[j + 1]])
  }

  /** From ends[0] on, one failed series after another, each a step above the one before. */
  ghost predicate Climbed(sc: SweepConfig, hi: int, rows: seq<Row>, ends: seq<nat>) {
    ends != [] && forall j | 0 <= j && j + 1 < |ends| :: FailedStep(sc, hi, rows, ends, j)
  }

  method RunTrial(trial: Oracle, rows: seq<Row>, t: int, phase: TrialPhase, rep: int) returns (res: TrialResult,
                  rows': seq<Row>)
    requires Recorded(trial, rows)
    ensures res == trial(t, |rows|)
    ensures rows' == rows + [Row(t, phase, rep, res)] && Recorded(trial, rows')
  {
    res := trial(t, |rows|);
    rows' := rows + [Row(t, phase, rep, res)];
  }

  lemma FirstTrial(sc: SweepConfig, rows: seq<Row>)
    requires |rows| == 1 && rows[0] == Row(FirstHi(sc), Search, 0, rows[0].result)
    ensures Expanded(sc, rows)
  {
  }

  lemma ExpandedOnce(sc: SweepConfig, rows: seq<Row>, row: Row)
    requires Expanded(sc, rows) && rows != [] && rows[|rows| - 1].result.early
    requires row == Row(Doubled(FirstHi(sc), |rows|), Search, 0, row.result)
    ensures Expanded(sc, rows + [row])
  {
  }

  /** Doubles hi until it is safe or would pass vdfTMax. */
  method Expand(sc: SweepConfig, trial: Oracle) returns (lo: int, hi: int, safe: bool, rows: seq<Row>)
    requires Loaded(sc)
    ensures Recorded(trial, rows) && |rows| >= 1
    ensures Expanded(sc, rows) && (safe <==> !rows[|rows| - 1].result.early)
    ensures |rows| > 1 ==> Doubled(FirstHi(sc), |rows| - 1) <= sc.vdfTMax
    ensures !safe ==> sc.vdfTMax < Doubled(FirstHi(sc), |rows|)
    ensures safe ==> lo == (if |rows| == 1 then sc.vdfTMin else rows[|rows| - 2].t) && hi == rows[|rows| - 1].t
    ensures safe ==> sc.vdfTMin <= lo < hi <= Max(sc.vdfTMax, FirstHi(sc)) && hi - lo == StartWidth(sc, |rows|)
    ensures forall threshold | Monotone(trial, threshold) ::
              && (safe <==> threshold <= Reach(FirstHi(sc), sc.vdfTMax))
              && (safe ==> threshold <= hi && (lo == sc.vdfTMin || lo < threshold))
  {
    hide Expanded;
    lo, hi := sc.vdfTMin, sc.vdfTStart;
    if hi <= lo {
      hi := lo + 1;
    }
    var res: TrialResult;
    res, rows := RunTrial(trial, [], hi, Search, 0);
    FirstTrial(sc, rows);
    while res.early
      invariant Recorded(trial, rows) && |rows| >= 1 && Expanded(sc, rows)
      invariant res == rows[|rows| - 1].result && hi == rows[|rows| - 1].t
      invariant lo == (if |rows| == 1 then sc.vdfTMin else rows[|rows| - 2].t)
      invariant hi == Doubled(FirstHi(sc), |rows| - 1) && res == trial(hi, |rows| - 1)
      invariant sc.vdfTMin <= lo < hi && hi - lo == StartWidth(sc, |rows|)
      invariant |rows| > 1 ==> hi <= sc.vdfTMax
      invariant Reach(hi, sc.vdfTMax) == Reach(FirstHi(sc), sc.vdfTMax)
      invariant forall threshold | Monotone(trial, threshold) :: lo == sc.vdfTMin || lo < threshold
      decreases Max(0, sc.vdfTMax - hi)
    {
      lo := hi;
      hi := hi * 2;
      if hi > sc.vdfTMax {
        return 0, 0, false, rows;
      }
      ExpandedOnce(sc, rows, Row(hi, Search, 0, trial(hi, |rows|)));
      res, rows := RunTrial(trial, rows, hi, Search, 0);
    }
    ReachIsOverHalf(hi, sc.vdfTMax);
    safe := true;
  }

  lemma TriedOnce(sc: SweepConfig, b: Bracket, rows: seq<Row>, row: Row)
    requires Bisected(sc, b, rows)
    requires var b' := Narrowed(b, rows); b'.hi - b'.lo > sc.binaryGap && row == Row(Middle(b'), Search, 0, row.result)
    ensures Bisected(sc, b, rows + [row])
    ensures var b' := Narrowed(b, rows);
            Narrowed(b, rows + [row]) == if row.result.early then b'.(lo := Middle(b')) else b'.(hi := Middle(b'))
  {
    var all := rows + [row];
    assert all[..|rows|] == rows;
    forall k | 0 <= k < |rows| ensures all[..k] == rows[..k] {}
  }

  /** Halves the bracket until it is within the gap. */
  method Bisect(sc: SweepConfig, trial: Oracle, before: seq<Row>, safe: int, unsafe: int)
    returns (lo: int, hi: int, rows: seq<Row>)
    requires Loaded(sc) && Recorded(trial, before) && sc.vdfTMin <= unsafe < safe
    requires forall threshold | Monotone(trial, threshold) ::
               threshold <= safe && (unsafe == sc.vdfTMin || unsafe < threshold)
    ensures Recorded(trial, rows) && before <= rows
    ensures Bisected(sc, Bracket(unsafe, safe), rows[|before|..])
    ensures Bracket(lo, hi) == Narrowed(Bracket(unsafe, safe), rows[|before|..])
    ensures unsafe <= lo < hi <= safe && hi - lo <= sc.binaryGap
    ensures forall j: nat | safe - unsafe <= Doubled(sc.binaryGap, j) :: |rows| - |before| <= j
    ensures forall threshold | Monotone(trial, threshold) :: threshold <= hi && (lo == sc.vdfTMin || lo < threshold)
  {
    lo, hi, rows := unsafe, safe, before;
    ghost var start := Bracket(unsafe, safe);
    while hi - lo > sc.binaryGap
      invariant Recorded(trial, rows) && before <= rows && unsafe <= lo < hi <= safe
      invariant Bisected(sc, start, rows[|before|..]) && Bracket(lo, hi) == Narrowed(start, rows[|before|..])
      invariant forall j: nat | safe - unsafe <= Doubled(sc.binaryGap, j) ::
                  |rows| - |before| <= j && hi - lo <= Doubled(sc.binaryGap, j - (|rows| - |before|))
      invariant forall threshold | Monotone(trial, threshold) ::
                  threshold <= hi && (lo == sc.vdfTMin || lo < threshold)
      decreases hi - lo
    {
      ghost var done := |rows| - |before|;
      forall j: nat | safe - unsafe <= Doubled(sc.binaryGap, j)
        ensures done < j && hi - lo <= 2 * Doubled(sc.binaryGap, j - done - 1)
      {
        assert hi - lo <= Doubled(sc.binaryGap, j - done);
      }
      var mid := lo + (hi - lo) / 2;
      var res: TrialResult;
      ghost var tried := rows[|before|..];
      res, rows := RunTrial(trial, rows, mid, Search, 0);
      assert rows[|before|..] == tried + [Row(mid, Search, 0, res)];
      TriedOnce(sc, start, tried, Row(mid, Search, 0, res));
      if res.early {
        lo := mid;
      } else {
        hi := mid;
      }
    }
  }

  /** One series of confirmations, cut short by the first unsafe one. */
  method ConfirmSeries(sc: SweepConfig, trial: Oracle, before: seq<Row>, candidate: int)
    returns (allSafe: bool, durMs: int, rows: seq<Row>)
    requires Loaded(sc) && Recorded(trial, before)
    ensures Recorded(trial, rows) && before <= rows
    ensures allSafe ==> |rows| == |before| + sc.confirmRuns && Confirmed(sc, rows, candidate, durMs)
    ensures !allSafe ==> FailedSeries(sc, candidate, rows[|before|..])
    ensures forall threshold | Monotone(trial, threshold) :: allSafe <==> threshold <= candidate
  {
    allSafe, durMs, rows := true, 0, before;
    var rep := 1;
    while rep <= sc.confirmRuns
      invariant 1 <= rep <= sc.confirmRuns + 1 && Recorded(trial, rows) && before <= rows
      invariant |rows| == |before| + rep - 1 && allSafe
      invariant forall k | |before| <= k < |rows| ::
                  rows[k] == Row(candidate, Confirm, k + 1 - |before|, rows[k].result) && !rows[k].result.early
      invariant rep > 1 ==> durMs == rows[|rows| - 1].result.durMs
    {
      var res: TrialResult;
      res, rows := RunTrial(trial, rows, candidate, Confirm, rep);
      if res.early {
        allSafe := false;
        assert FailedSeries(sc, candidate, rows[|before|..]);
        break;
      }
      durMs := res.durMs;
      rep := rep + 1;
    }
    assert allSafe ==> rows[|before|].result == trial(candidate, |before|);
  }

  /** The bisection started between the last two trials of the expansion and narrowed down to top. */
  ghost predicate BisectedTo(sc: SweepConfig, rows: seq<Row>, expanded: nat, bisected: nat, top: int) {
    && 0 < expanded && expanded + bisected <= |rows|
    && var start := Bracket(if expanded == 1 then sc.vdfTMin else rows[expanded - 2].t, rows[expanded - 1].t);
       var trials := rows[expanded..expanded + bisected];
       && Bisected(sc, start, trials) && top == Narrowed(start, trials).hi
       && Narrowed(start, trials).hi - Narrowed(start, trials).lo <= sc.binaryGap
  }

  lemma StillBisected(sc: SweepConfig, rows: seq<Row>, rows': seq<Row>, expanded: nat, bisected: nat, top: int)
    requires rows <= rows' && BisectedTo(sc, rows, expanded, bisected, top)
    ensures BisectedTo(sc, rows', expanded, bisected, top) && rows'[..expanded] == rows[..expanded]
  {
    assert rows'[expanded..expanded + bisected] == rows[expanded..expanded + bisected];
  }

  lemma StillClimbed(sc: SweepConfig, hi: int, rows: seq<Row>, rows': seq<Row>, ends: seq<nat>)
    requires rows <= rows' && Climbed(sc, hi, rows, ends)
    ensures Climbed(sc, hi, rows', ends)
  {
    hide FailedSeries, Rung;
    forall j | 0 <= j && j + 1 < |ends| ensures FailedStep(sc, hi, rows', ends, j) {
      assert FailedStep(sc, hi, rows, ends, j);
      assert rows'[ends[j]..ends[j + 1]] == rows[ends[j]..ends[j + 1]];
    }
  }

  lemma ClimbedOn(sc: SweepConfig, hi: int, rows: seq<Row>, rows': seq<Row>, ends: seq<nat>)
    requires rows <= rows' && Climbed(sc, hi, rows, ends) && ends[|ends| - 1] == |rows|
    requires FailedSeries(sc, Rung(sc, hi, |ends| - 1), rows'[|rows|..])
    ensures Climbed(sc, hi, rows', ends + [|rows'|])
  {
    hide FailedSeries, Rung;
    StillClimbed(sc, hi, rows, rows', ends);
    var more := ends + [|rows'|];
    assert rows'[|rows|..] == rows'[|rows|..|rows'|];
    forall j | 0 <= j && j + 1 < |more| ensures FailedStep(sc, hi, rows', more, j) {
      assert j + 1 < |ends| ==> FailedStep(sc, hi, rows', ends, j);
    }
  }

  lemma BisectionEnds(sc: SweepConfig, before: seq<Row>, rows: seq<Row>, lo: int, hi: int)
    requires before != [] && before <= rows
    requires var start := Bracket(if |before| == 1 then sc.vdfTMin else before[|before| - 2].t, before[|before| - 1].t);
             && Bisected(sc, start, rows[|before|..]) && Bracket(lo, hi) == Narrowed(start, rows[|before|..])
             && hi - lo <= sc.binaryGap
    ensures BisectedTo(sc, rows, |before|, |rows| - |before|, hi) && rows[..|before|] == before
  {
    assert rows[|before|..|before| + (|rows| - |before|)] == rows[|before|..];
  }

  /** Confirms hi, and after each failed series the next candidate a step above, up to vdfTMax. */
  method Climb(sc: SweepConfig, trial: Oracle, before: seq<Row>, hi: int)
    returns (minT: int, durMs: int, found: bool, rows: seq<Row>, ghost ends: seq<nat>)
    requires Loaded(sc) && Recorded(trial, before)
    ensures Recorded(trial, rows) && before <= rows
    ensures ends != [] && ends[0] == |before| && Climbed(sc, hi, rows, ends)
    ensures found ==> minT == Rung(sc, hi, |ends| - 1) && |rows| == ends[|ends| - 1] + sc.confirmRuns
    ensures found ==> Confirmed(sc, rows, minT, durMs) && hi <= minT <= Max(sc.vdfTMax, hi)
    ensures !found ==> minT == 0 && durMs == 0
    ensures !found ==> 1 < |ends| && ends[|ends| - 1] == |rows| && sc.vdfTMax < Rung(sc, hi, |ends| - 1)
    ensures forall threshold | Monotone(trial, threshold) && threshold <= hi ::
              found && minT == hi && |rows| == |before| + sc.confirmRuns
  {
    hide Climbed, FailedSeries, Rung, Monotone;
    var candidate := hi;
    rows, ends := before, [|before|];
    ClimbStarts(sc, hi, rows);
    while true
      invariant Recorded(trial, rows) && before <= rows
      invariant hi <= candidate <= Max(sc.vdfTMax, hi)
      invariant ends != [] && ends[0] == |before| && ends[|ends| - 1] == |rows| && Climbed(sc, hi, rows, ends)
      invariant candidate == Rung(sc, hi, |ends| - 1)
      invariant forall threshold | Monotone(trial, threshold) && threshold <= hi :: candidate == hi && rows == before
      decreases Max(0, sc.vdfTMax - candidate)
    {
      var allSafe;
      ghost var sofar := rows;
      allSafe, durMs, rows := ConfirmSeries(sc, trial, rows, candidate);
      StillClimbed(sc, hi, sofar, rows, ends);
      if allSafe {
        return candidate, durMs, true, rows, ends;
      }
      ClimbedOn(sc, hi, sofar, rows, ends);
      NextRung(sc, hi, |ends| - 1);
      ends := ends + [|rows|];
      candidate := candidate + sc.confirmStep;
      if candidate > sc.vdfTMax {
        return 0, 0, false, rows, ends;
      }
    }
  }

  lemma ClimbStarts(sc: SweepConfig, hi: int, rows: seq<Row>)
    ensures Climbed(sc, hi, rows, [|rows|]) && Rung(sc, hi, 0) == hi
  {
  }

  lemma NextRung(sc: SweepConfig, hi: int, j: int)
    ensures Rung(sc, hi, j + 1) == Rung(sc, hi, j) + sc.confirmStep
  {
  }

  /** Expansion, bisection, confirmation. For a noiseless oracle: a result is found exactly when the
      expansion can reach the threshold, it brackets the threshold to within the gap, and one series
      of confirmations is enough. For any oracle: the search ends, with at most logarithmically many
      trials before the confirmations; the rows are a doubling expansion, a bisection that ends at top,
      and series of confirmations of top, top + confirmStep and so on, all failed but the last; what it
      returns has just been confirmed, and nothing is found only when the next step would pass vdfTMax. */
  method SearchMinT(sc: SweepConfig, trial: Oracle)
    returns (minT: int, durMs: int, found: bool, rows: seq<Row>,
             ghost expanded: nat, ghost bisected: nat, ghost top: int, ghost ends: seq<nat>)
    requires Loaded(sc)
    ensures Recorded(trial, rows) && 0 < expanded && expanded + bisected <= |rows| && Expanded(sc, rows[..expanded])
    ensures ends == [] <==> rows[expanded - 1].result.early
    ensures ends == [] ==> !found && |rows| == expanded && sc.vdfTMax < Doubled(FirstHi(sc), expanded)
    ensures ends != [] ==> BisectedTo(sc, rows, expanded, bisected, top)
    ensures ends != [] ==> ends[0] == expanded + bisected && Climbed(sc, top, rows, ends)
    ensures found ==> ends != [] && minT == Rung(sc, top, |ends| - 1) && |rows| == ends[|ends| - 1] + sc.confirmRuns
    ensures !found && ends != [] ==>
              1 < |ends| && ends[|ends| - 1] == |rows| && sc.vdfTMax < Rung(sc, top, |ends| - 1)
    ensures found ==> Confirmed(sc, rows, minT, durMs) && minT <= Max(sc.vdfTMax, FirstHi(sc))
    ensures !found ==> minT == 0 && durMs == 0
    ensures forall j: nat | sc.vdfTMax < Doubled(FirstHi(sc), j) && FirstHi(sc) <= sc.vdfTMax :: expanded <= j
    ensures forall j: nat | StartWidth(sc, expanded) <= Doubled(sc.binaryGap, j) :: bisected <= j
    ensures forall threshold | Monotone(trial, threshold) ::
              && (found <==> threshold <= Reach(FirstHi(sc), sc.vdfTMax))
              && (found ==> threshold <= minT <= Max(threshold, sc.vdfTMin + 1) + sc.binaryGap - 1)
              && |rows| == expanded + bisected + (if found then sc.confirmRuns else 0)
  {
    hide Expanded, BisectedTo, Bisected, Narrowed, Climbed, FailedSeries, Rung, Confirmed, Monotone;
    var lo, hi, safe;
    lo, hi, safe, rows := Expand(sc, trial);
    expanded, bisected := |rows|, 0;
    forall j: nat | sc.vdfTMax < Doubled(FirstHi(sc), j) && FirstHi(sc) <= sc.vdfTMax ensures expanded <= j {
      if j < expanded {
        DoubledGrows(FirstHi(sc), j, expanded - 1);
      }
    }
    if !safe {
      assert rows[..expanded] == rows;
      return 0, 0, false, rows, expanded, 0, 0, [];
    }
    ghost var expansion := rows;
    lo, hi, rows := Bisect(sc, trial, rows, hi, lo);
    bisected, top := |rows| - expanded, hi;
    BisectionEnds(sc, expansion, rows, lo, hi);
    ghost var sofar := rows;
    minT, durMs, found, rows, ends := Climb(sc, trial, rows, hi);
    StillBisected(sc, sofar, rows, expanded, bisected, top);
    assert rows[expanded - 1] == expansion[expanded - 1];
  }

  /** "Not found" is honest: under a noiseless oracle every T up to half the cap is unsafe. */
  lemma NotFoundMeansUnsafe(sc: SweepConfig, trial: Oracle, threshold: int, t: int, k: nat)
    requires Loaded(sc) && Monotone(trial, threshold) && Reach(FirstHi(sc), sc.vdfTMax) < threshold
    requires t <= sc.vdfTMax / 2
    ensures trial(t, k).early
  {
    ReachIsOverHalf(FirstHi(sc), sc.vdfTMax);
  }

  /** The cap is kept when the first bound tried is within it; otherwise a T above the cap is
      returned, as soon as the threshold lies between the two. */
  method StartAboveTheCapEscapesIt(sc: SweepConfig, trial: Oracle, ghost threshold: int) returns (minT: int, found: bool)
    requires Loaded(sc) && Monotone(trial, threshold)
    requires sc.vdfTMax < threshold <= FirstHi(sc)
    ensures found && sc.vdfTMax < minT
  {
    var durMs, rows;
    ghost var expanded, bisected, top, ends;
    minT, durMs, found, rows, expanded, bisected, top, ends := SearchMinT(sc, trial);
    ReachIsOverHalf(FirstHi(sc), sc.vdfTMax);
  }
}
