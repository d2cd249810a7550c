/**
 Does the device loopback hear Viola's own playback?  Learned frame by frame
 (SOURCE/audio_core/aec_reference_base.py, `_learn_loopback_hearing`), equal to a
 verdict over the whole history.
 */
module LoopbackVerdict {
  import opened Common

  const LOOPBACK_SILENT_RMS := 50.0
  const LOCAL_LOUD_RMS := 300.0
  const LOOPBACK_DEAF_FRAMES := 50
  const LOOPBACK_HEARS_FRAMES := 20

  datatype Levels = Levels(loopback: real, local: real)

  // ------------------------------------------------------- the batch verdict

  /** The frames that are evidence: those with loud own playback; true where the loopback heard it. */
  function Evidence(history: seq<Levels>): seq<bool> {
    if history == [] then []
    else
      var f := history[|history| - 1];
      Evidence(history[..|history| - 1])
          + (if f.local < LOCAL_LOUD_RMS then [] else [f.loopback >= LOOPBACK_SILENT_RMS])
  }

  function Threshold(heard: bool): nat { if heard then LOOPBACK_HEARS_FRAMES else LOOPBACK_DEAF_FRAMES }

  /** Enough frames in a row, up to and including frame `i`, all said `heard`. */
  ghost predicate Streak(e: seq<bool>, i: int, heard: bool) {
    Threshold(heard) - 1 <= i < |e| && forall j :: i - Threshold(heard) < j <= i ==> e[j] == heard
  }

  ghost predicate NoneAfter(e: seq<bool>, i: int, heard: bool) { forall j :: i < j ==> !Streak(e, j, heard) }

  /** `r` is the answer of the most recent streak, or None when there has been none. */
  ghost predicate IsVerdict(e: seq<bool>, r: Option<bool>) {
    match r
    case None => forall i, heard :: !Streak(e, i, heard)
    case Some(heard) => exists i :: Streak(e, i, heard) && NoneAfter(e, i, !heard)
  }

  lemma StreakEnd(e: seq<bool>, i: int, heard: bool)
    requires Streak(e, i, heard)
    ensures 0 <= i < |e| && e[i] == heard
  {
  }

  lemma VerdictIsUnique(e: seq<bool>, r: Option<bool>, q: Option<bool>)
    requires IsVerdict(e, r) && IsVerdict(e, q)
    ensures r == q
  {
    if r.Some? && q.Some? && r != q {
      var i :| Streak(e, i, r.value) && NoneAfter(e, i, !r.value);
      var k :| Streak(e, k, q.value) && NoneAfter(e, k, !q.value);
      StreakEnd(e, i, r.value);
      assert false;
    }
  }

  /** How many frames at the end of `e` all said `heard`. */
  function Trailing(e: seq<bool>, heard: bool): (n: nat)
    ensures n <= |e|
  {
    if e == [] || e[|e| - 1] != heard then 0 else 1 + Trailing(e[..|e| - 1], heard)
  }

  lemma {:induction false} TrailingIsMaximal(e: seq<bool>, heard: bool)
    ensures var n := Trailing(e, heard);
            && (forall j :: |e| - n <= j < |e| ==> e[j] == heard)
            && (n < |e| ==> e[|e| - 1 - n] != heard)
  {
    if e != [] && e[|e| - 1] == heard {
      TrailingIsMaximal(e[..|e| - 1], heard);
    }
  }

  /** A run counter at its threshold is a streak that ends at the latest frame. */
  lemma CounterIsStreak(e: seq<bool>, heard: bool)
    ensures Trailing(e, heard) >= Threshold(heard) <==> Streak(e, |e| - 1, heard)
  {
    TrailingIsMaximal(e, heard);
    var n := Trailing(e, heard);
    if n < Threshold(heard) && Streak(e, |e| - 1, heard) {
      assert false;
    }
  }

  /** The loopback hears, or misses, what Viola plays loudly. */
  predicate Says(f: Levels, heard: bool) {
    f.local >= 300.0 && (heard <==> f.loopback >= 50.0)
  }

  lemma {:induction false} EvidenceOfTail(history: seq<Levels>, k: nat, heard: bool)
    requires k <= |history| && forall i :: |history| - k <= i < |history| ==> Says(history[i], heard)
    ensures var e := Evidence(history); k <= |e| && forall j :: |e| - k <= j < |e| ==> e[j] == heard
  {
    if k > 0 {
      var front := history[..|history| - 1];
      EvidenceOfTail(front, k - 1, heard);
      assert Says(history[|history| - 1], heard);
      assert Evidence(history) == Evidence(front) + [heard];
    }
  }

  /**
   On raw levels: after 50 frames in a row of loud playback that the loopback missed
   it is judged deaf, and after 20 that it heard it is judged to hear, whatever came
   before.
   */
  lemma LoudFramesDecide(history: seq<Levels>, heard: bool, r: Option<bool>)
    requires IsVerdict(Evidence(history), r)
    requires var k := if heard then 20 else 50;
             k <= |history| && forall i :: |history| - k <= i < |history| ==> Says(history[i], heard)
    ensures r == Some(heard)
  {
    hide IsVerdict, Evidence, Says;
    var k := if heard then 20 else 50;
    EvidenceOfTail(history, k, heard);
    TailDecides(Evidence(history), k, heard);
    VerdictIsUnique(Evidence(history), r, Some(heard));
  }

  lemma TailDecides(e: seq<bool>, k: nat, heard: bool)
    requires k == Threshold(heard) && 0 < k <= |e| && forall j :: |e| - k <= j < |e| ==> e[j] == heard
    ensures IsVerdict(e, Some(heard))
  {
    assert Streak(e, |e| - 1, heard);
    hide Threshold;
    assert NoneAfter(e, |e| - 1, !heard);
  }

  lemma {:induction false} LoudFramesOnly(history: seq<Levels>)
    ensures |Evidence(history)| == |set i | 0 <= i < |history| && history[i].local >= 300.0|
    decreases |history|
  {
    if history != [] {
      var n := |history| - 1;
      var front := history[..n];
      LoudFramesOnly(front);
      var before := set i | 0 <= i < |front| && front[i].local >= 300.0;
      var now := set i | 0 <= i < |history| && history[i].local >= 300.0;
      assert now == before + (if history[n].local >= 300.0 then {n} else {});
    }
  }

  /** And with fewer than 20 frames of loud playback nothing is judged. */
  lemma FewLoudFramesDecideNothing(history: seq<Levels>, r: Option<bool>)
    requires IsVerdict(Evidence(history), r)
    requires |set i | 0 <= i < |history| && history[i].local >= 300.0| < 20
    ensures r == None
  {
    LoudFramesOnly(history);
    VerdictIsUnique(Evidence(history), r, None);
  }

  lemma StreaksStay(e: seq<bool>, b: bool, i: int, heard: bool)
    requires i != |e|
    ensures Streak(e + [b], i, heard) <==> Streak(e, i, heard)
  {
    assert forall j :: 0 <= j < |e| ==> (e + [b])[j] == e[j];
    if Streak(e + [b], i, heard) {
      forall j | i - Threshold(heard) < j <= i ensures e[j] == heard { assert (e + [b])[j] == heard; }
    }
  }

  /** The verdict after one more frame of evidence. */
  lemma NextVerdict(e: seq<bool>, b: bool, r: Option<bool>)
    requires IsVerdict(e, r)
    ensures IsVerdict(e + [b], if Streak(e + [b], |e|, b) then Some(b) else r)
  {
    var next := e + [b];
    assert next[|e|] == b;
    assert !Streak(next, |e|, !b);
    if Streak(next, |e|, b) {
      assert NoneAfter(next, |e|, !b);
    } else if r.Some? {
      var i :| Streak(e, i, r.value) && NoneAfter(e, i, !r.value);
      StreaksStay(e, b, i, r.value);
      var other := !r.value;
      forall j | i < j ensures !Streak(next, j, other) {
        if j != |e| { StreaksStay(e, b, j, other); }
      }
      assert NoneAfter(next, i, other);
    } else {
      forall i, heard ensures !Streak(next, i, heard) {
        if i != |e| { StreaksStay(e, b, i, heard); }
      }
    }
  }

  /** The verdict and the two runs at the end of the evidence. */
  ghost predicate Sums(history: seq<Levels>, hears: Option<bool>, heardRun: nat, silentRun: nat) {
    && IsVerdict(Evidence(history), hears)
    && heardRun == Trailing(Evidence(history), true)
    && silentRun == Trailing(Evidence(history), false)
  }

  lemma SumsMean(history: seq<Levels>, hears: Option<bool>, heardRun: nat, silentRun: nat)
    requires Sums(history, hears, heardRun, silentRun)
    ensures IsVerdict(Evidence(history), hears) && (heardRun == 0 || silentRun == 0)
  {
    AtMostOneRun(Evidence(history));
    hide IsVerdict;
  }

  /** One more frame: a quiet one changes nothing, a loud one lengthens one run and ends the other. */
  lemma NextSums(history: seq<Levels>, f: Levels, hears: Option<bool>, heardRun: nat, silentRun: nat)
    requires Sums(history, hears, heardRun, silentRun)
    ensures f.local < LOCAL_LOUD_RMS ==> Sums(history + [f], hears, heardRun, silentRun)
    ensures f.local >= LOCAL_LOUD_RMS && f.loopback >= LOOPBACK_SILENT_RMS ==>
              Sums(history + [f], if heardRun + 1 >= LOOPBACK_HEARS_FRAMES then Some(true) else hears, heardRun + 1, 0)
    ensures f.local >= LOCAL_LOUD_RMS && f.loopback < LOOPBACK_SILENT_RMS ==>
              Sums(history + [f], if silentRun + 1 >= LOOPBACK_DEAF_FRAMES then Some(false)
                   else hears, 0, silentRun + 1)
  {
    OneMoreFrame(history, f, hears);
    hide IsVerdict, Evidence, Trailing;
  }

  class LoopbackLearner {
    var hears: Option<bool>
    var heardRun: nat
    var silentRun: nat
    ghost var history: seq<Levels>

    ghost predicate Valid()
      reads this
    {
      Sums(history, hears, heardRun, silentRun)
    }

    constructor ()
      ensures Valid() && history == []
    {
      hears, heardRun, silentRun, history := None, 0, 0, [];
    }

    /** Frame by frame, the answer is the batch verdict of everything seen. */
    method Learn(loopbackRms: real, localRms: real) returns (answer: Option<bool>)
      requires Valid()
      modifies this
      ensures Valid() && history == old(history) + [Levels(loopbackRms, localRms)]
      ensures answer == hears && IsVerdict(Evidence(history), answer)
      ensures heardRun == 0 || silentRun == 0
    {
      NextSums(history, Levels(loopbackRms, localRms), hears, heardRun, silentRun);
      SumsMean(history, hears, heardRun, silentRun);
      hide Sums, Evidence, IsVerdict, Trailing, Streak;
      history := history + [Levels(loopbackRms, localRms)];
      if localRms < LOCAL_LOUD_RMS {
        SumsMean(history, hears, heardRun, silentRun);
        return hears;
      }
      if loopbackRms >= LOOPBACK_SILENT_RMS {
        heardRun, silentRun := heardRun + 1, 0;
      } else {
        silentRun, heardRun := silentRun + 1, 0;
      }
      if silentRun >= LOOPBACK_DEAF_FRAMES && hears != Some(false) {
        hears := Some(false);
      } else if heardRun >= LOOPBACK_HEARS_FRAMES && hears != Some(true) {
        hears := Some(true);
      }
      SumsMean(history, hears, heardRun, silentRun);
      return hears;
    }
  }

  /** What one more frame does to the evidence, the runs and the verdict. */
  lemma OneMoreFrame(history: seq<Levels>, f: Levels, r: Option<bool>)
    requires IsVerdict(Evidence(history), r)
    ensures var (e, next, b) := (Evidence(history), Evidence(history + [f]), f.loopback >= LOOPBACK_SILENT_RMS);
            if f.local < LOCAL_LOUD_RMS then next == e
            else
              && Trailing(next, b) == Trailing(e, b) + 1 && Trailing(next, !b) == 0
              && IsVerdict(next, if Trailing(next, b) >= Threshold(b) then Some(b) else r)
  {
    assert (history + [f])[..|history|] == history;
    var e, b := Evidence(history), f.loopback >= LOOPBACK_SILENT_RMS;
    if f.local >= LOCAL_LOUD_RMS {
      NextVerdict(e, b, r);
      CounterIsStreak(e + [b], b);
      assert (e + [b])[..|e|] == e;
      hide IsVerdict, Streak;
    }
  }

  /** The two run counters are never both positive. */
  lemma AtMostOneRun(e: seq<bool>)
    ensures Trailing(e, true) == 0 || Trailing(e, false) == 0
  {
  }

  /** Quiet frames change nothing: only the loud ones, in their order, decide. */
  lemma {:induction false} QuietFramesAreIgnored(before: seq<Levels>, quiet: Levels, after: seq<Levels>,
                                                 r: Option<bool>)
    requires quiet.local < LOCAL_LOUD_RMS
    ensures Evidence(before + [quiet] + after) == Evidence(before + after)
    ensures IsVerdict(Evidence(before + [quiet] + after), r) <==> IsVerdict(Evidence(before + after), r)
    decreases |after|
  {
    if after == [] {
      assert before + [quiet] + after == before + [quiet] && before + after == before;
      assert (before + [quiet])[..|before|] == before;
    } else {
      var front, last := after[..|after| - 1], after[|after| - 1];
      QuietFramesAreIgnored(before, quiet, front, r);
      assert (before + [quiet] + after)[..|before| + |after|] == before + [quiet] + front;
      assert (before + after)[..|before| + |after| - 1] == before + front;
    }
  }
}
