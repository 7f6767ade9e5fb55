/** The stall detector of the soak controller (scripts/soak_2h.py). */
module StallDetection {
  import opened Wrappers

  /** One look at the ticks table: unreadable, or a row count at a wall-clock time. */
  datatype Look = Unreadable | Seen(count: int, now: real)

  /** The last count and the time since it has been the count. */
  datatype Detector = Detector(lastCount: Option<int>, lastProgress: real, streak: nat)

  /** Python's `x or now`: a zero time counts as missing. */
  function ProgressOr(lastProgress: real, now: real): real {
    if lastProgress == 0.0 then now else lastProgress
  }

  function Check(d: Detector, threshold: real, look: Look): (Detector, bool) {
    match look
    case Unreadable => (d, false)
    case Seen(count, now) =>
      if d.lastCount.None? then (Detector(Some(count), now, d.streak), false)
      else if count != d.lastCount.value then (Detector(Some(count), now, 0), false)
      else
        var stalled := now - ProgressOr(d.lastProgress, now) > threshold;
        (if stalled then d.(streak := d.streak + 1) else d, stalled)
  }

  class StallDetector {
    const threshold: real
    var lastCount: Option<int>
    var lastProgressWall: real
    var stallStreak: nat

    function View(): Detector
      reads this
    {
      Detector(lastCount, lastProgressWall, stallStreak)
    }

    constructor (threshold: real)
      ensures View() == Detector(None, 0.0, 0) && this.threshold == threshold
    {
      this.threshold, lastCount, lastProgressWall, stallStreak := threshold, None, 0.0, 0;
    }

    method Observe(look: Look) returns (stalled: bool)
      modifies this
      ensures (View(), stalled) == Check(old(View()), threshold, look)
    {
      if look.Unreadable? {
        return false;
      }
      if lastCount.None? {
        lastCount, lastProgressWall := Some(look.count), look.now;
        return false;
      }
      if look.count != lastCount.value {
        lastCount, lastProgressWall, stallStreak := Some(look.count), look.now, 0;
        return false;
      }
      stalled := look.now - ProgressOr(lastProgressWall, look.now) > threshold;
      if stalled {
        stallStreak := stallStreak + 1;
      }
    }
  }

  function After(looks: seq<Look>, threshold: real): (Detector, bool) {
    if looks == [] then (Detector(None, 0.0, 0), false)
    else Check(After(looks[..|looks| - 1], threshold).0, threshold, looks[|looks| - 1])
  }

  /** Clock readings are positive and do not run backwards. */
  ghost predicate Timely(looks: seq<Look>) {
    && (forall i :: 0 <= i < |looks| && looks[i].Seen? ==> looks[i].now > 0.0)
    && (forall i, j :: 0 <= i <= j < |looks| && looks[i].Seen? && looks[j].Seen? ==> looks[i].now <= looks[j].now)
  }

  /** From look `i` to the end every readable look shows the same count. */
  ghost predicate SameSince(looks: seq<Look>, i: nat) {
    i < |looks| && looks[i].Seen?
    && forall j :: i <= j < |looks| && looks[j].Seen? ==> looks[j].count == looks[i].count
  }

  /** The last look shows a count that was already there more than `threshold` ago. */
  ghost predicate Stuck(looks: seq<Look>, threshold: real) {
    looks != [] && looks[|looks| - 1].Seen?
    && exists i: nat :: SameSince(looks, i) && looks[|looks| - 1].now - looks[i].now > threshold
  }

  /** What the detector remembers: the first look of the current unchanged stretch. */
  ghost predicate Remembers(d: Detector, looks: seq<Look>, i: nat) {
    && SameSince(looks, i) && d.lastCount == Some(looks[i].count) && d.lastProgress == looks[i].now
    && forall k: nat :: SameSince(looks, k) ==> looks[i].now <= looks[k].now
  }

  lemma SamePush(past: seq<Look>, look: Look, i: nat)
    ensures i < |past| ==> (SameSince(past + [look], i) <==>
                            SameSince(past, i) && (look.Seen? ==> look.count == past[i].count))
    ensures i == |past| ==> (SameSince(past + [look], i) <==> look.Seen?)
  {
    var looks := past + [look];
    if i < |past| && SameSince(looks, i) {
      forall j | i <= j < |past| && past[j].Seen? ensures past[j].count == past[i].count {
        assert looks[j].count == looks[i].count;
      }
      assert looks[|past|] == look;
    }
  }

  /** Two stretches that both reach the end share their last readable count. */
  lemma SameCount(looks: seq<Look>, i: nat, k: nat)
    requires SameSince(looks, i) && SameSince(looks, k)
    ensures looks[i].count == looks[k].count
  {
  }

  predicate Changes(past: seq<Look>, look: Look, i: nat)
    requires i < |past| && past[i].Seen?
  {
    look.Seen? && look.count != past[i].count
  }

  /** One more look: the stretch goes on, or a changed count starts a new one. */
  lemma StepRemembers(d: Detector, past: seq<Look>, look: Look, i: nat, threshold: real)
    requires Remembers(d, past, i) && Timely(past + [look])
    ensures Remembers(Check(d, threshold, look).0, past + [look], if Changes(past, look, i) then |past| else i)
  {
    var looks := past + [look];
    SamePush(past, look, i);
    SamePush(past, look, |past|);
    forall k: nat | SameSince(looks, k)
      ensures Changes(past, look, i) ==> k == |past|
      ensures k < |past| ==> past[i].now <= looks[k].now
      ensures k == |past| && !Changes(past, look, i) ==> past[i].now <= looks[k].now
    {
      SamePush(past, look, k);
      if k < |past| {
        SameCount(past, i, k);
      } else {
        assert looks[i].now <= looks[k].now;
      }
    }
  }

  lemma FirstRemembers(d: Detector, past: seq<Look>, look: Look, threshold: real)
    requires d.lastCount == None && look.Seen?
    requires forall k :: 0 <= k < |past| ==> !past[k].Seen?
    ensures Remembers(Check(d, threshold, look).0, past + [look], |past|)
    ensures forall k: nat :: SameSince(past + [look], k) ==> k == |past|
  {
    forall k: nat ensures k < |past| ==> !SameSince(past + [look], k) {
      if k < |past| {
        assert (past + [look])[k] == past[k];
      }
    }
  }

  ghost predicate AnySeen(looks: seq<Look>) {
    exists k :: 0 <= k < |looks| && looks[k].Seen?
  }

  lemma {:induction false} DetectorRemembers(looks: seq<Look>, threshold: real) returns (i: nat)
    requires Timely(looks) && AnySeen(looks)
    ensures Remembers(After(looks, threshold).0, looks, i)
  {
    var n := |looks| - 1;
    var past, look := looks[..n], looks[n];
    assert looks == past + [look];
    if AnySeen(past) {
      var k := DetectorRemembers(past, threshold);
      StepRemembers(After(past, threshold).0, past, look, k, threshold);
      i := if Changes(past, look, k) then n else k;
    } else {
      NeverSeen(past, threshold);
      FirstRemembers(After(past, threshold).0, past, look, threshold);
      i := n;
    }
  }

  lemma {:induction false} NeverSeen(looks: seq<Look>, threshold: real)
    requires !AnySeen(looks)
    ensures After(looks, threshold).0.lastCount == None && After(looks, threshold).0.streak == 0
  {
    if looks != [] {
      assert forall k :: 0 <= k < |looks| - 1 ==> looks[..|looks| - 1][k] == looks[k];
      NeverSeen(looks[..|looks| - 1], threshold);
    }
  }

  /** The answer at a readable look, given the first look of the stretch so far. */
  lemma AnswerIff(d: Detector, past: seq<Look>, look: Look, i: nat, threshold: real)
    requires Remembers(d, past, i) && Timely(past + [look]) && look.Seen? && threshold >= 0.0
    ensures Check(d, threshold, look).1 <==> Stuck(past + [look], threshold)
  {
    var looks := past + [look];
    StepRemembers(d, past, look, i, threshold);
    SamePush(past, look, i);
    assert looks[i] == past[i];
    if Changes(past, look, i) {
      forall k: nat | SameSince(looks, k) ensures looks[|past|].now - looks[k].now <= threshold {
        assert looks[|past|].now <= looks[k].now;
      }
    } else if Stuck(looks, threshold) {
      var k: nat :| SameSince(looks, k) && looks[|past|].now - looks[k].now > threshold;
      assert looks[i].now <= looks[k].now;
    }
  }

  /** A stall is reported exactly when the row count has not moved for longer than the threshold,
      however many unreadable looks lie in between. */
  lemma StallIff(looks: seq<Look>, threshold: real)
    requires looks != [] && Timely(looks) && threshold >= 0.0
    ensures After(looks, threshold).1 <==> Stuck(looks, threshold)
  {
    var n := |looks| - 1;
    var past, look := looks[..n], looks[n];
    assert looks == past + [look];
    if look.Seen? {
      if AnySeen(past) {
        var i := DetectorRemembers(past, threshold);
        AnswerIff(After(past, threshold).0, past, look, i, threshold);
      } else {
        NeverSeen(past, threshold);
        FirstRemembers(After(past, threshold).0, past, look, threshold);
      }
    }
  }

  /** How many looks from position `start` on end a prefix that is stuck. */
  ghost function Stalls(looks: seq<Look>, threshold: real, start: nat): nat {
    if |looks| <= start then 0
    else Stalls(looks[..|looks| - 1], threshold, start) + if Stuck(looks, threshold) then 1 else 0
  }

  /** The streak counts the stalled looks of the current unchanged stretch, which begins at `i`. */
  lemma {:induction false} StreakCounts(looks: seq<Look>, threshold: real) returns (i: nat)
    requires Timely(looks) && AnySeen(looks) && threshold >= 0.0
    ensures Remembers(After(looks, threshold).0, looks, i)
    ensures After(looks, threshold).0.streak == Stalls(looks, threshold, i)
  {
    var n := |looks| - 1;
    var past, look := looks[..n], looks[n];
    assert looks == past + [look];
    StallIff(looks, threshold);
    if AnySeen(past) {
      var k := StreakCounts(past, threshold);
      StepRemembers(After(past, threshold).0, past, look, k, threshold);
      i := if Changes(past, look, k) then n else k;
    } else {
      NeverSeen(past, threshold);
      FirstRemembers(After(past, threshold).0, past, look, threshold);
      i := n;
    }
  }
}
