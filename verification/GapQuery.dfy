/**
Holes derived from the data (src/bin/coldquery.rs, `GAPS_SQL`), and how far the
live detector agrees with them. The order of the result rows is not modelled.
 */
module GapQuery {
  import opened Wrappers
  import opened Resume

  datatype Hole = Hole(startSlot: nat, endSlot: nat, slotsMissed: nat)

  // -------------------------------------------------------------- the query

  function InsertSlot(sorted: seq<nat>, slot: nat): seq<nat> {
    if sorted == [] then [slot]
    else if slot < sorted[0] then [slot] + sorted
    else if slot == sorted[0] then sorted
    else [sorted[0]] + InsertSlot(sorted[1..], slot)
  }

  /** `SELECT DISTINCT slot`, in slot order. */
  function Observed(slots: seq<nat>): seq<nat> {
    if slots == [] then [] else InsertSlot(Observed(slots[..|slots| - 1]), slots[|slots| - 1])
  }

  /** `lag(slot) OVER (ORDER BY slot)`, kept where more than `threshold` slots lie between. */
  function Stepped(observed: seq<nat>, threshold: nat): seq<Hole> {
    if |observed| < 2 then []
    else
      var n := |observed| - 1;
      var prev, slot := observed[n - 1], observed[n];
      Stepped(observed[..n], threshold)
      + (if slot > prev && slot - prev - 1 > threshold then [Hole(prev, slot, slot - prev - 1)] else [])
  }

  function Gaps(slots: seq<nat>, threshold: nat): seq<Hole> {
    Stepped(Observed(slots), threshold)
  }

  // ---------------------------------------------------- sorted and distinct

  ghost predicate Increasing(s: seq<nat>) {
    forall i, j :: 0 <= i < j < |s| ==> s[i] < s[j]
  }

  lemma {:induction false} InsertSlotKeepsOrder(sorted: seq<nat>, slot: nat)
    requires Increasing(sorted)
    ensures Increasing(InsertSlot(sorted, slot))
    ensures forall x :: x in InsertSlot(sorted, slot) <==> x in sorted || x == slot
  {
    if sorted != [] && slot > sorted[0] {
      InsertSlotKeepsOrder(sorted[1..], slot);
      var rest := InsertSlot(sorted[1..], slot);
      forall j | 0 <= j < |rest|
        ensures sorted[0] < rest[j]
      {
        assert rest[j] in rest;
      }
      assert forall x :: x in sorted <==> x == sorted[0] || x in sorted[1..];
    }
  }

  lemma {:induction false} ObservedExact(slots: seq<nat>)
    ensures Increasing(Observed(slots))
    ensures forall x :: x in Observed(slots) <==> x in slots
  {
    if slots != [] {
      ObservedExact(slots[..|slots| - 1]);
      InsertSlotKeepsOrder(Observed(slots[..|slots| - 1]), slots[|slots| - 1]);
    }
  }

  predicate IsStep(s: seq<nat>, threshold: nat, h: Hole, i: nat) {
    0 < i < |s| && s[i - 1] == h.startSlot && s[i] == h.endSlot && h.startSlot < h.endSlot
    && h.slotsMissed == h.endSlot - h.startSlot - 1 && h.slotsMissed > threshold
  }

  lemma {:induction false} SteppedExact(s: seq<nat>, threshold: nat, h: Hole)
    ensures h in Stepped(s, threshold) <==> exists i: nat :: IsStep(s, threshold, h, i)
  {
    if |s| >= 2 {
      var n := |s| - 1;
      SteppedExact(s[..n], threshold, h);
      SteppedLast(s, threshold, h);
      forall i: nat | IsStep(s[..n], threshold, h, i)
        ensures IsStep(s, threshold, h, i)
      {
      }
      forall i: nat | IsStep(s, threshold, h, i) && i < n
        ensures IsStep(s[..n], threshold, h, i)
      {
      }
    }
  }

  lemma SteppedLast(s: seq<nat>, threshold: nat, h: Hole)
    requires |s| >= 2
    ensures h in Stepped(s, threshold) <==> h in Stepped(s[..|s| - 1], threshold) || IsStep(s, threshold, h, |s| - 1)
  {
  }

  // ------------------------------------------------------- what it returns

  /** Two observed slots with nothing observed between them. */
  ghost predicate Adjacent(slots: seq<nat>, lo: nat, hi: nat) {
    lo in slots && hi in slots && lo < hi && forall x :: x in slots ==> x <= lo || hi <= x
  }

  /**
  The query returns exactly the maximal unobserved runs longer than the threshold
  between observed slots, each with its length.
   */
  lemma GapsExact(slots: seq<nat>, threshold: nat, h: Hole)
    ensures h in Gaps(slots, threshold) <==>
      Adjacent(slots, h.startSlot, h.endSlot) && h.slotsMissed == h.endSlot - h.startSlot - 1 && h.slotsMissed > threshold
  {
    var s := Observed(slots);
    ObservedExact(slots);
    SteppedExact(s, threshold, h);
    if h in Gaps(slots, threshold) {
      var i: nat :| IsStep(s, threshold, h, i);
      StepIsAdjacent(s, i);
    }
    if Adjacent(slots, h.startSlot, h.endSlot) {
      var i := AdjacentIsStep(s, h.startSlot, h.endSlot);
      assert h.slotsMissed == h.endSlot - h.startSlot - 1 && h.slotsMissed > threshold ==> IsStep(s, threshold, h, i);
    }
  }

  lemma StepIsAdjacent(s: seq<nat>, i: nat)
    requires Increasing(s) && 0 < i < |s|
    ensures Adjacent(s, s[i - 1], s[i])
  {
    forall x | x in s
      ensures x <= s[i - 1] || s[i] <= x
    {
      var j :| 0 <= j < |s| && s[j] == x;
    }
  }

  lemma AdjacentIsStep(s: seq<nat>, lo: nat, hi: nat) returns (i: nat)
    requires Increasing(s) && Adjacent(s, lo, hi)
    ensures 0 < i < |s| && s[i - 1] == lo && s[i] == hi
  {
    i :| 0 <= i < |s| && s[i] == hi;
    var j :| 0 <= j < |s| && s[j] == lo;
    assert s[i - 1] in s;
  }

  /** Two different holes never overlap. */
  lemma GapsDisjoint(slots: seq<nat>, threshold: nat, g: Hole, h: Hole)
    requires g in Gaps(slots, threshold) && h in Gaps(slots, threshold) && g != h
    ensures g.endSlot <= h.startSlot || h.endSlot <= g.startSlot
  {
    GapsExact(slots, threshold, g);
    GapsExact(slots, threshold, h);
  }

  function TotalMissed(holes: seq<Hole>): nat {
    if holes == [] then 0 else TotalMissed(holes[..|holes| - 1]) + holes[|holes| - 1].slotsMissed
  }

  lemma TotalSnoc(holes: seq<Hole>, h: Hole)
    ensures TotalMissed(holes + [h]) == TotalMissed(holes) + h.slotsMissed
  {
    assert (holes + [h])[..|holes|] == holes;
  }

  lemma {:induction false} SteppedConserves(s: seq<nat>)
    requires Increasing(s) && s != []
    ensures TotalMissed(Stepped(s, 0)) + |s| == s[|s| - 1] - s[0] + 1
  {
    if |s| >= 2 {
      var n := |s| - 1;
      SteppedConserves(s[..n]);
      TotalSnoc(Stepped(s[..n], 0), Hole(s[n - 1], s[n], s[n] - s[n - 1] - 1));
      assert Stepped(s[..n], 0) + [] == Stepped(s[..n], 0);
    }
  }

  /** With threshold zero nothing is lost or counted twice: missed and observed slots tile the span. */
  lemma MissedAndObservedTile(slots: seq<nat>, lo: nat, hi: nat)
    requires lo in slots && hi in slots && forall x :: x in slots ==> lo <= x <= hi
    ensures TotalMissed(Gaps(slots, 0)) + |Members(slots)| == hi - lo + 1
  {
    var s := Observed(slots);
    ObservedExact(slots);
    var i :| 0 <= i < |s| && s[i] == lo;
    var j :| 0 <= j < |s| && s[j] == hi;
    assert s[0] in s && s[|s| - 1] in s;
    assert s[0] == lo && s[|s| - 1] == hi;
    SteppedConserves(s);
    CountIncreasing(s);
    assert Members(s) == Members(slots);
  }

  function Members(s: seq<nat>): (r: set<nat>)
    ensures forall x :: x in r <==> x in s
  {
    set x | x in s
  }

  lemma {:induction false} CountIncreasing(s: seq<nat>)
    requires Increasing(s)
    ensures |Members(s)| == |s|
  {
    if s == [] {
      assert Members(s) == {};
    } else {
      var front, last := s[..|s| - 1], s[|s| - 1];
      CountIncreasing(front);
      assert Members(s) == Members(front) + {last};
    }
  }

  // ------------------------------------------------- against the live verdict

  /**
  Both detectors share one constant but measure different things with it: the
  live one the drift, the query the slots strictly between. For adjacent stored
  slots they report the same hole, or both none, at every distance except 601.
   */
  lemma DetectorsAgreeExcept601(slots: seq<nat>, prev: nat, slot: nat)
    requires Adjacent(slots, prev, slot)
    ensures (forall missed: nat ::
               ClassifyResume(Some(prev), slot) == Gap(prev, slot, missed) <==> Hole(prev, slot, missed) in Gaps(slots, RESUME_TOLERANCE_SLOTS))
      <==> slot - prev != RESUME_TOLERANCE_SLOTS + 1
  {
    forall missed: nat
      ensures Hole(prev, slot, missed) in Gaps(slots, RESUME_TOLERANCE_SLOTS)
        <==> missed == slot - prev - 1 && missed > RESUME_TOLERANCE_SLOTS
    {
      GapsExact(slots, RESUME_TOLERANCE_SLOTS, Hole(prev, slot, missed));
    }
    if slot - prev == RESUME_TOLERANCE_SLOTS + 1 {
      assert ClassifyResume(Some(prev), slot) == Gap(prev, slot, RESUME_TOLERANCE_SLOTS);
    }
  }
}
