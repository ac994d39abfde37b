/** What the first account slot of a session proves about its resume seam (src/resume.rs). */
module Resume {
  import opened Wrappers

  const RESUME_TOLERANCE_SLOTS: nat := 600

  datatype ResumeVerdict =
    | NotApplicable
    | Clean(drift: nat)
    | Gap(startSlot: nat, endSlot: nat, missed: nat)

  function ClassifyResume(resumeFrom: Option<nat>, firstAccountSlot: nat): ResumeVerdict {
    match resumeFrom
    case None => NotApplicable
    case Some(from) =>
      if firstAccountSlot <= from then Clean(0)
      else
        var drift := firstAccountSlot - from;
        if drift <= RESUME_TOLERANCE_SLOTS then Clean(drift)
        else Gap(from, firstAccountSlot, drift - 1)
  }

  /** The slots strictly between two bounds. */
  function Between(lo: nat, hi: nat): (r: set<nat>)
    ensures forall s :: s in r <==> lo < s < hi
    decreases hi
  {
    if hi <= lo + 1 then {} else Between(lo, hi - 1) + {hi - 1}
  }

  lemma {:induction false} BetweenCount(lo: nat, hi: nat)
    ensures |Between(lo, hi)| == if lo < hi then hi - lo - 1 else 0
    decreases hi
  {
    if hi > lo + 1 { BetweenCount(lo, hi - 1); }
  }

  /**
  A gap is reported exactly when at least 600 whole slots lie between the
  checkpoint and the first slot served; the bounds are the two held slots
  around them and `missed` is their number.
   */
  lemma VerdictExact(resumeFrom: Option<nat>, first: nat, missed: nat)
    ensures (resumeFrom.Some? && ClassifyResume(resumeFrom, first) == Gap(resumeFrom.value, first, missed))
      <==> resumeFrom.Some? && |Between(resumeFrom.value, first)| == missed && missed >= RESUME_TOLERANCE_SLOTS
    ensures ClassifyResume(resumeFrom, first).Gap?
      ==> resumeFrom.Some? && ClassifyResume(resumeFrom, first) == Gap(resumeFrom.value, first, |Between(resumeFrom.value, first)|)
  {
    if resumeFrom.Some? { BetweenCount(resumeFrom.value, first); }
  }
}
