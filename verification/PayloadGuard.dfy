/** The payload-shape guard (src/payload.rs). */
module PayloadGuard {
  import opened Wrappers

  datatype PayloadShape = Sound | Closed | ImpossibleEmpty

  function ClassifyPayload(lamports: nat, dataLen: nat): PayloadShape {
    if dataLen > 0 then Sound else if lamports == 0 then Closed else ImpossibleEmpty
  }

  const REPEAT_EVERY: nat := 500

  datatype GuardAction = Quiet | AlarmFirst | AlarmRepeat(total: nat)

  /** One account update, as far as the guard looks at it. */
  datatype Seen = Seen(slot: nat, lamports: nat, dataLen: nat)

  // ---------------------------------------------------- what has been seen

  /** Funded, and yet empty. */
  predicate IsFault(o: Seen) {
    o.lamports > 0 && o.dataLen == 0
  }

  /** Empty and drained: an ordinary closure. */
  predicate IsClosure(o: Seen) {
    o.lamports == 0 && o.dataLen == 0
  }

  /** The slots of the impossible payloads, in order of arrival. */
  function Faults(seen: seq<Seen>): seq<nat> {
    if seen == [] then []
    else
      var rest := Faults(seen[..|seen| - 1]);
      if IsFault(seen[|seen| - 1]) then rest + [seen[|seen| - 1].slot] else rest
  }

  function Closures(seen: seq<Seen>): nat {
    if seen == [] then 0
    else Closures(seen[..|seen| - 1]) + (if IsClosure(seen[|seen| - 1]) then 1 else 0)
  }

  /** What the log says about the last update of a history. */
  function ActionOn(seen: seq<Seen>): GuardAction
    requires seen != []
  {
    var n := |Faults(seen)|;
    if !IsFault(seen[|seen| - 1]) then Quiet
    else if n == 1 then AlarmFirst
    else if n % REPEAT_EVERY == 0 then AlarmRepeat(n)
    else Quiet
  }

  lemma FaultsSnoc(seen: seq<Seen>, o: Seen)
    ensures Faults(seen + [o]) == if IsFault(o) then Faults(seen) + [o.slot] else Faults(seen)
    ensures Closures(seen + [o]) == Closures(seen) + (if IsClosure(o) then 1 else 0)
  {
    assert (seen + [o])[..|seen|] == seen;
  }

  /** The tally, cumulative across reconnects. */
  class Guard {
    var impossible: nat
    var closed: nat
    var firstSlot: Option<nat>
    var lastSlot: Option<nat>
    ghost var seen: seq<Seen>

    constructor ()
      ensures Valid() && seen == []
    {
      impossible, closed, firstSlot, lastSlot := 0, 0, None, None;
      seen := [];
    }

    ghost predicate Valid()
      reads this
    {
      var faults := Faults(seen);
      && impossible == |faults| && closed == Closures(seen)
      && firstSlot == (if faults == [] then None else Some(faults[0]))
      && lastSlot == (if faults == [] then None else Some(faults[|faults| - 1]))
    }

    method Observe(slot: nat, lamports: nat, dataLen: nat) returns (action: GuardAction)
      requires Valid()
      modifies this
      ensures Valid() && seen == old(seen) + [Seen(slot, lamports, dataLen)]
      ensures action == ActionOn(seen)
    {
      FaultsSnoc(seen, Seen(slot, lamports, dataLen));
      seen := seen + [Seen(slot, lamports, dataLen)];
      match ClassifyPayload(lamports, dataLen)
      case Sound =>
        action := Quiet;
      case Closed =>
        closed := closed + 1;
        action := Quiet;
      case ImpossibleEmpty =>
        impossible := impossible + 1;
        if firstSlot.None? { firstSlot := Some(slot); }
        lastSlot := Some(slot);
        if impossible == 1 {
          action := AlarmFirst;
        } else if impossible % REPEAT_EVERY == 0 {
          action := AlarmRepeat(impossible);
        } else {
          action := Quiet;
        }
    }

    /** The slot range over which impossible payloads were seen, if any. */
    method ImpossibleSpan() returns (span: Option<(nat, nat)>)
      requires Valid()
      ensures span == Span(Faults(seen))
    {
      if firstSlot.Some? && lastSlot.Some? { return Some((firstSlot.value, lastSlot.value)); }
      span := None;
    }
  }

  // ------------------------------------------------------------ the alarms

  /** The log of a whole session. */
  function Actions(seen: seq<Seen>): seq<GuardAction> {
    if seen == [] then [] else Actions(seen[..|seen| - 1]) + [ActionOn(seen)]
  }

  function Firsts(log: seq<GuardAction>): nat {
    if log == [] then 0 else Firsts(log[..|log| - 1]) + (if log[|log| - 1].AlarmFirst? then 1 else 0)
  }

  /** The totals the repeated alarms carry, in order. */
  function Repeats(log: seq<GuardAction>): seq<nat> {
    if log == [] then []
    else
      var rest := Repeats(log[..|log| - 1]);
      if log[|log| - 1].AlarmRepeat? then rest + [log[|log| - 1].total] else rest
  }

  lemma LogSnoc(log: seq<GuardAction>, a: GuardAction)
    ensures Firsts(log + [a]) == Firsts(log) + (if a.AlarmFirst? then 1 else 0)
    ensures Repeats(log + [a]) == if a.AlarmRepeat? then Repeats(log) + [a.total] else Repeats(log)
  {
    assert (log + [a])[..|log|] == log;
  }

  lemma CountUp(n: nat)
    ensures (n + 1) / REPEAT_EVERY == n / REPEAT_EVERY + (if (n + 1) % REPEAT_EVERY == 0 then 1 else 0)
    ensures (n + 1) % REPEAT_EVERY == 0 ==> n + 1 == REPEAT_EVERY * (n / REPEAT_EVERY + 1) && n > 0
  {
  }

  lemma ActionIs(seen: seq<Seen>)
    requires seen != []
    ensures var n := |Faults(seen[..|seen| - 1])|; var a := ActionOn(seen);
      if IsFault(seen[|seen| - 1])
      then (a.AlarmFirst? <==> n == 0) && (a.AlarmRepeat? <==> (n + 1) % REPEAT_EVERY == 0) && (a.AlarmRepeat? ==> a.total == n + 1)
      else a == Quiet
  {
  }

  /**
  Never silent, never a flood: after any session with n impossible payloads the
  first one was announced, and every 500th since, each with its running total.
   */
  lemma {:induction false} AlarmsExact(seen: seq<Seen>)
    ensures var n := |Faults(seen)|; var log := Actions(seen);
      && Firsts(log) == (if n == 0 then 0 else 1)
      && |Repeats(log)| == n / REPEAT_EVERY
      && forall k :: 0 <= k < |Repeats(log)| ==> Repeats(log)[k] == REPEAT_EVERY * (k + 1)
  {
    if seen != [] {
      var front := seen[..|seen| - 1];
      hide ActionOn, IsFault, Firsts, Repeats;
      AlarmsExact(front);
      ActionIs(seen);
      LogSnoc(Actions(front), ActionOn(seen));
      CountUp(|Faults(front)|);
    }
  }

  /** The first alarm is the first thing the log says, and it says it at the first fault. */
  lemma FirstFaultIsAnnounced(seen: seq<Seen>, i: nat)
    requires i < |seen| && IsFault(seen[i]) && forall j :: 0 <= j < i ==> !IsFault(seen[j])
    ensures ActionOn(seen[..i + 1]) == AlarmFirst
    ensures forall m: nat :: 0 < m <= i ==> ActionOn(seen[..m]) == Quiet
  {
    NoFaults(seen[..i]);
    FaultsSnoc(seen[..i], seen[i]);
    assert seen[..i] + [seen[i]] == seen[..i + 1];
    forall m: nat | 0 < m <= i
      ensures ActionOn(seen[..m]) == Quiet
    {
      assert seen[..m][m - 1] == seen[m - 1];
    }
  }

  lemma {:induction false} NoFaults(seen: seq<Seen>)
    requires forall j :: 0 <= j < |seen| ==> !IsFault(seen[j])
    ensures Faults(seen) == []
  {
    if seen != [] { NoFaults(seen[..|seen| - 1]); }
  }

  // -------------------------------------------------------------- the span

  function Span(faults: seq<nat>): Option<(nat, nat)> {
    if faults == [] then None else Some((faults[0], faults[|faults| - 1]))
  }

  ghost predicate Brackets(faults: seq<nat>) {
    faults != [] ==> forall i :: 0 <= i < |faults| ==> Span(faults).value.0 <= faults[i] <= Span(faults).value.1
  }

  ghost predicate Nondecreasing(s: seq<nat>) {
    forall i, j :: 0 <= i <= j < |s| ==> s[i] <= s[j]
  }

  /** The span brackets every fault, at every moment of a session, exactly when fault slots never go back. */
  lemma SpanBracketsExact(faults: seq<nat>)
    ensures (forall n: nat :: n <= |faults| ==> Brackets(faults[..n])) <==> Nondecreasing(faults)
  {
    if forall n: nat :: n <= |faults| ==> Brackets(faults[..n]) {
      forall i, j | 0 <= i <= j < |faults|
        ensures faults[i] <= faults[j]
      {
        assert Brackets(faults[..j + 1]);
        assert faults[..j + 1][i] == faults[i] && faults[..j + 1][j] == faults[j];
      }
    }
  }

  /** Updates in slot order give fault slots in order. */
  lemma {:induction false} OrderedFaults(seen: seq<Seen>)
    requires forall i, j :: 0 <= i <= j < |seen| ==> seen[i].slot <= seen[j].slot
    ensures Nondecreasing(Faults(seen))
    ensures forall i :: 0 <= i < |Faults(seen)| ==> Faults(seen)[i] <= seen[|seen| - 1].slot
  {
    if seen != [] {
      OrderedFaults(seen[..|seen| - 1]);
    }
  }

  /** A replay after a reconnect goes back: two faults can leave a span that holds neither the way round it is printed. */
  lemma ReplayBreaksSpan()
    ensures var seen := [Seen(7, 1, 0), Seen(5, 1, 0)]; Span(Faults(seen)) == Some((7, 5)) && !Brackets(Faults(seen))
  {
    var a, b := Seen(7, 1, 0), Seen(5, 1, 0);
    FaultsSnoc([], a);
    FaultsSnoc([a], b);
    assert [] + [a] == [a] && [a] + [b] == [a, b];
    assert Faults([a, b])[0] == 7;
  }
}
