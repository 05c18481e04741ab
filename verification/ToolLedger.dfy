/** The part of a model turn that judges the tool calls it asked for: the detector of
    repeated calls and the tool-call budget. */
module ToolLedger {
  import opened Prelude

  type Fingerprint = string

  /** Fingerprints are kept for the most recent calls only. */
  const WINDOW: nat := 12

  datatype Limits = Limits(maxStuckRecoveries: U8, maxToolCalls: U32)

  datatype Ledger = Ledger(recent: seq<Fingerprint>, toolCalls: U64, stuckRecoveries: U8)

  const FRESH := Ledger([], 0, 0)

  datatype Judgement = Accepted | RecoverableStuck | StuckExhausted | OverToolBudget

  function Last(n: nat, s: seq<Fingerprint>): seq<Fingerprint> {
    if |s| > n then s[|s| - n..] else s
  }

  /** The last three calls are the same call. */
  predicate Repeated(s: seq<Fingerprint>) {
    |s| >= 3 && s[|s| - 3] == s[|s| - 2] == s[|s| - 1]
  }

  function Projected(toolCalls: U64, calls: nat): U64 {
    SatAddU64(toolCalls, Min(calls, U64_MAX))
  }

  /** The verdict on the calls of one turn, all of which enter the record. */
  function Judge(l: Ledger, limits: Limits, calls: seq<Fingerprint>): (Judgement, Ledger) {
    var noted := l.(recent := Last(WINDOW, l.recent + calls));
    if Repeated(noted.recent) then
      if l.stuckRecoveries >= limits.maxStuckRecoveries then (StuckExhausted, noted)
      else (RecoverableStuck, noted.(stuckRecoveries := Min(l.stuckRecoveries + 1, U8_MAX)))
    else if Projected(l.toolCalls, |calls|) > limits.maxToolCalls then (OverToolBudget, noted)
    else (Accepted, noted.(toolCalls := Projected(l.toolCalls, |calls|)))
  }

  // ---------------------------------------------------------------- chains of turns

  /** The ledger after a chain of turns that each asked for the given calls. */
  function LedgerAfter(limits: Limits, turns: seq<seq<Fingerprint>>): Ledger {
    if turns == [] then FRESH
    else Judge(LedgerAfter(limits, turns[..|turns| - 1]), limits, turns[|turns| - 1]).1
  }

  function JudgementOfLast(limits: Limits, turns: seq<seq<Fingerprint>>): Judgement
    requires turns != []
  {
    Judge(LedgerAfter(limits, turns[..|turns| - 1]), limits, turns[|turns| - 1]).0
  }

  /** Every call asked for, accepted or not. */
  function Requested(turns: seq<seq<Fingerprint>>): seq<Fingerprint> {
    if turns == [] then [] else Requested(turns[..|turns| - 1]) + turns[|turns| - 1]
  }

  /** The calls that were let through, in order. */
  function Executed(limits: Limits, turns: seq<seq<Fingerprint>>): seq<Fingerprint> {
    if turns == [] then []
    else if JudgementOfLast(limits, turns) == Accepted
    then Executed(limits, turns[..|turns| - 1]) + turns[|turns| - 1]
    else Executed(limits, turns[..|turns| - 1])
  }

  function Occurrences(limits: Limits, turns: seq<seq<Fingerprint>>, j: Judgement): nat {
    if turns == [] then 0
    else Occurrences(limits, turns[..|turns| - 1], j) + if JudgementOfLast(limits, turns) == j then 1 else 0
  }

  // ---------------------------------------------------------------- the window

  lemma LastOfLast(s: seq<Fingerprint>, calls: seq<Fingerprint>)
    ensures Last(WINDOW, Last(WINDOW, s) + calls) == Last(WINDOW, s + calls)
  {
  }

  /** Twelve remembered fingerprints decide as the whole history would. */
  lemma {:induction false} WindowDecidesAsHistory(limits: Limits, turns: seq<seq<Fingerprint>>)
    ensures LedgerAfter(limits, turns).recent == Last(WINDOW, Requested(turns))
    ensures turns != [] ==>
      (JudgementOfLast(limits, turns) in {RecoverableStuck, StuckExhausted} <==> Repeated(Requested(turns)))
  {
    if turns != [] {
      var n := |turns| - 1;
      WindowDecidesAsHistory(limits, turns[..n]);
      LastOfLast(Requested(turns[..n]), turns[n]);
    }
  }

  // ---------------------------------------------------------------- the budgets

  /** Calls let through are counted exactly and stay within the budget, and the recoveries
      granted are counted exactly and stay within theirs. */
  lemma {:induction false} BudgetsHold(limits: Limits, turns: seq<seq<Fingerprint>>)
    ensures LedgerAfter(limits, turns).toolCalls == |Executed(limits, turns)| <= limits.maxToolCalls
    ensures LedgerAfter(limits, turns).stuckRecoveries == Occurrences(limits, turns, RecoverableStuck)
    ensures Occurrences(limits, turns, RecoverableStuck) <= limits.maxStuckRecoveries
  {
    if turns != [] {
      BudgetsHold(limits, turns[..|turns| - 1]);
    }
  }

  // ---------------------------------------------------------------- repeated calls

  ghost predicate NoTriple(s: seq<Fingerprint>) {
    forall i :: 0 <= i < |s| - 2 ==> !(s[i] == s[i + 1] == s[i + 2])
  }

  ghost predicate AtMost(turns: seq<seq<Fingerprint>>, n: nat) {
    forall i :: 0 <= i < |turns| ==> 0 < |turns[i]| <= n
  }

  /** While the budget lasts, the record ends as the executed calls do. */
  ghost predicate InStep(l: Ledger, limits: Limits, executed: seq<Fingerprint>) {
    || l.toolCalls >= limits.maxToolCalls
    || (if executed == [] then l.recent == []
        else && l.recent != []
             && l.recent[|l.recent| - 1] == executed[|executed| - 1]
             && (|executed| >= 2 && executed[|executed| - 2] == executed[|executed| - 1] ==>
                   |l.recent| >= 2 && l.recent[|l.recent| - 2] == executed[|executed| - 1]))
  }

  lemma StepStaysInStep(l: Ledger, limits: Limits, executed: seq<Fingerprint>, call: Fingerprint)
    requires NoTriple(executed) && InStep(l, limits, executed)
    requires l.toolCalls <= limits.maxToolCalls
    ensures
      var (j, l') := Judge(l, limits, [call]);
      var executed' := if j == Accepted then executed + [call] else executed;
      NoTriple(executed') && InStep(l', limits, executed')
  {
  }

  lemma {:induction false} SingleCallsStayInStep(limits: Limits, turns: seq<seq<Fingerprint>>)
    requires AtMost(turns, 1)
    ensures NoTriple(Executed(limits, turns))
    ensures InStep(LedgerAfter(limits, turns), limits, Executed(limits, turns))
  {
    if turns != [] {
      var n := |turns| - 1;
      SingleCallsStayInStep(limits, turns[..n]);
      BudgetsHold(limits, turns[..n]);
      assert turns[n] == [turns[n][0]];
      StepStaysInStep(LedgerAfter(limits, turns[..n]), limits, Executed(limits, turns[..n]), turns[n][0]);
    }
  }

  /** With two calls a turn the detector can be passed: it looks at the end of a turn only. */
  lemma TwoCallsCanRepeat(a: Fingerprint, b: Fingerprint, limits: Limits)
    requires a != b && limits.maxToolCalls >= 4
    ensures Executed(limits, [[a, a], [a, b]]) == [a, a, a, b]
    ensures !NoTriple(Executed(limits, [[a, a], [a, b]]))
  {
    var one, two := [[a, a]], [[a, a], [a, b]];
    assert two[..1] == one && one[..0] == [];
    assert Judge(FRESH, limits, [a, a]) == (Accepted, Ledger([a, a], 2, 0)) by {
      assert [] + [a, a] == [a, a];
    }
    assert LedgerAfter(limits, one) == Ledger([a, a], 2, 0);
    assert [a, a] + [a, b] == [a, a, a, b];
    assert JudgementOfLast(limits, two) == Accepted;
    assert Executed(limits, one) == [a, a] by { assert JudgementOfLast(limits, one) == Accepted; }
    assert Executed(limits, two) == [a, a, a, b];
    assert Executed(limits, two)[0] == Executed(limits, two)[1] == Executed(limits, two)[2];
  }

  ghost predicate DetectorHolds(n: nat) {
    forall limits, turns :: AtMost(turns, n) ==> NoTriple(Executed(limits, turns))
  }

  /** The detector keeps every chain free of three equal consecutive executed calls exactly
      when turns ask for one call at a time. */
  lemma DetectorNeedsSingleCalls(n: nat)
    ensures DetectorHolds(n) <==> n <= 1
  {
    if n <= 1 {
      forall limits, turns | AtMost(turns, n) ensures NoTriple(Executed(limits, turns)) {
        assert AtMost(turns, 1);
        SingleCallsStayInStep(limits, turns);
      }
    } else {
      var turns := [["a", "a"], ["a", "b"]];
      assert "a" != "b";
      TwoCallsCanRepeat("a", "b", Limits(0, 4));
      assert AtMost(turns, n);
    }
  }
}
