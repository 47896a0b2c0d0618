/** The resource-budget decision of `check_budget`: continue, degrade to the next
    cheaper mode, or stop, from the elapsed time, the total budget, the current
    mode, strictness and the trigger ratio. Times and ratios are exact reals. */
module Budget {
  import opened Common

  /** `DEGRADATION_ORDER`: from the most to the least expensive mode. */
  const DegradationOrder: seq<string> := ["deep", "standard", "quick"]

  datatype Action = Continue | Degrade | Stop

  /** `elapsed / total_budget`, or `float("inf")` for a budget that is not positive. */
  datatype Ratio = Infinite | Finite(value: real)

  /** Which of the `reason` texts the decision carries. */
  datatype Reason =
    | InvalidBudget
    | StrictExceeded
    | WithinStrict
    | UnknownMode(mode: string)
    | Triggered
    | AlreadyQuick
    | WithinBudget

  datatype Decision = Decision(action: Action, ratio: Ratio, degradeTo: Option<string>, reason: Reason)

  /** Python `DEGRADATION_ORDER.index(mode)`, or `None` where it raises `ValueError`. */
  function ModeIndex(mode: string): (r: Option<nat>)
    ensures r.Some? ==> r.value < |DegradationOrder| && DegradationOrder[r.value] == mode
    ensures r.None? <==> mode !in DegradationOrder
  {
    if mode == "deep" then Some(0)
    else if mode == "standard" then Some(1)
    else if mode == "quick" then Some(2)
    else None
  }

  /** `check_budget`; `CheckBudgetCases` and the lemmas after it state what it decides. */
  function CheckBudget(elapsed: real, totalBudget: real, currentMode: string, strict: bool, triggerRatio: real): (d: Decision)
    ensures d.degradeTo.Some? <==> d.action == Degrade
    ensures d.degradeTo.Some? ==> d.degradeTo.value in DegradationOrder
  {
    if totalBudget <= 0.0 then Decision(Stop, Infinite, None, InvalidBudget)
    else
      var ratio := elapsed / totalBudget;
      if strict then
        if ratio >= 1.0 then Decision(Stop, Finite(ratio), None, StrictExceeded)
        else Decision(Continue, Finite(ratio), None, WithinStrict)
      else if ratio >= triggerRatio then
        match ModeIndex(currentMode)
        case None => Decision(Stop, Finite(ratio), None, UnknownMode(currentMode))
        case Some(idx) =>
          if idx < |DegradationOrder| - 1 then Decision(Degrade, Finite(ratio), Some(DegradationOrder[idx + 1]), Triggered)
          else Decision(Stop, Finite(ratio), None, AlreadyQuick)
      else Decision(Continue, Finite(ratio), None, WithinBudget)
  }

  /** The mode right after `mode` in the degradation order, if there is one. */
  function NextMode(mode: string): (r: Option<string>)
    ensures r.Some? <==> mode in DegradationOrder[..|DegradationOrder| - 1]
  {
    match ModeIndex(mode)
    case Some(i) => if i + 1 < |DegradationOrder| then Some(DegradationOrder[i + 1]) else None
    case None => None
  }

  /** Every case of the decision, as a function of the ratio and the mode. */
  lemma CheckBudgetCases(elapsed: real, totalBudget: real, currentMode: string, strict: bool, triggerRatio: real)
    ensures var d := CheckBudget(elapsed, totalBudget, currentMode, strict, triggerRatio);
      && (totalBudget <= 0.0 ==> d.action == Stop && d.degradeTo == None && d.ratio == Infinite)
      && (totalBudget > 0.0 ==> d.ratio == Finite(elapsed / totalBudget))
      && (totalBudget > 0.0 && strict ==> (d.action == Stop <==> elapsed / totalBudget >= 1.0))
      && (totalBudget > 0.0 && strict ==> d.action != Degrade)
      && (totalBudget > 0.0 && !strict && elapsed / totalBudget < triggerRatio ==> d.action == Continue)
      && (totalBudget > 0.0 && !strict && elapsed / totalBudget >= triggerRatio ==>
            (d.action == Degrade <==> NextMode(currentMode).Some?)
            && (d.action != Degrade ==> d.action == Stop)
            && d.degradeTo == NextMode(currentMode))
  {
  }

  /** The two degradations the order allows, and the modes that stop instead. */
  lemma DegradationSteps(elapsed: real, totalBudget: real, strict: bool, triggerRatio: real, mode: string)
    requires totalBudget > 0.0 && !strict && elapsed / totalBudget >= triggerRatio
    ensures CheckBudget(elapsed, totalBudget, "deep", strict, triggerRatio).degradeTo == Some("standard")
    ensures CheckBudget(elapsed, totalBudget, "standard", strict, triggerRatio).degradeTo == Some("quick")
    ensures CheckBudget(elapsed, totalBudget, "quick", strict, triggerRatio).action == Stop
    ensures mode !in DegradationOrder ==> CheckBudget(elapsed, totalBudget, mode, strict, triggerRatio).action == Stop
  {
  }

  /** Degrading always moves to a strictly cheaper mode, so at most two degradations can follow each other. */
  lemma DegradeMovesDown(elapsed: real, totalBudget: real, mode: string, strict: bool, triggerRatio: real)
    ensures var d := CheckBudget(elapsed, totalBudget, mode, strict, triggerRatio);
      d.action == Degrade ==>
        ModeIndex(mode).Some? && ModeIndex(d.degradeTo.value).Some?
        && ModeIndex(d.degradeTo.value).value == ModeIndex(mode).value + 1
  {
  }

  /** More elapsed time never turns a stop into a continue or a degrade with the other inputs fixed,
      and never turns a degrade into a continue. */
  lemma MoreTimeNoLenient(e1: real, e2: real, totalBudget: real, mode: string, strict: bool, triggerRatio: real)
    requires e1 <= e2
    ensures var d1, d2 := CheckBudget(e1, totalBudget, mode, strict, triggerRatio), CheckBudget(e2, totalBudget, mode, strict, triggerRatio);
      && (d1.action == Stop ==> d2.action == Stop)
      && (d1.action == Degrade ==> d2.action == Degrade)
  {
    if totalBudget > 0.0 {
      DivMonotone(e1, e2, totalBudget);
    }
  }

  lemma DivMonotone(a: real, b: real, c: real)
    requires a <= b && c > 0.0
    ensures a / c <= b / c
  {
    assert b / c - a / c == (b - a) / c;
  }
}
