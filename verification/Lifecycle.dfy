/** The document lifecycle: statuses, transition table and the decision functions over them. */
module Lifecycle {

  datatype Status = DRAFT | PENDING | PROCESSING | SENT | ACCEPTED | OBSERVED | REJECTED | VOIDED | ERROR

  datatype Options = Options(allowIdempotent: bool, hasVoidConfirmation: bool)

  const NO_OPTIONS := Options(false, false)
  const VOID_CONFIRMED := Options(false, true)

  datatype Verdict =
    | Allowed
    | SelfTransitionNotAuthorised
    | TerminalSource
    | NotVoidable
    | VoidNotConfirmed
    | NotInTable

  const TERMINAL_STATES: set<Status> := {REJECTED, VOIDED}
  const VOIDABLE_STATES: set<Status> := {ACCEPTED, OBSERVED}

  function AllowedTransitions(from: Status): set<Status> {
    match from
    case DRAFT => {PENDING}
    case PENDING => {PROCESSING}
    case PROCESSING => {SENT, ERROR}
    case SENT => {ACCEPTED, OBSERVED, REJECTED, ERROR}
    case ERROR => {PROCESSING}
    case ACCEPTED => {VOIDED}
    case OBSERVED => {VOIDED}
    case REJECTED => {}
    case VOIDED => {}
  }

  function EvaluateTransition(from: Status, to: Status, opts: Options): Verdict {
    if from == to then
      if opts.allowIdempotent then Allowed else SelfTransitionNotAuthorised
    else if from in TERMINAL_STATES then TerminalSource
    else if to == VOIDED then
      if from !in VOIDABLE_STATES then NotVoidable
      else if !opts.hasVoidConfirmation then VoidNotConfirmed
      else Allowed
    else if to in AllowedTransitions(from) then Allowed
    else NotInTable
  }

  predicate CanTransition(from: Status, to: Status, opts: Options) {
    EvaluateTransition(from, to, opts).Allowed?
  }

  const ALL_STATUSES: set<Status> :=
    {DRAFT, PENDING, PROCESSING, SENT, ACCEPTED, OBSERVED, REJECTED, VOIDED, ERROR}

  function GetAllowedNextStates(from: Status, opts: Options): set<Status> {
    set target | target in ALL_STATUSES
                 && (if target == from then opts.allowIdempotent else CanTransition(from, target, opts))
  }

  /** The order of the branches in EvaluateTransition does not matter: it decides exactly by the table,
      with the extra confirmation for VOIDED and the extra authorisation for self-loops. */
  lemma EvaluateFollowsTable(from: Status, to: Status, opts: Options)
    ensures CanTransition(from, to, opts) <==>
            if from == to then opts.allowIdempotent
            else to in AllowedTransitions(from) && (to == VOIDED ==> opts.hasVoidConfirmation)
    ensures to in GetAllowedNextStates(from, opts) <==> CanTransition(from, to, opts)
    ensures from != to ==>
              (CanTransition(from, to, opts) <==>
                 || (from, to) in {(DRAFT, PENDING), (PENDING, PROCESSING), (PROCESSING, SENT), (PROCESSING, ERROR),
                                   (SENT, ACCEPTED), (SENT, OBSERVED), (SENT, REJECTED), (SENT, ERROR),
                                   (ERROR, PROCESSING)}
                 || (opts.hasVoidConfirmation && (from, to) in {(ACCEPTED, VOIDED), (OBSERVED, VOIDED)}))
  {
    assert to in ALL_STATUSES by {
      match to { case DRAFT => case PENDING => case PROCESSING => case SENT => case ACCEPTED =>
                 case OBSERVED => case REJECTED => case VOIDED => case ERROR => }
    }
  }

  /** A committed write from one status to the next: a self-loop or an edge of the table. */
  predicate Step(from: Status, to: Status) {
    from == to || to in AllowedTransitions(from)
  }

  predicate Path(p: seq<Status>) {
    forall i :: 0 < i < |p| ==> Step(p[i - 1], p[i])
  }

  /** Over any number of steps: a terminal status is never left, and VOIDED is reached only through
      ACCEPTED or OBSERVED (or was there from the start). */
  lemma {:induction false} PathsRespectTerminals(p: seq<Status>, i: nat, j: nat)
    requires Path(p) && i <= j < |p|
    ensures p[i] == REJECTED || p[i] == VOIDED ==> p[j] == p[i]
    ensures p[j] == VOIDED && p[i] != VOIDED ==> exists k :: i <= k < j && (p[k] == ACCEPTED || p[k] == OBSERVED)
    decreases j - i
  {
    if i < j {
      PathsRespectTerminals(p, i + 1, j);
      assert Step(p[i + 1 - 1], p[i + 1]);
      if p[j] == VOIDED && p[i] != VOIDED && p[i + 1] == VOIDED {
        assert p[i] == ACCEPTED || p[i] == OBSERVED;
      }
    }
  }
}
