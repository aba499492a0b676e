/**
 The verification state machine: the 18-row guarded transition table, the
 `apply` protocol around it, and the handler that audits and notifies.

 `Step` gives the meaning of one call on values; class `StateMachine` is the
 object the program uses, and its methods are proved against `Step`.
 */
module VerificationStateMachine {
  import opened Common

  datatype Status =
    | NotStarted | Initiated | DocumentsPending | DocumentsReceived
    | InProgress | CallbackAwaited | Verified | Rejected
    | Escalated | Expired | ReverificationRequired | Suspended

  datatype Event =
    | KycInitiated | DocsRequested | DocUploaded | Timer48h | VerifyStart | VendorAsync
    | CallbackReceived | Timer72h | StepPassed | AllPassed | StepFailed | StepRetry
    | RiskElevated | RiskChanged | RegUpdate | ReverifyInit | ComplianceFreeze | ComplianceLift

  /** Every field is optional in the program; a missing flag behaves as false. */
  datatype GuardContext = GuardContext(
    nameonly validCustomerAndTierAssigned: bool := false,
    nameonly workflowHasDocumentSteps: bool := false,
    nameonly documentValidNotExpired: bool := false,
    nameonly hoursSinceDocumentRequest: Option<real> := None,
    nameonly allRequiredDocumentsPresent: bool := false,
    nameonly isAsyncVendorStep: bool := false,
    nameonly webhookSignatureValid: bool := false,
    nameonly hoursSinceVendorCall: Option<real> := None,
    nameonly moreStepsRemain: bool := false,
    nameonly allStepsPassed: bool := false,
    nameonly stepFailureNonRecoverable: bool := false,
    nameonly retriesRemaining: bool := false,
    nameonly riskScoreExceedsEddThreshold: bool := false,
    nameonly reVerificationTriggered: bool := false,
    nameonly newRegulatoryRequirement: bool := false,
    nameonly withinGracePeriod: bool := false,
    nameonly hasLegalOrRegulatoryOrder: bool := false,
    nameonly freezeOrderLifted: bool := false)

  /** A row: `from == None` is the table's 'ANY'; `to == None` is its PREVIOUS_STATE sentinel. */
  datatype Transition = Transition(event: Event, from: Option<Status>, to: Option<Status>)

  const ANY: Option<Status> := None
  const PREVIOUS_STATE: Option<Status> := None

  function HoursOr0(hours: Option<real>): real {
    if hours.Some? then hours.value else 0.0
  }

  function Definition(e: Event): (t: Transition)
    ensures t.event == e
  {
    match e
    case KycInitiated => Transition(e, Some(NotStarted), Some(Initiated))
    case DocsRequested => Transition(e, Some(Initiated), Some(DocumentsPending))
    case DocUploaded => Transition(e, Some(DocumentsPending), Some(DocumentsReceived))
    case Timer48h => Transition(e, Some(DocumentsPending), Some(Expired))
    case VerifyStart => Transition(e, Some(DocumentsReceived), Some(InProgress))
    case VendorAsync => Transition(e, Some(InProgress), Some(CallbackAwaited))
    case CallbackReceived => Transition(e, Some(CallbackAwaited), Some(InProgress))
    case Timer72h => Transition(e, Some(CallbackAwaited), Some(Escalated))
    case StepPassed => Transition(e, Some(InProgress), Some(InProgress))
    case AllPassed => Transition(e, Some(InProgress), Some(Verified))
    case StepFailed => Transition(e, Some(InProgress), Some(Rejected))
    case StepRetry => Transition(e, Some(InProgress), Some(InProgress))
    case RiskElevated => Transition(e, Some(InProgress), Some(Escalated))
    case RiskChanged => Transition(e, Some(Verified), Some(ReverificationRequired))
    case RegUpdate => Transition(e, Some(Verified), Some(ReverificationRequired))
    case ReverifyInit => Transition(e, Some(ReverificationRequired), Some(Initiated))
    case ComplianceFreeze => Transition(e, ANY, Some(Suspended))
    case ComplianceLift => Transition(e, Some(Suspended), PREVIOUS_STATE)
  }

  /** The guard column: each reads only the fields its event is about. */
  predicate Guard(e: Event, c: GuardContext) {
    match e
    case KycInitiated => c.validCustomerAndTierAssigned
    case DocsRequested => c.workflowHasDocumentSteps
    case DocUploaded => c.documentValidNotExpired
    case Timer48h => HoursOr0(c.hoursSinceDocumentRequest) >= 48.0
    case VerifyStart => c.allRequiredDocumentsPresent
    case VendorAsync => c.isAsyncVendorStep
    case CallbackReceived => c.webhookSignatureValid
    case Timer72h => HoursOr0(c.hoursSinceVendorCall) >= 72.0
    case StepPassed => c.moreStepsRemain
    case AllPassed => c.allStepsPassed
    case StepFailed => c.stepFailureNonRecoverable
    case StepRetry => c.retriesRemaining
    case RiskElevated => c.riskScoreExceedsEddThreshold
    case RiskChanged => c.reVerificationTriggered
    case RegUpdate => c.newRegulatoryRequirement
    case ReverifyInit => c.withinGracePeriod
    case ComplianceFreeze => c.hasLegalOrRegulatoryOrder
    case ComplianceLift => c.freezeOrderLifted
  }

  /** The table as written, row by row. */
  const TRANSITIONS: seq<Transition> := [
    Transition(KycInitiated, Some(NotStarted), Some(Initiated)),
    Transition(DocsRequested, Some(Initiated), Some(DocumentsPending)),
    Transition(DocUploaded, Some(DocumentsPending), Some(DocumentsReceived)),
    Transition(Timer48h, Some(DocumentsPending), Some(Expired)),
    Transition(VerifyStart, Some(DocumentsReceived), Some(InProgress)),
    Transition(VendorAsync, Some(InProgress), Some(CallbackAwaited)),
    Transition(CallbackReceived, Some(CallbackAwaited), Some(InProgress)),
    Transition(Timer72h, Some(CallbackAwaited), Some(Escalated)),
    Transition(StepPassed, Some(InProgress), Some(InProgress)),
    Transition(AllPassed, Some(InProgress), Some(Verified)),
    Transition(StepFailed, Some(InProgress), Some(Rejected)),
    Transition(StepRetry, Some(InProgress), Some(InProgress)),
    Transition(RiskElevated, Some(InProgress), Some(Escalated)),
    Transition(RiskChanged, Some(Verified), Some(ReverificationRequired)),
    Transition(RegUpdate, Some(Verified), Some(ReverificationRequired)),
    Transition(ReverifyInit, Some(ReverificationRequired), Some(Initiated)),
    Transition(ComplianceFreeze, ANY, Some(Suspended)),
    Transition(ComplianceLift, Some(Suspended), PREVIOUS_STATE)]

  predicate Matches(t: Transition, s: Status) {
    t.from == ANY || t.from == Some(s)
  }

  /** What the injected audit and notification ports do during one call. */
  datatype Ports = PortsWork | AuditThrows | NotificationThrows

  datatype Attempt = Attempt(event: Event, ctx: GuardContext, ports: Ports)

  datatype Machine = Machine(current: Status, saved: Option<Status>)

  datatype Rejection = NotDefined | GuardNotMet | NoSuspensionRecorded | SideEffectThrew

  const NOTIFYING: set<Event> := {DocsRequested, Timer48h, CallbackReceived, AllPassed, StepFailed}

  /** An entry 'StateTransition:from->to' of the audit trail. */
  datatype TransitionRecord = TransitionRecord(event: Event, from: Status, to: Status)

  predicate HandlerThrows(a: Attempt) {
    a.ports == AuditThrows || (a.ports == NotificationThrows && a.event in NOTIFYING)
  }

  function TargetOf(m: Machine, e: Event): Option<Status> {
    if Definition(e).to == PREVIOUS_STATE then m.saved else Definition(e).to
  }

  /** One `apply`: definition, guard, target, side effect, commit — in that order. */
  function Step(m: Machine, a: Attempt): Result<Machine, Rejection> {
    if !Matches(Definition(a.event), m.current) then Err(NotDefined)
    else if !Guard(a.event, a.ctx) then Err(GuardNotMet)
    else if TargetOf(m, a.event) == None then Err(NoSuspensionRecorded)
    else if HandlerThrows(a) then Err(SideEffectThrew)
    else Ok(Machine(TargetOf(m, a.event).value,
                    if a.event == ComplianceFreeze then Some(m.current)
                    else if a.event == ComplianceLift then None
                    else m.saved))
  }

  /** What one call adds to the audit trail: nothing unless the side effect was reached and the audit port worked. */
  function Audited(m: Machine, a: Attempt): seq<TransitionRecord> {
    if a.ports != AuditThrows && (Step(m, a).Ok? || Step(m, a) == Err(SideEffectThrew))
    then [TransitionRecord(a.event, m.current, TargetOf(m, a.event).value)] else []
  }

  /** The machine after a call; a rejected call leaves it untouched. */
  function After(m: Machine, a: Attempt): Machine {
    if Step(m, a).Ok? then Step(m, a).value else m
  }

  function Run(m: Machine, attempts: seq<Attempt>): Machine
    decreases attempts
  {
    if attempts == [] then m else Run(After(m, attempts[0]), attempts[1..])
  }

  /** The subsequence of calls that succeeded. */
  function Accepted(m: Machine, attempts: seq<Attempt>): seq<Attempt>
    decreases attempts
  {
    if attempts == [] then []
    else (if Step(m, attempts[0]).Ok? then [attempts[0]] else []) + Accepted(After(m, attempts[0]), attempts[1..])
  }

  predicate AllAccepted(m: Machine, attempts: seq<Attempt>)
    decreases attempts
  {
    attempts == [] || (Step(m, attempts[0]).Ok? && AllAccepted(After(m, attempts[0]), attempts[1..]))
  }

  // ---- The table ----

  function RowOf(e: Event): (i: nat)
    ensures i < |TRANSITIONS|
  {
    match e
    case KycInitiated => 0 case DocsRequested => 1 case DocUploaded => 2 case Timer48h => 3
    case VerifyStart => 4 case VendorAsync => 5 case CallbackReceived => 6 case Timer72h => 7
    case StepPassed => 8 case AllPassed => 9 case StepFailed => 10 case StepRetry => 11
    case RiskElevated => 12 case RiskChanged => 13 case RegUpdate => 14 case ReverifyInit => 15
    case ComplianceFreeze => 16 case ComplianceLift => 17
  }

  lemma RowsAreDefinitions(i: nat)
    requires i < |TRANSITIONS|
    ensures RowOf(TRANSITIONS[i].event) == i && TRANSITIONS[i] == Definition(TRANSITIONS[i].event)
  {
    assert i in {0, 1, 2, 3, 4, 5, 6, 7, 8, 9, 10, 11, 12, 13, 14, 15, 16, 17};
  }

  /** The design invariant the source only comments on: of the 18 rows exactly one is labelled with an event, its definition. */
  lemma OneRowPerEvent(e: Event, i: nat)
    requires i < |TRANSITIONS|
    ensures TRANSITIONS[i].event == e <==> i == RowOf(e)
    ensures TRANSITIONS[i].event == e ==> TRANSITIONS[i] == Definition(e)
  {
    RowsAreDefinitions(i);
    RowsAreDefinitions(RowOf(e));
    RowHasEvent(e);
  }

  lemma RowHasEvent(e: Event)
    ensures TRANSITIONS[RowOf(e)].event == e
  {}

  /** Seen from the status: which attempts are accepted in it, and where each leads — 'more than 48 hours' and all. */
  lemma AcceptedIff(m: Machine, a: Attempt)
    requires a.ports == PortsWork
    ensures var (e, c) := (a.event, a.ctx);
            Step(m, a).Ok? <==>
              || (e == ComplianceFreeze && c.hasLegalOrRegulatoryOrder)
              || match m.current
                 case NotStarted => e == KycInitiated && c.validCustomerAndTierAssigned
                 case Initiated => e == DocsRequested && c.workflowHasDocumentSteps
                 case DocumentsPending =>
                   || (e == DocUploaded && c.documentValidNotExpired)
                   || (e == Timer48h && c.hoursSinceDocumentRequest.Some? && c.hoursSinceDocumentRequest.value >= 48.0)
                 case DocumentsReceived => e == VerifyStart && c.allRequiredDocumentsPresent
                 case InProgress =>
                   || (e == VendorAsync && c.isAsyncVendorStep)
                   || (e == StepPassed && c.moreStepsRemain)
                   || (e == AllPassed && c.allStepsPassed)
                   || (e == StepFailed && c.stepFailureNonRecoverable)
                   || (e == StepRetry && c.retriesRemaining)
                   || (e == RiskElevated && c.riskScoreExceedsEddThreshold)
                 case CallbackAwaited =>
                   || (e == CallbackReceived && c.webhookSignatureValid)
                   || (e == Timer72h && c.hoursSinceVendorCall.Some? && c.hoursSinceVendorCall.value >= 72.0)
                 case Verified => (e == RiskChanged && c.reVerificationTriggered) || (e == RegUpdate && c.newRegulatoryRequirement)
                 case ReverificationRequired => e == ReverifyInit && c.withinGracePeriod
                 case Suspended => e == ComplianceLift && c.freezeOrderLifted && m.saved.Some?
                 case _ => false
    ensures Step(m, a).Ok? ==>
              Step(m, a).value.current ==
              match a.event
              case KycInitiated => Initiated case ReverifyInit => Initiated
              case DocsRequested => DocumentsPending case DocUploaded => DocumentsReceived case Timer48h => Expired
              case VerifyStart => InProgress case CallbackReceived => InProgress case StepPassed => InProgress case StepRetry => InProgress
              case VendorAsync => CallbackAwaited case Timer72h => Escalated case RiskElevated => Escalated
              case AllPassed => Verified case StepFailed => Rejected
              case RiskChanged => ReverificationRequired case RegUpdate => ReverificationRequired
              case ComplianceFreeze => Suspended
              case ComplianceLift => m.saved.value
  {}

  // ---- Suspension ----

  /** The status the customer has once every freeze is looked through. */
  function Thaw(m: Machine): Machine {
    if m.current == Suspended && m.saved.Some? then Machine(m.saved.value, None) else m
  }

  function IsFreezeOrLift(a: Attempt): bool {
    a.event == ComplianceFreeze || a.event == ComplianceLift
  }

  function WithoutFreezes(attempts: seq<Attempt>): seq<Attempt> {
    if attempts == [] then []
    else (if IsFreezeOrLift(attempts[0]) then [] else [attempts[0]]) + WithoutFreezes(attempts[1..])
  }

  /** No freeze is accepted while the machine is already suspended. */
  predicate NoRefreeze(m: Machine, attempts: seq<Attempt>)
    decreases attempts
  {
    attempts == [] ||
    (!(m.current == Suspended && attempts[0].event == ComplianceFreeze && Step(m, attempts[0]).Ok?) &&
     NoRefreeze(After(m, attempts[0]), attempts[1..]))
  }

  /** Suspended exactly while a non-suspended status is saved. */
  predicate CleanlyFrozen(m: Machine) {
    if m.current == Suspended then m.saved.Some? && m.saved.value != Suspended else m.saved == None
  }

  /** Deleting every freeze and lift from a history leaves a history the table accepts, with the same outcome. */
  lemma {:induction false} FreezeTransparency(m: Machine, attempts: seq<Attempt>)
    requires CleanlyFrozen(m) && NoRefreeze(m, attempts)
    ensures AllAccepted(Thaw(m), WithoutFreezes(Accepted(m, attempts)))
    ensures Run(Thaw(m), WithoutFreezes(Accepted(m, attempts))) == Thaw(Run(m, attempts))
    ensures CleanlyFrozen(Run(m, attempts))
    decreases attempts
  {
    if attempts != [] {
      var a, rest := attempts[0], attempts[1..];
      FreezeTransparency(After(m, a), rest);
      var tail := Accepted(After(m, a), rest);
      if Step(m, a).Ok? {
        assert ([a] + tail)[1..] == tail;
        if IsFreezeOrLift(a) {
          assert Thaw(After(m, a)) == Thaw(m);
          assert WithoutFreezes([a] + tail) == WithoutFreezes(tail);
        } else {
          if m.current == Suspended {
            OnlyLiftLeavesSuspension(m, a);
          }
          assert Thaw(m) == m;
          assert WithoutFreezes([a] + tail) == [a] + WithoutFreezes(tail);
          assert ([a] + WithoutFreezes(tail))[1..] == WithoutFreezes(tail);
        }
      } else {
        assert [] + tail == tail;
      }
    }
  }

  /** Between a freeze and its lift nothing else gets through. */
  lemma OnlyLiftLeavesSuspension(m: Machine, a: Attempt)
    requires m.current == Suspended && Step(m, a).Ok?
    ensures IsFreezeOrLift(a)
    ensures a.event == ComplianceLift <==> Step(m, a).value.saved == None
  {}

  /** A suspension with no recoverable status behind it. */
  predicate Stranded(m: Machine) {
    m.current == Suspended && (m.saved == None || m.saved == Some(Suspended))
  }

  /** Such a machine stays suspended for ever; a machine rebuilt from a persisted SUSPENDED status is one. */
  lemma {:induction false} StrandedForEver(m: Machine, attempts: seq<Attempt>)
    requires Stranded(m)
    ensures Stranded(Run(m, attempts))
    decreases attempts
  {
    if attempts != [] {
      StrandedForEver(After(m, attempts[0]), attempts[1..]);
    }
  }

  lemma {:induction false} RunConcat(m: Machine, s: seq<Attempt>, t: seq<Attempt>)
    ensures Run(m, s + t) == Run(Run(m, s), t)
    decreases s
  {
    if s == [] {
      assert s + t == t;
    } else {
      assert (s + t)[1..] == s[1..] + t;
      RunConcat(After(m, s[0]), s[1..], t);
    }
  }

  lemma {:induction false} SuspendedWithoutLift(m: Machine, attempts: seq<Attempt>)
    requires m.current == Suspended && m.saved.Some?
    requires forall a :: a in attempts && a.event == ComplianceLift ==> !Step(m, a).Ok?
    ensures Run(m, attempts).current == Suspended
    ensures Run(m, attempts).saved ==
            if exists a :: a in attempts && a.event == ComplianceFreeze && Step(m, a).Ok? then Some(Suspended) else m.saved
    decreases attempts
  {
    if attempts != [] {
      var a, m' := attempts[0], After(m, attempts[0]);
      SuspendedWithoutLift(m', attempts[1..]);
      assert forall b :: b in attempts <==> b == a || b in attempts[1..];
      assert forall b: Attempt :: IsFreezeOrLift(b) ==> Step(m, b).Ok? == Step(m', b).Ok?;
    }
  }

  /**
   The next accepted lift restores the frozen status exactly when no second
   freeze got through in between, however many lifts were turned away;
   otherwise the status is lost and the machine is stranded.
   */
  lemma LiftRestoresIff(m: Machine, freeze: Attempt, between: seq<Attempt>, lift: Attempt)
    requires m.current != Suspended
    requires freeze.event == ComplianceFreeze && Step(m, freeze).Ok?
    requires forall a :: a in between && a.event == ComplianceLift ==> !Step(After(m, freeze), a).Ok?
    requires lift.event == ComplianceLift && lift.ctx.freezeOrderLifted && !HandlerThrows(lift)
    ensures var end := Run(m, [freeze] + between + [lift]);
            var refrozen := exists a :: a in between && a.event == ComplianceFreeze && Step(After(m, freeze), a).Ok?;
            && (end.current == m.current <==> !refrozen)
            && (refrozen ==> Stranded(end))
  {
    var frozen := After(m, freeze);
    RunConcat(m, [freeze] + between, [lift]);
    RunConcat(m, [freeze], between);
    assert Run(m, [freeze]) == frozen;
    SuspendedWithoutLift(frozen, between);
    var held := Run(frozen, between);
    assert Run(held, [lift]) == After(held, lift);
  }

  // ---- Final states ----

  /** REJECTED, EXPIRED and ESCALATED_TO_MANUAL can only be frozen and thawed, whatever is attempted. */
  lemma {:induction false} FinalStatesAreFinal(m: Machine, attempts: seq<Attempt>)
    requires m.current in {Rejected, Expired, Escalated}
    ensures Run(m, attempts).current in {m.current, Suspended}
  {
    FinalOrFrozen(m.current, m, attempts);
  }

  lemma {:induction false} FinalOrFrozen(final: Status, m: Machine, attempts: seq<Attempt>)
    requires final in {Rejected, Expired, Escalated}
    requires m.current == final || (m.current == Suspended && (m.saved == Some(final) || Stranded(m)))
    ensures Run(m, attempts).current in {final, Suspended}
    decreases attempts
  {
    if attempts != [] {
      FinalOrFrozen(final, After(m, attempts[0]), attempts[1..]);
    }
  }

  // ---- Earned verification ----

  const MILESTONES: seq<Event> := [DocsRequested, DocUploaded, VerifyStart, AllPassed]

  predicate IsInitiation(a: Attempt) {
    a.event == KycInitiated || a.event == ReverifyInit
  }

  /** How many milestones a status presupposes. */
  function Depth(s: Status): (n: nat)
    ensures n <= |MILESTONES|
  {
    match s
    case NotStarted => 0 case Initiated => 0 case Suspended => 0
    case DocumentsPending => 1 case Expired => 1
    case DocumentsReceived => 2
    case InProgress => 3 case CallbackAwaited => 3 case Rejected => 3 case Escalated => 3
    case Verified => 4 case ReverificationRequired => 4
  }

  /** Positions `w` in the history: the latest initiation, then the first n milestones in order, each with its guard true. */
  ghost predicate Earns(history: seq<Attempt>, w: seq<nat>, n: nat)
    requires n <= |MILESTONES|
  {
    && |w| == n + 1
    && (forall i :: 0 <= i < |w| ==> w[i] < |history|)
    && (forall i :: 0 <= i < |w| ==> Guard(history[w[i]].event, history[w[i]].ctx))
    && (forall i, j :: 0 <= i < j < |w| ==> w[i] < w[j])
    && (forall i :: 0 < i < |w| ==> history[w[i]].event == MILESTONES[i - 1])
    && IsInitiation(history[w[0]])
    && (forall k :: w[0] < k < |history| ==> !IsInitiation(history[k]))
  }

  /** The status behind any freeze has been earned by the history. */
  ghost predicate Earned(history: seq<Attempt>, m: Machine) {
    var s := Thaw(m).current;
    (s != NotStarted && s != Suspended ==> exists w: seq<nat> :: Earns(history, w, Depth(s))) &&
    (m.current != Suspended ==> m.saved == None)
  }

  /** A step keeps the depth or reaches the next milestone. */
  lemma DepthOfStep(m: Machine, a: Attempt)
    requires Step(m, a).Ok? && !IsInitiation(a) && (m.current != Suspended ==> m.saved == None)
    ensures var s, s' := Thaw(m).current, Thaw(After(m, a)).current;
            s' != NotStarted && s' != Suspended ==>
              s != NotStarted && s != Suspended && Guard(a.event, a.ctx)
              && (Depth(s') == Depth(s)
                  || (Depth(s') == Depth(s) + 1 && a.event == MILESTONES[Depth(s)]))
  {
    hide Guard;
  }

  lemma EarnsStill(history: seq<Attempt>, w: seq<nat>, n: nat, a: Attempt)
    requires n <= |MILESTONES| && Earns(history, w, n) && !IsInitiation(a)
    ensures Earns(history + [a], w, n)
    ensures n < |MILESTONES| && a.event == MILESTONES[n] && Guard(a.event, a.ctx) ==> Earns(history + [a], w + [|history|], n + 1)
  {
    hide Guard, IsInitiation;
  }

  lemma EarnsAnew(history: seq<Attempt>, a: Attempt)
    requires IsInitiation(a) && Guard(a.event, a.ctx)
    ensures Earns(history + [a], [|history|], 0)
  {
    hide Guard, IsInitiation;
  }

  lemma EarnStep(history: seq<Attempt>, m: Machine, a: Attempt)
    requires Earned(history, m) && Step(m, a).Ok?
    ensures Earned(history + [a], After(m, a))
  {
    var s, s' := Thaw(m).current, Thaw(After(m, a)).current;
    if s' != NotStarted && s' != Suspended {
      hide Earns, Guard;
      if IsInitiation(a) {
        EarnsAnew(history, a);
        var w: seq<nat> := [|history|];
        assert s' == Initiated && Depth(s') == 0;
        assert Earns(history + [a], w, Depth(s'));
      } else {
        DepthOfStep(m, a);
        hide Depth, Step;
        var w: seq<nat> :| Earns(history, w, Depth(s));
        EarnsStill(history, w, Depth(s), a);
      }
    }
  }

  lemma {:induction false} EarnRun(history: seq<Attempt>, m: Machine, attempts: seq<Attempt>)
    requires Earned(history, m)
    ensures Earned(history + Accepted(m, attempts), Run(m, attempts))
    decreases attempts
  {
    if attempts == [] {
      assert history + [] == history;
    } else {
      var a, rest := attempts[0], Accepted(After(m, attempts[0]), attempts[1..]);
      if Step(m, a).Ok? {
        EarnStep(history, m, a);
        EarnRun(history + [a], After(m, a), attempts[1..]);
        assert history + [a] + rest == history + ([a] + rest);
      } else {
        EarnRun(history, m, attempts[1..]);
        assert [] + rest == rest;
      }
    }
  }

  /** A customer is VERIFIED only after, since the latest initiation, every milestone was accepted in order with a true guard. */
  lemma EarnedVerification(attempts: seq<Attempt>)
    requires Run(Machine(NotStarted, None), attempts).current == Verified
    ensures exists w: seq<nat> :: Earns(Accepted(Machine(NotStarted, None), attempts), w, 4)
  {
    var m := Machine(NotStarted, None);
    EarnRun([], m, attempts);
    assert [] + Accepted(m, attempts) == Accepted(m, attempts);
  }

  // ---- The audit trail of transitions ----

  function AuditOf(m: Machine, attempts: seq<Attempt>): seq<TransitionRecord>
    decreases attempts
  {
    if attempts == [] then [] else Audited(m, attempts[0]) + AuditOf(After(m, attempts[0]), attempts[1..])
  }

  /** The records lead, link by link, from one status to another. */
  predicate IsPath(from: Status, log: seq<TransitionRecord>, to: Status)
    decreases log
  {
    if log == [] then from == to else log[0].from == from && IsPath(log[0].to, log[1..], to)
  }

  /** A notification port that fails after its audit entry was written. */
  predicate NotificationLost(m: Machine, attempts: seq<Attempt>)
    decreases attempts
  {
    attempts != [] &&
    ((Step(m, attempts[0]) == Err(SideEffectThrew) && attempts[0].ports == NotificationThrows) ||
     NotificationLost(After(m, attempts[0]), attempts[1..]))
  }

  lemma {:induction false} AuditStartsHere(m: Machine, attempts: seq<Attempt>)
    ensures AuditOf(m, attempts) != [] ==> AuditOf(m, attempts)[0].from == m.current
    ensures AuditOf(m, attempts) == [] ==> Run(m, attempts).current == m.current
    decreases attempts
  {
    if attempts != [] {
      AuditStartsHere(After(m, attempts[0]), attempts[1..]);
    }
  }

  /** The audit trail replays to the machine's status exactly when no notification failed behind an entry already written. */
  lemma {:induction false} AuditReplaysIff(m: Machine, attempts: seq<Attempt>)
    ensures IsPath(m.current, AuditOf(m, attempts), Run(m, attempts).current) <==> !NotificationLost(m, attempts)
    decreases attempts
  {
    if attempts != [] {
      var a, m' := attempts[0], After(m, attempts[0]);
      var rest := AuditOf(m', attempts[1..]);
      AuditReplaysIff(m', attempts[1..]);
      AuditStartsHere(m', attempts[1..]);
      if Audited(m, a) == [] {
        assert [] + rest == rest;
        assert m' == m;
      } else {
        assert (Audited(m, a) + rest)[1..] == rest;
      }
    }
  }

  // ---- The objects ----

  datatype Notice = Notice(event: Event, status: Status)

  /** The side-effect handler: writes the audit entry, then notifies for the events that ask for it. */
  class SideEffects {
    var audit: seq<TransitionRecord>
    var notices: seq<Notice>

    constructor ()
      ensures audit == [] && notices == []
    {
      audit, notices := [], [];
    }

    method Handle(event: Event, from: Status, to: Status, ports: Ports) returns (ok: bool)
      modifies this
      ensures var notifies := event in {DocsRequested, Timer48h, CallbackReceived, AllPassed, StepFailed};
              && (ok <==> ports == PortsWork || (ports == NotificationThrows && !notifies))
              && notices == old(notices) + (if ports == PortsWork && notifies then [Notice(event, to)] else [])
      ensures ok == !(ports == AuditThrows || (ports == NotificationThrows && event in NOTIFYING))
      ensures audit == old(audit) + (if ports == AuditThrows then [] else [TransitionRecord(event, from, to)])
      ensures notices == old(notices) + (if ports == PortsWork && event in NOTIFYING then [Notice(event, to)] else [])
    {
      if ports == AuditThrows {
        return false;
      }
      audit := audit + [TransitionRecord(event, from, to)];
      if event in NOTIFYING {
        if ports == NotificationThrows {
          return false;
        }
        notices := notices + [Notice(event, to)];
      }
      return true;
    }
  }

  class StateMachine {
    var current: Status
    var beforeSuspension: Option<Status>
    const handler: SideEffects

    constructor (initial: Status, handler: SideEffects)
      ensures State() == Machine(initial, None) && this.handler == handler
    {
      current, beforeSuspension := initial, None;
      this.handler := handler;
    }

    function State(): Machine
      reads this
    {
      Machine(current, beforeSuspension)
    }

    /** Row by row, the events with a row leaving the current status. */
    method GetAllowedEvents() returns (allowed: seq<Event>)
      ensures forall e :: e in allowed <==> Matches(Definition(e), current)
    {
      allowed := [];
      for i := 0 to |TRANSITIONS|
        invariant forall e :: e in allowed <==> RowOf(e) < i && Matches(Definition(e), current)
      {
        RowsAreDefinitions(i);
        forall e ensures TRANSITIONS[i].event == e <==> RowOf(e) == i {
          OneRowPerEvent(e, i);
        }
        if Matches(TRANSITIONS[i], current) {
          allowed := allowed + [TRANSITIONS[i].event];
        }
      }
    }

    /** The call the use cases make: filter the table, check the guard, resolve the target, run the side effect, commit. */
    method Apply(event: Event, ctx: GuardContext, ports: Ports) returns (r: Result<Status, Rejection>)
      modifies this, handler
      ensures State() == After(old(State()), Attempt(event, ctx, ports))
      ensures handler.audit == old(handler.audit) + Audited(old(State()), Attempt(event, ctx, ports))
      ensures r.Ok? == Step(old(State()), Attempt(event, ctx, ports)).Ok?
      ensures r == if r.Ok? then Ok(current) else Err(Step(old(State()), Attempt(event, ctx, ports)).error)
    {
      var candidates: seq<Transition> := [];
      for i := 0 to |TRANSITIONS|
        modifies {}
        invariant candidates == if RowOf(event) < i && Matches(Definition(event), current) then [Definition(event)] else []
      {
        OneRowPerEvent(event, i);
        if TRANSITIONS[i].event == event && Matches(TRANSITIONS[i], current) {
          candidates := candidates + [TRANSITIONS[i]];
        }
      }
      if |candidates| == 0 {
        return Err(NotDefined);
      }
      var transition := candidates[0];
      if !Guard(transition.event, ctx) {
        return Err(GuardNotMet);
      }
      var target := transition.to;
      if target == PREVIOUS_STATE {
        if beforeSuspension == None {
          return Err(NoSuspensionRecorded);
        }
        target := beforeSuspension;
      }
      var ok := handler.Handle(event, current, target.value, ports);
      if !ok {
        return Err(SideEffectThrew);
      }
      if event == ComplianceFreeze {
        beforeSuspension := Some(current);
      }
      if event == ComplianceLift {
        beforeSuspension := None;
      }
      current := target.value;
      return Ok(current);
    }
  }
}
