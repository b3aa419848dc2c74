/**
 * The contractor mandate reducer (packages/core/src/contractor-mandate.ts): collections and refunds
 * under one agreement, and what holds in every state it can reach. Whether an instant has passed
 * another is an abstract relation.
 */
module Mandate {
  import opened Prelude

  const MAX_REFERENCE_ATTEMPTS := 3
  const MAX_ACTIONS := 1000
  const MAX_EVENTS := 10000

  // ----- data -----

  datatype Track = PilotNoCharge | Paid
  datatype Binding = Binding(tenant: string, agreementVersion: string, termsHash: string, scopeHash: string, rateHash: string,
                             limitPence: int, track: Track)
  datatype AgreementStatus = Active | Revoked | Cancelled | ProviderCancelled
  datatype Agreement = Agreement(id: string, binding: Binding, status: AgreementStatus)
  datatype ActionKind = Collect | Refund
  datatype Artifact = Artifact(binding: Binding, statementId: string, statementHash: string, amountPence: int, pilotExempt: bool,
                               action: ActionKind, originalActionId: Option<string>, expiresAt: string)
  datatype Approval = Approval(actor: string, decisionId: string, resolutionId: string, artifact: Artifact)
  datatype Outcome = Queued | InFlight | OutcomeUnknown | Failed | Settled
  datatype Action = Action(id: string, artifact: Artifact, approval: Approval, outcome: Outcome, attempts: nat)
  datatype Role = Human | Worker | Provider
  datatype Context = Context(tenant: string, actor: string, role: Role)
  datatype Event =
    | Request(actionId: string, artifact: Artifact, approval: Approval)
    | Start(actionId: string)
    | Report(actionId: string, outcome: Outcome)
    | Reconcile(actionId: string, outcome: Outcome)
    | Revoke
    | Cancel
    | ProviderCancel
  datatype Recorded = Recorded(id: string, event: Event, context: Context)
  datatype Reference = Reference(agreement: Agreement, actions: seq<Action>, events: seq<Recorded>)
  datatype Input = Input(id: string, event: Event, now: string, context: Context)

  /** Whether the first instant has reached the second. */
  type Clock = (string, string) -> bool

  // ----- the schema -----

  predicate MoneyOk(pence: int) {
    1 <= pence <= MAX_MONEY_PENCE
  }

  predicate ArtifactOk(a: Artifact) {
    MoneyOk(a.amountPence) && MoneyOk(a.binding.limitPence)
  }

  predicate EventOk(e: Event) {
    match e
    case Request(_, artifact, approval) => ArtifactOk(artifact) && ArtifactOk(approval.artifact)
    case Report(_, outcome) => outcome == OutcomeUnknown || outcome == Failed || outcome == Settled
    case Reconcile(_, outcome) => outcome == Failed || outcome == Settled
    case _ => true
  }

  predicate ReferenceOk(st: Reference) {
    && MoneyOk(st.agreement.binding.limitPence)
    && |st.actions| <= MAX_ACTIONS && |st.events| <= MAX_EVENTS
    && (forall a :: a in st.actions ==> ArtifactOk(a.artifact) && ArtifactOk(a.approval.artifact))
    && (forall r :: r in st.events ==> EventOk(r.event))
    && (forall i, j :: 0 <= i < j < |st.actions| ==> st.actions[i].id != st.actions[j].id)
    && (forall i, j :: 0 <= i < j < |st.events| ==> st.events[i].id != st.events[j].id)
  }

  // ----- lookups and sums -----

  function ActionIndex(actions: seq<Action>, id: string): (i: nat)
    ensures i <= |actions| && (i < |actions| ==> actions[i].id == id)
    ensures forall j :: 0 <= j < i ==> actions[j].id != id
  {
    if actions == [] || actions[0].id == id then 0 else 1 + ActionIndex(actions[1..], id)
  }

  function EventIndex(events: seq<Recorded>, id: string): (i: nat)
    ensures i <= |events| && (i < |events| ==> events[i].id == id)
    ensures forall j :: 0 <= j < i ==> events[j].id != id
  {
    if events == [] || events[0].id == id then 0 else 1 + EventIndex(events[1..], id)
  }

  function Collected(): Action -> int {
    (a: Action) => if a.artifact.action == Collect then a.artifact.amountPence else 0
  }

  function RefundedOf(id: string): Action -> int {
    (a: Action) => if a.artifact.originalActionId == Some(id) then a.artifact.amountPence else 0
  }

  // ----- the reducer -----

  /** A request that repeats an action, a decision, or the collection of a statement. */
  predicate Repeats(v: Action, e: Event)
    requires e.Request?
  {
    || v.id == e.actionId || v.approval.decisionId == e.approval.decisionId
    || (v.artifact.action == e.artifact.action && v.artifact.statementId == e.artifact.statementId && e.artifact.action == Collect)
  }

  predicate CollectFits(st: Reference, a: Artifact) {
    && st.agreement.status == Active && a.originalActionId.None?
    && SumBy(st.actions, Collected()) + a.amountPence <= st.agreement.binding.limitPence
  }

  predicate RefundFits(st: Reference, a: Artifact) {
    && a.originalActionId.Some?
    && var i := ActionIndex(st.actions, a.originalActionId.value);
       && i < |st.actions|
       && var original := st.actions[i];
          && original.artifact.action == Collect && original.outcome == Settled
          && original.artifact.statementId == a.statementId && original.artifact.statementHash == a.statementHash
          && SumBy(st.actions, RefundedOf(original.id)) + a.amountPence <= original.artifact.amountPence
  }

  predicate RequestAllowed(clock: Clock, st: Reference, e: Event, c: Context, now: string)
    requires e.Request?
  {
    var a := e.artifact;
    && c.role == Human && c.actor != e.approval.actor && a.binding == st.agreement.binding && a == e.approval.artifact
    && !clock(now, a.expiresAt) && st.agreement.binding.track != PilotNoCharge && !a.pilotExempt
    && (forall v :: v in st.actions ==> !Repeats(v, e))
    && if a.action == Collect then CollectFits(st, a) else RefundFits(st, a)
  }

  predicate StartAllowed(clock: Clock, g: Agreement, a: Action, c: Context, now: string) {
    && c.role == Worker && g.binding.track != PilotNoCharge && !a.artifact.pilotExempt
    && (a.artifact.action == Collect ==> g.status == Active) && g.binding == a.artifact.binding
    && a.artifact == a.approval.artifact && (a.outcome == Queued || a.outcome == Failed)
    && a.attempts < MAX_REFERENCE_ATTEMPTS && !clock(now, a.artifact.expiresAt)
  }

  function Ended(e: Event): AgreementStatus
    requires e.Revoke? || e.Cancel? || e.ProviderCancel?
  {
    match e case Revoke => Revoked case Cancel => Cancelled case ProviderCancel => ProviderCancelled
  }

  /** The effect of a new event, before it is recorded. */
  function Effect(clock: Clock, st: Reference, input: Input): Option<Reference> {
    var e, c := input.event, input.context;
    if e.Request? then
      if RequestAllowed(clock, st, e, c, input.now) then Some(st.(actions := st.actions + [Action(e.actionId, e.artifact, e.approval, Queued, 0)]))
      else None
    else if e.Revoke? || e.Cancel? || e.ProviderCancel? then
      if c.role == (if e.ProviderCancel? then Provider else Human) then Some(st.(agreement := st.agreement.(status := Ended(e)))) else None
    else
      var i := ActionIndex(st.actions, e.actionId);
      if i == |st.actions| then None
      else
        var a := st.actions[i];
        if e.Start? then
          if StartAllowed(clock, st.agreement, a, c, input.now)
          then Some(st.(actions := st.actions[i := a.(outcome := InFlight, attempts := a.attempts + 1)])) else None
        else if c.role == Provider && a.outcome == (if e.Report? then InFlight else OutcomeUnknown)
        then Some(st.(actions := st.actions[i := a.(outcome := e.outcome)])) else None
  }

  /** One event; None when it is denied. */
  function Reduce(clock: Clock, st: Reference, input: Input): Option<Reference> {
    if !ReferenceOk(st) || !EventOk(input.event) || input.context.tenant != st.agreement.binding.tenant then None
    else
      var k := EventIndex(st.events, input.id);
      if k < |st.events| then
        var prior := st.events[k];
        if prior.event == input.event && prior.context.actor == input.context.actor && prior.context.role == input.context.role
        then Some(st) else None
      else
        var next := Effect(clock, st, input);
        if next.None? then None
        else
          var recorded := next.value.(events := st.events + [Recorded(input.id, input.event, input.context)]);
          if ReferenceOk(recorded) then Some(recorded) else None
  }

  // ----- the reducer, step by step -----

  method FindAction(actions: seq<Action>, id: string) returns (i: nat)
    ensures i == ActionIndex(actions, id)
  {
    i := 0;
    while i < |actions| && actions[i].id != id
      invariant i <= |actions| && forall j :: 0 <= j < i ==> actions[j].id != id
    {
      i := i + 1;
    }
  }

  method FindEvent(events: seq<Recorded>, id: string) returns (i: nat)
    ensures i == EventIndex(events, id)
  {
    i := 0;
    while i < |events| && events[i].id != id
      invariant i <= |events| && forall j :: 0 <= j < i ==> events[j].id != id
    {
      i := i + 1;
    }
  }

  method Total(actions: seq<Action>, f: Action -> int) returns (total: int)
    ensures total == SumBy(actions, f)
  {
    total := 0;
    for i := 0 to |actions|
      invariant total == SumBy(actions[..i], f)
    {
      assert actions[..i + 1] == actions[..i] + [actions[i]] && [actions[i]][1..] == [];
      SumByAppend(actions[..i], [actions[i]], f);
      total := total + f(actions[i]);
    }
    assert actions[..|actions|] == actions;
  }

  method CheckRequest(clock: Clock, st: Reference, e: Event, c: Context, now: string) returns (allowed: bool)
    requires e.Request?
    ensures allowed == RequestAllowed(clock, st, e, c, now)
  {
    var a := e.artifact;
    if c.role != Human || c.actor == e.approval.actor || a.binding != st.agreement.binding || a != e.approval.artifact
      || clock(now, a.expiresAt) || st.agreement.binding.track == PilotNoCharge || a.pilotExempt { return false; }
    for i := 0 to |st.actions|
      invariant forall j :: 0 <= j < i ==> !Repeats(st.actions[j], e)
    {
      if Repeats(st.actions[i], e) { return false; }
    }
    if a.action == Collect {
      if st.agreement.status != Active || a.originalActionId.Some? { return false; }
      var reserved := Total(st.actions, Collected());
      return reserved + a.amountPence <= st.agreement.binding.limitPence;
    }
    if a.originalActionId.None? { return false; }
    var i := FindAction(st.actions, a.originalActionId.value);
    if i == |st.actions| { return false; }
    var original := st.actions[i];
    if original.artifact.action != Collect || original.outcome != Settled
      || original.artifact.statementId != a.statementId || original.artifact.statementHash != a.statementHash { return false; }
    var refunded := Total(st.actions, RefundedOf(original.id));
    return refunded + a.amountPence <= original.artifact.amountPence;
  }

  /** What a new event does before it is recorded. */
  method Act(clock: Clock, state: Reference, input: Input) returns (result: Option<Reference>)
    ensures result == Effect(clock, state, input)
  {
    var st, e, c := state, input.event, input.context;
    if e.Request? {
      var allowed_ := CheckRequest(clock, st, e, c, input.now);
      if !allowed_ { return None; }
      st := st.(actions := st.actions + [Action(e.actionId, e.artifact, e.approval, Queued, 0)]);
    } else if e.Revoke? || e.Cancel? || e.ProviderCancel? {
      if c.role != (if e.ProviderCancel? then Provider else Human) { return None; }
      st := st.(agreement := st.agreement.(status := Ended(e)));
    } else {
      var i := FindAction(st.actions, e.actionId);
      if i == |st.actions| { return None; }
      var a := st.actions[i];
      if e.Start? {
        if !StartAllowed(clock, st.agreement, a, c, input.now) { return None; }
        a := a.(outcome := InFlight, attempts := a.attempts + 1);
      } else {
        if c.role != Provider || a.outcome != (if e.Report? then InFlight else OutcomeUnknown) { return None; }
        a := a.(outcome := e.outcome);
      }
      st := st.(actions := st.actions[i := a]);
    }
    return Some(st);
  }

  /** The state after one input, or None when it is denied. */
  method ApplyContractorMandateReference(clock: Clock, state: Reference, input: Input) returns (result: Option<Reference>)
    ensures result == Reduce(clock, state, input)
  {
    var st, e, c := state, input.event, input.context;
    if !ReferenceOk(state) || !EventOk(e) { return None; }
    if c.tenant != st.agreement.binding.tenant { return None; }
    var k := FindEvent(st.events, input.id);
    if k < |st.events| {
      var prior := st.events[k];
      if prior.event != e || prior.context.actor != c.actor || prior.context.role != c.role { return None; }
      return Some(st);
    }
    var next := Act(clock, st, input);
    if next.None? { return None; }
    st := next.value.(events := st.events + [Recorded(input.id, e, c)]);
    return if ReferenceOk(st) then Some(st) else None;
  }

  lemma NewIds(clock: Clock, st: Reference, input: Input)
    requires input.event.Request? && RequestAllowed(clock, st, input.event, input.context, input.now)
    ensures forall i :: 0 <= i < |st.actions| ==> st.actions[i].id != input.event.actionId
  {
    forall i | 0 <= i < |st.actions|
      ensures st.actions[i].id != input.event.actionId
    {
      assert !Repeats(st.actions[i], input.event);
    }
  }

  lemma RecordedOk(st: Reference, after: Reference, r: Recorded)
    requires ReferenceOk(st) && EventOk(r.event) && EventIndex(st.events, r.id) == |st.events|
    requires after.events == st.events + [r] && after.agreement.binding == st.agreement.binding
    requires forall a :: a in after.actions ==> ArtifactOk(a.artifact) && ArtifactOk(a.approval.artifact)
    requires forall i, j :: 0 <= i < j < |after.actions| ==> after.actions[i].id != after.actions[j].id
    ensures ReferenceOk(after) <==> |after.actions| <= MAX_ACTIONS && |after.events| <= MAX_EVENTS
  {
  }

  /** An accepted event keeps the schema, except that it may exceed a list limit. */
  lemma StaysOk(clock: Clock, st: Reference, input: Input)
    requires ReferenceOk(st) && EventOk(input.event) && EventIndex(st.events, input.id) == |st.events|
    ensures Effect(clock, st, input).Some? ==>
              var recorded := Effect(clock, st, input).value.(events := st.events + [Recorded(input.id, input.event, input.context)]);
              ReferenceOk(recorded) <==> |recorded.actions| <= MAX_ACTIONS && |recorded.events| <= MAX_EVENTS
  {
    if Effect(clock, st, input).Some? {
      if input.event.Request? {
        NewIds(clock, st, input);
      }
      var after := Effect(clock, st, input).value;
      RecordedOk(st, after.(events := st.events + [Recorded(input.id, input.event, input.context)]), Recorded(input.id, input.event, input.context));
    }
  }

  // ----- invariants -----

  predicate IsCollect(a: Action) {
    a.artifact.action == Collect
  }

  /** What every reachable action satisfies on its own. */
  predicate ActionSafe(g: Agreement, a: Action) {
    && a.artifact.binding == g.binding && a.approval.artifact == a.artifact
    && !a.artifact.pilotExempt && a.artifact.amountPence >= 1 && a.attempts <= MAX_REFERENCE_ATTEMPTS
    && (IsCollect(a) <==> a.artifact.originalActionId.None?)
  }

  /** A refund targets a settled collection of the same statement, which covers all its refunds. */
  predicate RefundCovered(st: Reference, a: Action) {
    a.artifact.originalActionId.Some? ==>
      var i := ActionIndex(st.actions, a.artifact.originalActionId.value);
      && i < |st.actions| && IsCollect(st.actions[i]) && st.actions[i].outcome == Settled
      && st.actions[i].artifact.statementId == a.artifact.statementId
      && st.actions[i].artifact.statementHash == a.artifact.statementHash
      && SumBy(st.actions, RefundedOf(a.artifact.originalActionId.value)) <= st.actions[i].artifact.amountPence
  }

  ghost predicate Unrepeated(st: Reference) {
    forall i, j :: 0 <= i < j < |st.actions| ==> Apart(st.actions[i], st.actions[j])
  }

  /** Two actions have their own ids and decisions, and do not both collect one statement. */
  predicate Apart(a: Action, b: Action) {
    && a.id != b.id && a.approval.decisionId != b.approval.decisionId
    && (IsCollect(a) && IsCollect(b) ==> a.artifact.statementId != b.artifact.statementId)
  }

  ghost predicate Safe(st: Reference) {
    && (forall a :: a in st.actions ==> ActionSafe(st.agreement, a) && RefundCovered(st, a))
    && Unrepeated(st)
    && SumBy(st.actions, Collected()) <= st.agreement.binding.limitPence
  }

  lemma {:induction false} SumUpdate(actions: seq<Action>, i: nat, b: Action, f: Action -> int)
    requires i < |actions| && f(b) == f(actions[i])
    ensures SumBy(actions[i := b], f) == SumBy(actions, f)
  {
    if i > 0 {
      assert actions[i := b][1..] == actions[1..][i - 1 := b];
      SumUpdate(actions[1..], i - 1, b, f);
    } else {
      assert actions[i := b][1..] == actions[1..];
    }
  }

  lemma IndexKept(actions: seq<Action>, i: nat, b: Action, id: string)
    requires i < |actions| && b.id == actions[i].id
    ensures ActionIndex(actions[i := b], id) == ActionIndex(actions, id)
  {
    var m, n := ActionIndex(actions, id), ActionIndex(actions[i := b], id);
    assert forall j :: 0 <= j < |actions| ==> actions[i := b][j].id == actions[j].id;
  }

  lemma {:induction false} IndexAppended(actions: seq<Action>, b: Action, id: string)
    ensures ActionIndex(actions, id) < |actions| ==> ActionIndex(actions + [b], id) == ActionIndex(actions, id)
  {
    if actions != [] {
      assert (actions + [b])[1..] == actions[1..] + [b];
      IndexAppended(actions[1..], b, id);
    }
  }

  lemma {:induction false} SumAppended(actions: seq<Action>, b: Action, f: Action -> int)
    ensures SumBy(actions + [b], f) == SumBy(actions, f) + f(b)
  {
    SumByAppend(actions, [b], f);
    assert [b][1..] == [];
  }

  lemma AddedSafe(clock: Clock, st: Reference, input: Input, b: Action, after: Reference)
    requires Safe(st) && input.event.Request? && RequestAllowed(clock, st, input.event, input.context, input.now)
    requires ArtifactOk(input.event.artifact)
    requires b == Action(input.event.actionId, input.event.artifact, input.event.approval, Queued, 0)
    requires after.agreement == st.agreement && after.actions == st.actions + [b]
    ensures Safe(after)
  {
    SumAppended(st.actions, b, Collected());
    forall a | a in after.actions
      ensures ActionSafe(after.agreement, a) && RefundCovered(after, a)
    {
      assert a in st.actions || a == b;
      if a.artifact.originalActionId.Some? {
        var id := a.artifact.originalActionId.value;
        IndexAppended(st.actions, b, id);
        SumAppended(st.actions, b, RefundedOf(id));
      }
    }
    forall i, j | 0 <= i < j < |after.actions|
      ensures Apart(after.actions[i], after.actions[j])
    {
      if j < |st.actions| {
        assert Apart(st.actions[i], st.actions[j]);
      } else {
        assert !Repeats(st.actions[i], input.event);
      }
    }
  }

  /** Advancing one action without touching its artifact. */
  predicate Advances(a: Action, b: Action) {
    && b.id == a.id && b.artifact == a.artifact && b.approval == a.approval
    && a.attempts <= b.attempts && (a.attempts <= MAX_REFERENCE_ATTEMPTS ==> b.attempts <= MAX_REFERENCE_ATTEMPTS)
    && (a.outcome == Settled ==> b == a)
  }

  lemma MovedSafe(st: Reference, i: nat, b: Action, after: Reference)
    requires Safe(st) && i < |st.actions| && Advances(st.actions[i], b)
    requires after.agreement == st.agreement && after.actions == st.actions[i := b]
    ensures Safe(after)
  {
    SumUpdate(st.actions, i, b, Collected());
    forall a | a in after.actions
      ensures ActionSafe(after.agreement, a) && RefundCovered(after, a)
    {
      var k :| 0 <= k < |after.actions| && after.actions[k] == a;
      assert st.actions[k] in st.actions;
      if a.artifact.originalActionId.Some? {
        IndexKept(st.actions, i, b, a.artifact.originalActionId.value);
        SumUpdate(st.actions, i, b, RefundedOf(a.artifact.originalActionId.value));
      }
    }
    forall k, j | 0 <= k < j < |after.actions|
      ensures Apart(after.actions[k], after.actions[j])
    {
      assert Apart(st.actions[k], st.actions[j]);
    }
  }
}
