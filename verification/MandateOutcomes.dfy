/**
 * What the recorded events say. In every reachable state of the mandate reducer the actions, their
 * outcomes and attempts and the agreement's status are those the record tells, and whether one more
 * event is accepted is decided by the record alone.
 */
module MandateOutcomes {
  import opened Prelude
  import opened Mandate
  import opened MandateRuns

  // ----- reading the record -----

  /** A start, report or reconciliation of the action. */
  predicate Concerns(e: Event, id: string) {
    (e.Start? || e.Report? || e.Reconcile?) && e.actionId == id
  }

  predicate Ending(e: Event) {
    e.Revoke? || e.Cancel? || e.ProviderCancel?
  }

  predicate LastConcerning(events: seq<Recorded>, id: string, k: nat) {
    && k < |events| && Concerns(events[k].event, id)
    && (forall j :: k < j < |events| ==> !Concerns(events[j].event, id))
  }

  predicate LastEnding(events: seq<Recorded>, k: nat) {
    && k < |events| && Ending(events[k].event)
    && (forall j :: k < j < |events| ==> !Ending(events[j].event))
  }

  /** Queued before any event about the action, in flight after a start, otherwise what the last event reported. */
  ghost predicate OutcomeTold(events: seq<Recorded>, id: string, outcome: Outcome) {
    || (outcome == Queued && (forall k :: 0 <= k < |events| ==> !Concerns(events[k].event, id)))
    || (exists k: nat ::
          && LastConcerning(events, id, k)
          && (events[k].event.Start? ==> outcome == InFlight)
          && (!events[k].event.Start? ==> outcome == events[k].event.outcome))
  }

  predicate NeverEnded(events: seq<Recorded>) {
    forall k :: 0 <= k < |events| ==> !Ending(events[k].event)
  }

  /** The status the agreement had at first, or the one its last ending gave it. */
  ghost predicate StatusTold(first: AgreementStatus, events: seq<Recorded>, status: AgreementStatus) {
    || (status == first && NeverEnded(events))
    || (exists k: nat ::
          && LastEnding(events, k)
          && (events[k].event.Revoke? ==> status == Revoked)
          && (events[k].event.Cancel? ==> status == Cancelled)
          && (events[k].event.ProviderCancel? ==> status == ProviderCancelled))
  }

  /** One for each recorded start of the action. */
  function StartOf(id: string): Recorded -> int {
    (r: Recorded) => if r.event == Start(id) then 1 else 0
  }

  /** The recorded requests, in their order. */
  function Asked(events: seq<Recorded>): (asked: seq<Event>)
    ensures forall e :: e in asked ==> e.Request?
  {
    if events == [] then []
    else
      var n := |events| - 1;
      Asked(events[..n]) + if events[n].event.Request? then [events[n].event] else []
  }

  /** The action is the one the request asked for, as far as the events about it have brought it. */
  ghost predicate ActionTold(events: seq<Recorded>, asked: Event, a: Action) {
    && asked == Request(a.id, a.artifact, a.approval)
    && OutcomeTold(events, a.id, a.outcome)
    && a.attempts == SumBy(events, StartOf(a.id))
  }

  ghost predicate Told(first: Agreement, st: Reference) {
    && st.agreement == first.(status := st.agreement.status)
    && StatusTold(first.status, st.events, st.agreement.status)
    && |st.actions| == |Asked(st.events)|
    && (forall i :: 0 <= i < |st.actions| ==> ActionTold(st.events, Asked(st.events)[i], st.actions[i]))
  }

  /** Nothing is recorded about an action nobody asked for. */
  ghost predicate Grounded(st: Reference) {
    forall k, id :: 0 <= k < |st.events| && Concerns(st.events[k].event, id) ==> ActionIndex(st.actions, id) < |st.actions|
  }

  // ----- one more event -----

  lemma {:induction false} AskedMore(events: seq<Recorded>, r: Recorded)
    ensures Asked(events + [r]) == Asked(events) + if r.event.Request? then [r.event] else []
  {
    assert (events + [r])[..|events|] == events;
  }

  lemma {:induction false} StartsMore(events: seq<Recorded>, r: Recorded, id: string)
    ensures SumBy(events + [r], StartOf(id)) == SumBy(events, StartOf(id)) + if r.event == Start(id) then 1 else 0
  {
    SumByAppend(events, [r], StartOf(id));
    assert [r][1..] == [];
  }

  lemma OutcomeKept(events: seq<Recorded>, r: Recorded, id: string, outcome: Outcome)
    requires OutcomeTold(events, id, outcome) && !Concerns(r.event, id)
    ensures OutcomeTold(events + [r], id, outcome)
  {
    if k: nat :| LastConcerning(events, id, k) && (events[k].event.Start? ==> outcome == InFlight)
                 && (!events[k].event.Start? ==> outcome == events[k].event.outcome) {
      assert LastConcerning(events + [r], id, k);
    }
  }

  lemma OutcomeSet(events: seq<Recorded>, r: Recorded, id: string, outcome: Outcome)
    requires Concerns(r.event, id) && outcome == if r.event.Start? then InFlight else r.event.outcome
    ensures OutcomeTold(events + [r], id, outcome)
  {
    assert LastConcerning(events + [r], id, |events|);
  }

  lemma StatusKept(first: AgreementStatus, events: seq<Recorded>, r: Recorded, status: AgreementStatus)
    requires StatusTold(first, events, status) && !Ending(r.event)
    ensures StatusTold(first, events + [r], status)
  {
    if k: nat :| LastEnding(events, k) && (events[k].event.Revoke? ==> status == Revoked)
                 && (events[k].event.Cancel? ==> status == Cancelled)
                 && (events[k].event.ProviderCancel? ==> status == ProviderCancelled) {
      assert LastEnding(events + [r], k);
    }
  }

  lemma ActionKept(events: seq<Recorded>, r: Recorded, asked: Event, a: Action)
    requires ActionTold(events, asked, a) && !Concerns(r.event, a.id)
    ensures ActionTold(events + [r], asked, a)
  {
    OutcomeKept(events, r, a.id, a.outcome);
    StartsMore(events, r, a.id);
  }

  lemma {:induction false} NoStarts(events: seq<Recorded>, id: string)
    requires forall k :: 0 <= k < |events| ==> !Concerns(events[k].event, id)
    ensures SumBy(events, StartOf(id)) == 0
  {
    if events != [] {
      assert !Concerns(events[0].event, id);
      NoStarts(events[1..], id);
    }
  }

  /** What an accepted request does. */
  lemma RequestAdds(clock: Clock, st: Reference, input: Input)
    requires input.event.Request? && Reduce(clock, st, input).Some? && EventIndex(st.events, input.id) == |st.events|
    ensures var after := Next(clock, st, input);
            && after.events == st.events + [Recorded(input.id, input.event, input.context)] && after.agreement == st.agreement
            && after.actions == st.actions + [Action(input.event.actionId, input.event.artifact, input.event.approval, Queued, 0)]
    ensures ActionIndex(st.actions, input.event.actionId) == |st.actions|
  {
    NewIds(clock, st, input);
  }

  /** A new action, about which nothing is recorded yet, is told by its request. */
  lemma AddTold(first: Agreement, st: Reference, r: Recorded, added: Action, after: Reference)
    requires Told(first, st) && Grounded(st) && ActionIndex(st.actions, added.id) == |st.actions|
    requires r.event == Request(added.id, added.artifact, added.approval) && added.outcome == Queued && added.attempts == 0
    requires after.events == st.events + [r] && after.agreement == st.agreement && after.actions == st.actions + [added]
    ensures Told(first, after) && Grounded(after)
  {
    AskedMore(st.events, r);
    StatusKept(first.status, st.events, r, st.agreement.status);
    NoStarts(st.events, added.id);
    ActionKept(st.events, r, r.event, added);
    forall i | 0 <= i < |st.actions|
      ensures ActionTold(after.events, Asked(after.events)[i], after.actions[i])
    {
      ActionKept(st.events, r, Asked(st.events)[i], st.actions[i]);
    }
    forall k, id | 0 <= k < |after.events| && Concerns(after.events[k].event, id)
      ensures ActionIndex(after.actions, id) < |after.actions|
    {
      assert Concerns(st.events[k].event, id);
      IndexAppended(st.actions, added, id);
    }
  }

  lemma EndingTold(clock: Clock, first: Agreement, st: Reference, input: Input)
    requires Told(first, st) && Grounded(st) && Ending(input.event)
    requires Reduce(clock, st, input).Some? && EventIndex(st.events, input.id) == |st.events|
    ensures Told(first, Next(clock, st, input)) && Grounded(Next(clock, st, input))
  {
    var after, r := Next(clock, st, input), Recorded(input.id, input.event, input.context);
    assert after.events == st.events + [r] && after.actions == st.actions;
    AskedMore(st.events, r);
    assert LastEnding(after.events, |st.events|);
    forall i | 0 <= i < |st.actions|
      ensures ActionTold(after.events, Asked(after.events)[i], after.actions[i])
    {
      ActionKept(st.events, r, Asked(st.events)[i], st.actions[i]);
    }
    forall k, id | 0 <= k < |after.events| && Concerns(after.events[k].event, id)
      ensures ActionIndex(after.actions, id) < |after.actions|
    {
      assert Concerns(st.events[k].event, id);
    }
  }

  /** What an accepted start, report or reconciliation does to the action it is about. */
  lemma ActionMoved(clock: Clock, st: Reference, input: Input, i: nat)
    requires !input.event.Request? && !Ending(input.event) && i == ActionIndex(st.actions, input.event.actionId)
    requires Reduce(clock, st, input).Some? && EventIndex(st.events, input.id) == |st.events|
    ensures i < |st.actions|
    ensures var after, a := Next(clock, st, input), st.actions[i];
            && after.events == st.events + [Recorded(input.id, input.event, input.context)] && after.agreement == st.agreement
            && after.actions == st.actions[i := if input.event.Start? then a.(outcome := InFlight, attempts := a.attempts + 1)
                                                else a.(outcome := input.event.outcome)]
  {
  }

  lemma MoveTold(clock: Clock, first: Agreement, st: Reference, input: Input)
    requires Told(first, st) && Grounded(st) && ReferenceOk(st) && !input.event.Request? && !Ending(input.event)
    requires Reduce(clock, st, input).Some? && EventIndex(st.events, input.id) == |st.events|
    ensures Told(first, Next(clock, st, input)) && Grounded(Next(clock, st, input))
  {
    var after, r := Next(clock, st, input), Recorded(input.id, input.event, input.context);
    var i := ActionIndex(st.actions, input.event.actionId);
    ActionMoved(clock, st, input, i);
    AskedMore(st.events, r);
    StatusKept(first.status, st.events, r, st.agreement.status);
    forall j | 0 <= j < |st.actions|
      ensures ActionTold(after.events, Asked(after.events)[j], after.actions[j])
    {
      assert ActionTold(st.events, Asked(st.events)[j], st.actions[j]);
      if j == i {
        OutcomeSet(st.events, r, st.actions[i].id, after.actions[i].outcome);
        StartsMore(st.events, r, st.actions[i].id);
      } else {
        assert st.actions[j].id != st.actions[i].id;
        ActionKept(st.events, r, Asked(st.events)[j], st.actions[j]);
      }
    }
    forall k, id | 0 <= k < |after.events| && Concerns(after.events[k].event, id)
      ensures ActionIndex(after.actions, id) < |after.actions|
    {
      IndexKept(st.actions, i, after.actions[i], id);
      assert k < |st.events| ==> Concerns(st.events[k].event, id);
    }
  }

  lemma NextTold(clock: Clock, first: Agreement, st: Reference, input: Input)
    requires Told(first, st) && Grounded(st)
    ensures Told(first, Next(clock, st, input)) && Grounded(Next(clock, st, input))
  {
    if Reduce(clock, st, input).Some? && EventIndex(st.events, input.id) == |st.events| {
      if input.event.Request? {
        RequestAdds(clock, st, input);
        AddTold(first, st, Recorded(input.id, input.event, input.context),
                Action(input.event.actionId, input.event.artifact, input.event.approval, Queued, 0), Next(clock, st, input));
      } else if Ending(input.event) {
        EndingTold(clock, first, st, input);
      } else {
        MoveTold(clock, first, st, input);
      }
    }
  }

  lemma {:induction false} KeepsTold(clock: Clock, first: Agreement, st: Reference, inputs: seq<Input>)
    requires Told(first, st) && Grounded(st)
    ensures Told(first, Run(clock, st, inputs)) && Grounded(Run(clock, st, inputs))
    decreases |inputs|
  {
    if inputs != [] {
      NextTold(clock, first, st, inputs[0]);
      KeepsTold(clock, first, Next(clock, st, inputs[0]), inputs[1..]);
    }
  }

  /** In every reachable state each action, its outcome, its attempts and the agreement's status are what the record tells. */
  lemma {:induction false} RecordTells(clock: Clock, st: Reference, inputs: seq<Input>)
    requires Starts(st)
    ensures Told(st.agreement, Run(clock, st, inputs))
  {
    assert NeverEnded(st.events);
    KeepsTold(clock, st.agreement, st, inputs);
  }

  // ----- which events are accepted -----

  function CollectAsked(): Event -> int {
    (e: Event) => if e.Request? && e.artifact.action == Collect then e.artifact.amountPence else 0
  }

  function RefundAsked(id: string): Event -> int {
    (e: Event) => if e.Request? && e.artifact.originalActionId == Some(id) then e.artifact.amountPence else 0
  }

  /** The request repeats no action and no decision, and no collection of a statement already collected. */
  predicate Unasked(asked: seq<Event>, e: Event)
    requires e.Request? && forall p :: p in asked ==> p.Request?
  {
    forall p :: p in asked ==> Separate(p, e)
  }

  predicate Separate(p: Event, e: Event)
    requires p.Request? && e.Request?
  {
    && p.actionId != e.actionId && p.approval.decisionId != e.approval.decisionId
    && (p.artifact.action == Collect && e.artifact.action == Collect ==> p.artifact.statementId != e.artifact.statementId)
  }

  /** The recorded request that the refund returns money of: settled, and still covering the amount. */
  ghost predicate Refundable(events: seq<Recorded>, p: Event, a: Artifact)
    requires p.Request?
  {
    && p.artifact.action == Collect && Some(p.actionId) == a.originalActionId && OutcomeTold(events, p.actionId, Settled)
    && p.artifact.statementId == a.statementId && p.artifact.statementHash == a.statementHash
    && SumBy(Asked(events), RefundAsked(p.actionId)) + a.amountPence <= p.artifact.amountPence
  }

  ghost predicate RequestLawful(clock: Clock, first: Agreement, events: seq<Recorded>, input: Input)
    requires input.event.Request?
  {
    var e, a, c := input.event, input.event.artifact, input.context;
    && c.role == Human && c.actor != e.approval.actor && e.approval.artifact == a
    && a.binding == first.binding && first.binding.track == Paid && !a.pilotExempt && !clock(input.now, a.expiresAt)
    && Unasked(Asked(events), e)
    && (a.action == Collect ==>
          && first.status == Active && NeverEnded(events) && a.originalActionId.None?
          && SumBy(Asked(events), CollectAsked()) + a.amountPence <= first.binding.limitPence)
    && (a.action == Refund ==> exists p :: p in Asked(events) && Refundable(events, p, a))
  }

  /** A worker starts a requested action, queued or failed, at most three times, before it expires. */
  ghost predicate StartLawful(clock: Clock, first: Agreement, events: seq<Recorded>, input: Input, p: Event)
    requires input.event.Start? && p.Request?
  {
    && input.context.role == Worker && p.actionId == input.event.actionId && !clock(input.now, p.artifact.expiresAt)
    && first.binding.track == Paid && (p.artifact.action == Collect ==> first.status == Active && NeverEnded(events))
    && (OutcomeTold(events, p.actionId, Queued) || OutcomeTold(events, p.actionId, Failed))
    && SumBy(events, StartOf(p.actionId)) < 3
  }

  /** Whether the record admits the new event. */
  ghost predicate Lawful(clock: Clock, first: Agreement, events: seq<Recorded>, input: Input) {
    match input.event
    case Request(_, _, _) => RequestLawful(clock, first, events, input)
    case Start(_) => exists p :: p in Asked(events) && StartLawful(clock, first, events, input, p)
    case Report(id, _) => input.context.role == Provider && (exists p :: p in Asked(events) && p.actionId == id) && OutcomeTold(events, id, InFlight)
    case Reconcile(id, _) => input.context.role == Provider && (exists p :: p in Asked(events) && p.actionId == id) && OutcomeTold(events, id, OutcomeUnknown)
    case ProviderCancel => input.context.role == Provider
    case _ => input.context.role == Human
  }

  lemma OutcomeUnique(events: seq<Recorded>, id: string, a: Outcome, b: Outcome)
    requires OutcomeTold(events, id, a) && OutcomeTold(events, id, b)
    ensures a == b
  {
  }

  lemma OpenExactly(first: AgreementStatus, events: seq<Recorded>, status: AgreementStatus)
    requires StatusTold(first, events, status)
    ensures status == Active <==> first == Active && NeverEnded(events)
  {
  }

  lemma {:induction false} SumPairs(actions: seq<Action>, asked: seq<Event>, f: Action -> int, g: Event -> int)
    requires |actions| == |asked| && forall i :: 0 <= i < |actions| ==> f(actions[i]) == g(asked[i])
    ensures SumBy(actions, f) == SumBy(asked, g)
  {
    if actions != [] {
      SumPairs(actions[1..], asked[1..], f, g);
    }
  }

  lemma CollectSums(first: Agreement, st: Reference)
    requires Told(first, st)
    ensures SumBy(st.actions, Collected()) == SumBy(Asked(st.events), CollectAsked())
  {
    forall i | 0 <= i < |st.actions|
      ensures Collected()(st.actions[i]) == CollectAsked()(Asked(st.events)[i])
    {
      assert ActionTold(st.events, Asked(st.events)[i], st.actions[i]);
    }
    SumPairs(st.actions, Asked(st.events), Collected(), CollectAsked());
  }

  lemma RefundSums(first: Agreement, st: Reference, id: string)
    requires Told(first, st)
    ensures SumBy(st.actions, RefundedOf(id)) == SumBy(Asked(st.events), RefundAsked(id))
  {
    forall i | 0 <= i < |st.actions|
      ensures RefundedOf(id)(st.actions[i]) == RefundAsked(id)(Asked(st.events)[i])
    {
      assert ActionTold(st.events, Asked(st.events)[i], st.actions[i]);
    }
    SumPairs(st.actions, Asked(st.events), RefundedOf(id), RefundAsked(id));
  }

  lemma SeparateExactly(events: seq<Recorded>, p: Event, v: Action, e: Event)
    requires ActionTold(events, p, v) && e.Request?
    ensures Separate(p, e) <==> !Repeats(v, e)
  {
  }

  lemma UnaskedExactly(first: Agreement, st: Reference, e: Event)
    requires Told(first, st) && e.Request?
    ensures Unasked(Asked(st.events), e) <==> forall v :: v in st.actions ==> !Repeats(v, e)
  {
    forall i | 0 <= i < |st.actions|
      ensures Separate(Asked(st.events)[i], e) <==> !Repeats(st.actions[i], e)
    {
      SeparateExactly(st.events, Asked(st.events)[i], st.actions[i], e);
    }
    UnaskedThrough(Asked(st.events), st.actions, e);
  }

  lemma UnaskedThrough(asked: seq<Event>, actions: seq<Action>, e: Event)
    requires e.Request? && (forall p :: p in asked ==> p.Request?) && |asked| == |actions|
    requires forall i :: 0 <= i < |actions| ==> (Separate(asked[i], e) <==> !Repeats(actions[i], e))
    ensures Unasked(asked, e) <==> forall v :: v in actions ==> !Repeats(v, e)
  {
    if forall v :: v in actions ==> !Repeats(v, e) {
      forall p | p in asked
        ensures Separate(p, e)
      {
        var i :| 0 <= i < |asked| && asked[i] == p;
        assert actions[i] in actions;
      }
    } else {
      var v :| v in actions && Repeats(v, e);
      var i :| 0 <= i < |actions| && actions[i] == v;
      assert asked[i] in asked;
    }
  }

  lemma RefundableExactly(first: Agreement, st: Reference, a: Artifact)
    requires Told(first, st) && ReferenceOk(st)
    ensures RefundFits(st, a) <==> exists p :: p in Asked(st.events) && Refundable(st.events, p, a)
  {
    if RefundFits(st, a) {
      var i := ActionIndex(st.actions, a.originalActionId.value);
      assert ActionTold(st.events, Asked(st.events)[i], st.actions[i]);
      RefundSums(first, st, st.actions[i].id);
      assert Refundable(st.events, Asked(st.events)[i], a);
    }
    if p :| p in Asked(st.events) && Refundable(st.events, p, a) {
      var i :| 0 <= i < |st.actions| && Asked(st.events)[i] == p;
      assert ActionTold(st.events, p, st.actions[i]);
      OutcomeUnique(st.events, p.actionId, st.actions[i].outcome, Settled);
      RefundSums(first, st, p.actionId);
      assert ActionIndex(st.actions, p.actionId) == i;
    }
  }

  lemma RequestExactly(clock: Clock, first: Agreement, st: Reference, input: Input)
    requires Told(first, st) && ReferenceOk(st) && input.event.Request?
    ensures RequestAllowed(clock, st, input.event, input.context, input.now) <==> RequestLawful(clock, first, st.events, input)
  {
    UnaskedExactly(first, st, input.event);
    if input.event.artifact.action == Collect {
      CollectSums(first, st);
      OpenExactly(first.status, st.events, st.agreement.status);
    } else {
      RefundableExactly(first, st, input.event.artifact);
    }
  }

  /** Where the action a recorded request asked for stands. */
  lemma AskedAction(first: Agreement, st: Reference, p: Event) returns (i: nat)
    requires Told(first, st) && ReferenceOk(st) && p in Asked(st.events)
    ensures i < |st.actions| && ActionTold(st.events, p, st.actions[i]) && ActionIndex(st.actions, p.actionId) == i
  {
    i :| 0 <= i < |st.actions| && Asked(st.events)[i] == p;
    assert ActionTold(st.events, p, st.actions[i]);
    var j := ActionIndex(st.actions, p.actionId);
    assert j <= i;
  }

  lemma StartExactly(clock: Clock, first: Agreement, st: Reference, input: Input)
    requires Told(first, st) && ReferenceOk(st) && Safe(st) && input.event.Start?
    ensures Effect(clock, st, input).Some? <==> exists p :: p in Asked(st.events) && StartLawful(clock, first, st.events, input, p)
  {
    OpenExactly(first.status, st.events, st.agreement.status);
    var i := ActionIndex(st.actions, input.event.actionId);
    if i < |st.actions| {
      var a, p := st.actions[i], Asked(st.events)[i];
      assert ActionTold(st.events, p, a) && ActionSafe(st.agreement, a);
      StartableExactly(clock, first, st, input, p, a);
      if q :| q in Asked(st.events) && StartLawful(clock, first, st.events, input, q) {
        var j := AskedAction(first, st, q);
        assert p == q;
      }
    } else if q :| q in Asked(st.events) && StartLawful(clock, first, st.events, input, q) {
      var j := AskedAction(first, st, q);
      assert false;
    }
  }

  lemma StartableExactly(clock: Clock, first: Agreement, st: Reference, input: Input, p: Event, a: Action)
    requires st.agreement.binding == first.binding && (st.agreement.status == Active <==> first.status == Active && NeverEnded(st.events))
    requires ActionTold(st.events, p, a) && ActionSafe(st.agreement, a) && input.event == Start(a.id)
    ensures StartAllowed(clock, st.agreement, a, input.context, input.now) <==> StartLawful(clock, first, st.events, input, p)
  {
    if OutcomeTold(st.events, a.id, Queued) {
      OutcomeUnique(st.events, a.id, a.outcome, Queued);
    }
    if OutcomeTold(st.events, a.id, Failed) {
      OutcomeUnique(st.events, a.id, a.outcome, Failed);
    }
  }

  function Awaited(e: Event): Outcome {
    if e.Report? then InFlight else OutcomeUnknown
  }

  lemma ReportEffect(clock: Clock, st: Reference, input: Input)
    requires input.event.Report? || input.event.Reconcile?
    ensures var i := ActionIndex(st.actions, input.event.actionId);
            Effect(clock, st, input).Some? <==>
            i < |st.actions| && input.context.role == Provider && st.actions[i].outcome == Awaited(input.event)
  {
  }

  lemma {:induction false} ReportedExactly(first: Agreement, st: Reference, id: string, awaited: Outcome)
    requires Told(first, st) && ReferenceOk(st)
    ensures var i := ActionIndex(st.actions, id);
            i < |st.actions| && st.actions[i].outcome == awaited <==>
            (exists p :: p in Asked(st.events) && p.actionId == id) && OutcomeTold(st.events, id, awaited)
  {
    var i := ActionIndex(st.actions, id);
    if i < |st.actions| {
      assert ActionTold(st.events, Asked(st.events)[i], st.actions[i]) && Asked(st.events)[i] in Asked(st.events);
      if OutcomeTold(st.events, id, awaited) {
        OutcomeUnique(st.events, id, st.actions[i].outcome, awaited);
      }
    } else if p :| p in Asked(st.events) && p.actionId == id {
      var j := AskedAction(first, st, p);
      assert false;
    }
  }

  lemma ReportExactly(clock: Clock, first: Agreement, st: Reference, input: Input)
    requires Told(first, st) && ReferenceOk(st) && (input.event.Report? || input.event.Reconcile?)
    ensures Effect(clock, st, input).Some? <==> Lawful(clock, first, st.events, input)
  {
    ReportEffect(clock, st, input);
    ReportedExactly(first, st, input.event.actionId, Awaited(input.event));
  }

  lemma EndExactly(clock: Clock, first: Agreement, st: Reference, input: Input)
    requires input.event.Revoke? || input.event.Cancel? || input.event.ProviderCancel?
    ensures Effect(clock, st, input).Some? <==> Lawful(clock, first, st.events, input)
  {
  }

  lemma LawfulExactly(clock: Clock, first: Agreement, st: Reference, input: Input)
    requires Told(first, st) && ReferenceOk(st) && Safe(st)
    ensures Effect(clock, st, input).Some? <==> Lawful(clock, first, st.events, input)
  {
    match input.event {
      case Request(_, _, _) => RequestExactly(clock, first, st, input);
      case Start(_) => StartExactly(clock, first, st, input);
      case Report(_, _) => ReportExactly(clock, first, st, input);
      case Reconcile(_, _) => ReportExactly(clock, first, st, input);
      case Revoke => EndExactly(clock, first, st, input);
      case Cancel => EndExactly(clock, first, st, input);
      case ProviderCancel => EndExactly(clock, first, st, input);
    }
  }

  lemma {:induction false} StaysReferenceOk(clock: Clock, st: Reference, inputs: seq<Input>)
    requires ReferenceOk(st)
    ensures ReferenceOk(Run(clock, st, inputs))
    decreases |inputs|
  {
    if inputs != [] {
      NextChanges(clock, st, inputs[0]);
      StaysReferenceOk(clock, Next(clock, st, inputs[0]), inputs[1..]);
    }
  }

  predicate SameInput(r: Recorded, input: Input) {
    r.id == input.id && r.event == input.event && r.context.actor == input.context.actor && r.context.role == input.context.role
  }

  /** Room for one more event, and for one more action when the event is a request. */
  predicate HasRoom(events: seq<Recorded>, e: Event) {
    |events| < 10000 && (e.Request? ==> |Asked(events)| < 1000)
  }

  /** In every reachable state an input is accepted exactly if it repeats a recorded one or the record admits it as a new one. */
  lemma {:induction false} AcceptedExactly(clock: Clock, start: Reference, inputs: seq<Input>, input: Input)
    requires Starts(start)
    ensures var events := Run(clock, start, inputs).events;
            Reduce(clock, Run(clock, start, inputs), input).Some? <==>
            && EventOk(input.event) && input.context.tenant == start.agreement.binding.tenant
            && ((exists r :: r in events && SameInput(r, input))
                || ((forall r :: r in events ==> r.id != input.id) && Lawful(clock, start.agreement, events, input) && HasRoom(events, input.event)))
  {
    var st := Run(clock, start, inputs);
    RecordTells(clock, start, inputs);
    AlwaysSafe(clock, start, inputs);
    StaysReferenceOk(clock, start, inputs);
    if EventOk(input.event) && input.context.tenant == start.agreement.binding.tenant {
      ReducedExactly(clock, start.agreement, st, input);
    }
  }

  lemma ReducesAgain(clock: Clock, st: Reference, input: Input)
    requires ReferenceOk(st) && EventOk(input.event) && input.context.tenant == st.agreement.binding.tenant
    requires EventIndex(st.events, input.id) < |st.events|
    ensures Reduce(clock, st, input).Some? <==> exists r :: r in st.events && SameInput(r, input)
  {
    var k := EventIndex(st.events, input.id);
    assert st.events[k] in st.events;
    if r :| r in st.events && SameInput(r, input) {
      assert r == st.events[k];
    }
  }

  lemma ReducesNew(clock: Clock, st: Reference, input: Input)
    requires ReferenceOk(st) && EventOk(input.event) && input.context.tenant == st.agreement.binding.tenant
    requires EventIndex(st.events, input.id) == |st.events|
    ensures Reduce(clock, st, input).Some? <==>
            Effect(clock, st, input).Some? && |st.events| < 10000 && (input.event.Request? ==> |st.actions| < 1000)
  {
    StaysOk(clock, st, input);
  }

  lemma ReducedExactly(clock: Clock, first: Agreement, st: Reference, input: Input)
    requires Told(first, st) && ReferenceOk(st) && Safe(st) && EventOk(input.event) && input.context.tenant == first.binding.tenant
    ensures Reduce(clock, st, input).Some? <==>
            || (exists r :: r in st.events && SameInput(r, input))
            || ((forall r :: r in st.events ==> r.id != input.id) && Lawful(clock, first, st.events, input) && HasRoom(st.events, input.event))
  {
    var k := EventIndex(st.events, input.id);
    if k < |st.events| {
      ReducesAgain(clock, st, input);
      assert st.events[k] in st.events;
    } else {
      LawfulExactly(clock, first, st, input);
      ReducesNew(clock, st, input);
    }
  }
}
