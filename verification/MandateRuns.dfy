/** What holds over every run of the contractor mandate reducer, denied events included. */
module MandateRuns {
  import opened Prelude
  import opened Mandate

  /** A run: denied inputs leave the state as it was. */
  function Run(clock: Clock, st: Reference, inputs: seq<Input>): Reference
    decreases |inputs|
  {
    if inputs == [] then st else Run(clock, Next(clock, st, inputs[0]), inputs[1..])
  }

  function Next(clock: Clock, st: Reference, input: Input): Reference {
    var r := Reduce(clock, st, input);
    if r.Some? then r.value else st
  }

  /** No event of an agreement has happened yet. */
  predicate Starts(st: Reference) {
    st.actions == [] && st.events == [] && MoneyOk(st.agreement.binding.limitPence)
  }

  // ----- what one input can do -----

  predicate Appended(clock: Clock, st: Reference, input: Input, after: Reference) {
    && input.event.Request? && ArtifactOk(input.event.artifact)
    && RequestAllowed(clock, st, input.event, input.context, input.now)
    && after.agreement == st.agreement
    && after.actions == st.actions + [Action(input.event.actionId, input.event.artifact, input.event.approval, Queued, 0)]
  }

  predicate Ends(st: Reference, after: Reference) {
    && after.agreement == st.agreement.(status := after.agreement.status) && after.agreement.status != Active
    && after.actions == st.actions
  }

  /** One action advances; a collection is started only under an active agreement. */
  predicate Moves(st: Reference, i: nat, after: Reference) {
    && after.agreement == st.agreement && i < |st.actions| == |after.actions|
    && after.actions == st.actions[i := after.actions[i]] && Advances(st.actions[i], after.actions[i])
    && (IsCollect(st.actions[i]) && st.agreement.status != Active ==> after.actions[i].attempts == st.actions[i].attempts)
  }

  ghost predicate Changes(clock: Clock, st: Reference, input: Input, after: Reference) {
    && after.events == st.events + [Recorded(input.id, input.event, input.context)]
    && (Appended(clock, st, input, after) || Ends(st, after) || exists i: nat :: Moves(st, i, after))
  }

  lemma EffectChanges(clock: Clock, st: Reference, input: Input, after: Reference)
    requires EventOk(input.event) && Effect(clock, st, input).Some?
    requires after == Effect(clock, st, input).value.(events := st.events + [Recorded(input.id, input.event, input.context)])
    ensures Changes(clock, st, input, after)
  {
    var e := input.event;
    if e.Start? || e.Report? || e.Reconcile? {
      assert Moves(st, ActionIndex(st.actions, e.actionId), after);
    }
  }

  lemma NextChanges(clock: Clock, st: Reference, input: Input)
    ensures Next(clock, st, input) == st || Changes(clock, st, input, Next(clock, st, input))
    ensures ReferenceOk(st) ==> ReferenceOk(Next(clock, st, input))
  {
    if Reduce(clock, st, input).Some? && Next(clock, st, input) != st {
      EffectChanges(clock, st, input, Next(clock, st, input));
    }
  }

  // ----- money -----

  lemma NextSafe(clock: Clock, st: Reference, input: Input)
    requires Safe(st)
    ensures Safe(Next(clock, st, input))
  {
    NextChanges(clock, st, input);
    var after := Next(clock, st, input);
    if after != st {
      if Appended(clock, st, input, after) {
        AddedSafe(clock, st, input, after.actions[|st.actions|], after);
      } else if !Ends(st, after) {
        var i: nat :| Moves(st, i, after);
        MovedSafe(st, i, after.actions[i], after);
      } else {
        EndedSafe(st, after);
      }
    }
  }

  lemma EndedSafe(st: Reference, after: Reference)
    requires Safe(st) && Ends(st, after)
    ensures Safe(after)
  {
    forall a | a in after.actions
      ensures ActionSafe(after.agreement, a) && RefundCovered(after, a)
    {
      assert ActionSafe(st.agreement, a) && RefundCovered(st, a);
    }
  }

  /** Safety is kept by every run from a safe state, and an agreement with no events is safe. */
  lemma {:induction false} AlwaysSafe(clock: Clock, st: Reference, inputs: seq<Input>)
    requires Starts(st) || Safe(st)
    ensures Safe(Run(clock, st, inputs))
    decreases |inputs|
  {
    assert Safe(st);
    if inputs != [] {
      NextSafe(clock, st, inputs[0]);
      AlwaysSafe(clock, Next(clock, st, inputs[0]), inputs[1..]);
    }
  }

  function SettledCollection(): Action -> int {
    (a: Action) => if IsCollect(a) && a.outcome == Settled then a.artifact.amountPence else 0
  }

  function SettledRefund(): Action -> int {
    (a: Action) => if !IsCollect(a) && a.outcome == Settled then a.artifact.amountPence else 0
  }

  /** Money collected less money returned. */
  function Net(st: Reference): int {
    SumBy(st.actions, SettledCollection()) - SumBy(st.actions, SettledRefund())
  }

  /** The refunds, of any outcome, whose original is one of the listed actions. */
  function RefundOfAny(originals: seq<Action>): Action -> int {
    (a: Action) => if a.artifact.originalActionId.Some? && ActionIndex(originals, a.artifact.originalActionId.value) < |originals|
                   then a.artifact.amountPence else 0
  }

  function RefundsAgainst(actions: seq<Action>): Action -> int {
    (c: Action) => SumBy(actions, RefundedOf(c.id))
  }

  ghost predicate IdsDiffer(actions: seq<Action>) {
    forall i, j :: 0 <= i < j < |actions| ==> actions[i].id != actions[j].id
  }

  lemma {:induction false} SumAdds(actions: seq<Action>, f: Action -> int, g: Action -> int, h: Action -> int)
    requires forall a :: a in actions ==> h(a) == f(a) + g(a)
    ensures SumBy(actions, h) == SumBy(actions, f) + SumBy(actions, g)
  {
    if actions != [] {
      SumAdds(actions[1..], f, g, h);
    }
  }

  lemma {:induction false} SumAtMost(actions: seq<Action>, f: Action -> int, g: Action -> int)
    requires forall a :: a in actions ==> f(a) <= g(a)
    ensures SumBy(actions, f) <= SumBy(actions, g)
  {
    if actions != [] {
      SumAtMost(actions[1..], f, g);
    }
  }

  lemma {:induction false} SumZero(actions: seq<Action>, f: Action -> int)
    requires forall a :: a in actions ==> f(a) == 0
    ensures SumBy(actions, f) == 0
  {
    if actions != [] {
      SumZero(actions[1..], f);
    }
  }

  /** Grouping refunds by their original counts each of them once. */
  lemma {:induction false} RefundsGrouped(actions: seq<Action>, originals: seq<Action>)
    requires IdsDiffer(originals)
    ensures SumBy(actions, RefundOfAny(originals)) == SumBy(originals, RefundsAgainst(actions))
    decreases |originals|
  {
    if originals == [] {
      SumZero(actions, RefundOfAny(originals));
    } else {
      var rest := originals[1..];
      RefundsGrouped(actions, rest);
      forall a | a in actions
        ensures RefundOfAny(originals)(a) == RefundedOf(originals[0].id)(a) + RefundOfAny(rest)(a)
      {
        assert forall j :: 0 <= j < |rest| ==> rest[j].id != originals[0].id;
      }
      SumAdds(actions, RefundedOf(originals[0].id), RefundOfAny(rest), RefundOfAny(originals));
    }
  }

  lemma RefundsWithin(st: Reference, c: Action)
    requires Safe(st) && c in st.actions
    ensures SumBy(st.actions, RefundedOf(c.id)) <= SettledCollection()(c)
  {
    var none := forall a :: a in st.actions ==> RefundedOf(c.id)(a) == 0;
    if none {
      SumZero(st.actions, RefundedOf(c.id));
      assert ActionSafe(st.agreement, c);
    } else {
      var a :| a in st.actions && RefundedOf(c.id)(a) != 0;
      assert RefundCovered(st, a);
      var i := ActionIndex(st.actions, c.id);
      var k :| 0 <= k < |st.actions| && st.actions[k] == c;
      assert i < k ==> Apart(st.actions[i], st.actions[k]);
      assert i == k;
    }
  }

  /** Money safety: what is collected net of refunds always lies between nothing and the agreed limit. */
  lemma SafeNet(st: Reference)
    requires Safe(st)
    ensures 0 <= Net(st) <= st.agreement.binding.limitPence
  {
    forall i, j | 0 <= i < j < |st.actions|
      ensures st.actions[i].id != st.actions[j].id
    {
      assert Apart(st.actions[i], st.actions[j]);
    }
    RefundsGrouped(st.actions, st.actions);
    forall c | c in st.actions
      ensures RefundsAgainst(st.actions)(c) <= SettledCollection()(c)
      ensures SettledRefund()(c) <= RefundOfAny(st.actions)(c)
      ensures 0 <= SettledRefund()(c) && SettledCollection()(c) <= Collected()(c)
    {
      RefundsWithin(st, c);
      assert ActionSafe(st.agreement, c) && RefundCovered(st, c);
    }
    SumAtMost(st.actions, RefundsAgainst(st.actions), SettledCollection());
    SumAtMost(st.actions, SettledRefund(), RefundOfAny(st.actions));
    SumAtMost(st.actions, SettledCollection(), Collected());
    SumAtMost(st.actions, Zero(), SettledRefund());
    SumZero(st.actions, Zero());
  }

  function Zero(): Action -> int {
    (a: Action) => 0
  }

  lemma {:induction false} MoneySafety(clock: Clock, st: Reference, inputs: seq<Input>)
    requires Starts(st)
    ensures var last := Run(clock, st, inputs);
            && Safe(last) && 0 <= Net(last) <= last.agreement.binding.limitPence == st.agreement.binding.limitPence
  {
    AlwaysSafe(clock, st, inputs);
    SafeNet(Run(clock, st, inputs));
    RunHistory(clock, st, inputs);
  }

  // ----- lifecycle -----

  /** What a run does to the actions and the agreement it started from. */
  ghost predicate History(st: Reference, after: Reference) {
    && after.agreement.id == st.agreement.id && after.agreement.binding == st.agreement.binding
    && st.events <= after.events && |st.actions| <= |after.actions|
    && (forall i :: 0 <= i < |st.actions| ==> Advances(st.actions[i], after.actions[i]))
    && (st.agreement.status != Active ==> Closed(st, after))
  }

  /** Under an ended agreement nothing is collected any more: no new collection and no new attempt at one. */
  ghost predicate Closed(st: Reference, after: Reference) {
    && after.agreement.status != Active && |st.actions| <= |after.actions|
    && (forall i :: |st.actions| <= i < |after.actions| ==> !IsCollect(after.actions[i]))
    && (forall i :: 0 <= i < |st.actions| && IsCollect(st.actions[i]) ==> after.actions[i].attempts == st.actions[i].attempts)
  }

  lemma NextHistory(clock: Clock, st: Reference, input: Input)
    ensures History(st, Next(clock, st, input))
  {
    NextChanges(clock, st, input);
    var after := Next(clock, st, input);
    if after != st && !Appended(clock, st, input, after) && !Ends(st, after) {
      var i: nat :| Moves(st, i, after);
    }
  }

  /** Settled actions never change, attempts only grow, and an ended agreement collects nothing more. */
  lemma {:induction false} RunHistory(clock: Clock, st: Reference, inputs: seq<Input>)
    ensures History(st, Run(clock, st, inputs))
    decreases |inputs|
  {
    if inputs != [] {
      var next := Next(clock, st, inputs[0]);
      NextHistory(clock, st, inputs[0]);
      RunHistory(clock, next, inputs[1..]);
      HistoryTransitive(st, next, Run(clock, st, inputs));
    }
  }

  lemma HistoryTransitive(a: Reference, b: Reference, c: Reference)
    requires History(a, b) && History(b, c)
    ensures History(a, c)
  {
    forall i | 0 <= i < |a.actions|
      ensures Advances(a.actions[i], c.actions[i])
    {
      assert Advances(a.actions[i], b.actions[i]) && Advances(b.actions[i], c.actions[i]);
    }
    if a.agreement.status != Active {
      forall i | |a.actions| <= i < |c.actions|
        ensures !IsCollect(c.actions[i])
      {
        if i < |b.actions| {
          assert Advances(b.actions[i], c.actions[i]);
        }
      }
    }
  }

  // ----- redelivery -----

  /** The input repeats an event the state has recorded. */
  predicate Redelivers(st: Reference, input: Input) {
    var k := EventIndex(st.events, input.id);
    && k < |st.events| && st.events[k].event == input.event && st.events[k].context.actor == input.context.actor
    && st.events[k].context.role == input.context.role && input.context.tenant == st.agreement.binding.tenant
  }

  lemma RedeliveryIdles(clock: Clock, st: Reference, input: Input)
    requires Redelivers(st, input)
    ensures Next(clock, st, input) == st
    ensures ReferenceOk(st) && EventOk(input.event) ==> Reduce(clock, st, input) == Some(st)
  {
  }

  lemma {:induction false} IndexInPrefix(events: seq<Recorded>, longer: seq<Recorded>, id: string)
    requires events <= longer && EventIndex(events, id) < |events|
    ensures EventIndex(longer, id) == EventIndex(events, id)
  {
    if events[0].id != id {
      assert events[1..] <= longer[1..];
      IndexInPrefix(events[1..], longer[1..], id);
    }
  }

  lemma RedeliversLater(st: Reference, after: Reference, input: Input)
    requires History(st, after) && Redelivers(st, input)
    ensures Redelivers(after, input)
  {
    IndexInPrefix(st.events, after.events, input.id);
  }

  lemma {:induction false} EventFound(events: seq<Recorded>, r: Recorded)
    requires EventIndex(events, r.id) == |events|
    ensures EventIndex(events + [r], r.id) == |events|
  {
    if events != [] {
      assert (events + [r])[1..] == events[1..] + [r];
      EventFound(events[1..], r);
    }
  }

  /** An accepted input redelivers itself from then on. */
  lemma AcceptedRedelivers(clock: Clock, st: Reference, input: Input)
    requires Reduce(clock, st, input).Some?
    ensures Redelivers(Next(clock, st, input), input)
  {
    if EventIndex(st.events, input.id) == |st.events| {
      EventFound(st.events, Recorded(input.id, input.event, input.context));
      NextHistory(clock, st, input);
    }
  }

  lemma {:induction false} RunAppend(clock: Clock, st: Reference, a: seq<Input>, b: seq<Input>)
    ensures Run(clock, st, a + b) == Run(clock, Run(clock, st, a), b)
    decreases |a|
  {
    if a == [] {
      assert a + b == b;
    } else {
      assert (a + b)[0] == a[0] && (a + b)[1..] == a[1..] + b;
      RunAppend(clock, Next(clock, st, a[0]), a[1..], b);
    }
  }

  /** An accepted input can be delivered again, at any later time and place of the run, with any clock reading. */
  lemma {:induction false} RedeliveryAnywhere(clock: Clock, st: Reference, before: seq<Input>, input: Input, between: seq<Input>, again: Input, rest: seq<Input>)
    requires Reduce(clock, Run(clock, st, before), input).Some?
    requires again == input.(now := again.now)
    ensures Run(clock, st, before + [input] + between + [again] + rest) == Run(clock, st, before + [input] + between + rest)
  {
    var s0 := Run(clock, st, before);
    var s1 := Next(clock, s0, input);
    var s2 := Run(clock, s1, between);
    AcceptedRedelivers(clock, s0, input);
    RunHistory(clock, s1, between);
    RedeliversLater(s1, s2, input);
    RedeliveryIdles(clock, s2, again);
    RunOne(clock, s0, input);
    RunOne(clock, s2, again);
    RunAppend(clock, st, before, [input]);
    RunAppend(clock, st, before + [input], between);
    RunAppend(clock, st, before + [input] + between, [again]);
    RunAppend(clock, st, before + [input] + between + [again], rest);
    RunAppend(clock, st, before + [input] + between, rest);
  }

  lemma {:induction false} RunOne(clock: Clock, st: Reference, input: Input)
    ensures Run(clock, st, [input]) == Next(clock, st, input)
  {
    assert [input][1..] == [];
  }
}
