/** A run in which a fixture change leaves more reserved against an invoice than its amount. */
module AccountingExamples {
  import opened Prelude
  import opened Accounting
  import opened AccountingSteps
  import opened AccountingProofs

  const INVOICE := Source("t", "j", "i", 1, CustomerInvoice, 100, Issued, None, None, None, NoTax)
  const CREDIT := Source("t", "j", "n", 1, Credit, 60, Posted, None, Some("i"), Some(1), NoTax)
  const SCOPE := Scope("t", "j", "c", "n", 1, Mapping("t", "c", 1, "a", "p", NoTax))
  const CALLER := Context("t", "demo-a", true)
  const ARTIFACT := Artifact(Codat, 1, SCOPE, CREDIT, 1, TargetOf(SCOPE, CREDIT))

  function Approved(h: Digests): Decision {
    Decision("d", "t", "demo-a", PushAction, h.artifact(ARTIFACT), 10)
  }

  /** An invoice of 100 and a credit of 60 on file, and nothing exported yet. */
  function Fresh(decisions: map<(string, string), DecisionMark>): State {
    State(true, Codat, map[("t", "i") := INVOICE, ("t", "n") := CREDIT], map[("t", "c") := Consent("t", "c", 1, 10, false)],
          [], map[], map[], decisions, [], map[], [],
          map[Codat := Transport(0, Success, 0, (tenant: string, company: string) => Some(1))], [[]])
  }

  lemma FreshPreview(decisions: map<(string, string), DecisionMark>)
    ensures Wired(Fresh(decisions)) && Preview(Fresh(decisions), CALLER, SCOPE, 0) == Ok(ARTIFACT)
  {
    var st := Fresh(decisions);
    assert DemoId("demo-a");
    assert Authorize(st, CALLER, SCOPE, 0) == Ok(Consent("t", "c", 1, 10, false));
    assert InvoiceFits(st, SCOPE, CREDIT);
  }

  function Decided(h: Digests): map<(string, string), DecisionMark> {
    map[("t", "d") := Confirmed(h.decision(Approved(h)))]
  }

  lemma ConfirmStep(h: Digests)
    ensures Wired(Fresh(map[]))
    ensures Step(h, Fresh(map[]), ConfirmOp(CALLER, SCOPE, Approved(h), 0)) == Fresh(Decided(h))
  {
    FreshPreview(map[]);
  }

  function Order(h: Digests): Command {
    Command("k", "l", SCOPE, Approved(h))
  }

  lemma PushAdmitted(h: Digests)
    ensures PushRefusal(h, Fresh(Decided(h)), CALLER, Order(h), ARTIFACT, 0).None?
  {
  }

  lemma OneEntry(h: Digests)
    ensures Wired(Fresh(Decided(h)))
    ensures Recorded(h, Fresh(Decided(h)), CALLER, Order(h), ARTIFACT).entries == [NewEntry(h, ARTIFACT)]
    ensures Recorded(h, Fresh(Decided(h)), CALLER, Order(h), ARTIFACT).sources == Fresh(map[]).sources
    ensures Recorded(h, Fresh(Decided(h)), CALLER, Order(h), ARTIFACT).shelves == [[]]
  {
  }

  lemma PushDelivers(h: Digests, st: State, ctx: Context, c: Command, now: int, a: Artifact)
    requires Wired(st) && Preview(st, ctx, c.scope, now) == Ok(a) && PushRefusal(h, st, ctx, c, a, now).None? && a.scope == c.scope
    ensures Delivered(Recorded(h, st, ctx, c, a), c.scope, a.target, Step(h, st, PushOp(ctx, c, now)))
  {
    RecordedHasEntry(h, st, ctx, c, a);
    DeliverDelivers(h, Recorded(h, st, ctx, c, a), ctx, c.scope, a, now);
  }

  lemma OneReserved(mid: State, s: Scope, target: Target, after: State, e: Entry, tenant: string, invoice: string)
    requires Wired(mid) && Delivered(mid, s, target, after) && mid.entries == [e]
    requires e.tenant == tenant && e.invoiceId == Some(invoice)
    ensures after.sources == mid.sources && Reserved(after, tenant, invoice) == e.pence
  {
    var f := after.entries[0];
    assert IndexOfEntry(mid.entries, ScopeEffect(s)) == 0 && mid.entries[0 := f] == [f] && SameRecord(e, f);
    assert EffectOf(f).tenant == EffectOf(e).tenant && after.entries[1..] == [];
    assert PenceAgainst(tenant, invoice)(f) == e.pence;
    assert SumBy(after.entries, PenceAgainst(tenant, invoice)) == PenceAgainst(tenant, invoice)(f) + SumBy(after.entries[1..], PenceAgainst(tenant, invoice));
  }

  lemma PushStep(h: Digests)
    ensures Wired(Fresh(Decided(h)))
    ensures var after := Step(h, Fresh(Decided(h)), PushOp(CALLER, Order(h), 0));
            after.sources == Fresh(map[]).sources && Reserved(after, "t", "i") == 60
  {
    FreshPreview(Decided(h));
    PushAdmitted(h);
    PushDelivers(h, Fresh(Decided(h)), CALLER, Order(h), 0, ARTIFACT);
    OneEntry(h);
    var after := Step(h, Fresh(Decided(h)), PushOp(CALLER, Order(h), 0));
    OneReserved(Recorded(h, Fresh(Decided(h)), CALLER, Order(h), ARTIFACT), SCOPE, ARTIFACT.target, after, NewEntry(h, ARTIFACT), "t", "i");
  }

  lemma {:induction false} RunTwo(h: Digests, st: State, a: Op, b: Op)
    requires Wired(st)
    ensures Run(h, st, [a, b]) == Step(h, Step(h, st, a), b)
  {
    assert [a, b][1..] == [b] && [b][1..] == [];
    assert Run(h, Step(h, st, a), [b]) == Run(h, Step(h, Step(h, st, a), b), []);
  }

  lemma FitsSources(st: State)
    requires st.sources == Fresh(map[]).sources && Reserved(st, "t", "i") <= 100
    ensures Fits(st, "t", "i")
  {
  }

  /** A credit of 60 is exported against an invoice of 100, whose fixture is then lowered to 50. */
  lemma LoweredInvoice(h: Digests) returns (st: State)
    ensures Wired(Fresh(map[])) && Fits(Fresh(map[]), "t", "i")
    ensures st == Run(h, Fresh(map[]), [ConfirmOp(CALLER, SCOPE, Approved(h), 0), PushOp(CALLER, Order(h), 0)])
    ensures Fits(st, "t", "i") && !Fits(Step(h, st, SourceOp(INVOICE.(pence := 50))), "t", "i")
  {
    ConfirmStep(h);
    PushStep(h);
    RunTwo(h, Fresh(map[]), ConfirmOp(CALLER, SCOPE, Approved(h), 0), PushOp(CALLER, Order(h), 0));
    st := Step(h, Fresh(Decided(h)), PushOp(CALLER, Order(h), 0));
    FitsSources(Fresh(map[]));
    FitsSources(st);
    FitsExactly(h, st, SourceOp(INVOICE.(pence := 50)), "t", "i");
  }
}
