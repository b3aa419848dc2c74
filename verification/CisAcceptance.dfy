/**
 * Which books reconcile: an exact condition over the book's own records, with no running state. The
 * first refusal is left to the specification; this says when there is none.
 */
module CisAcceptance {
  import opened Prelude
  import opened Cis
  import opened CisProofs

  // ----- payments -----

  /**
   * The record can be taken after those before it: it is new, positive, dated within the verification and
   * by the statement's date, and a reversal takes from an earlier original no more than is left of it.
   */
  ghost predicate PaymentLawful(payments: map<string, Payment>, v: Verification, date: int, before: seq<string>, id: string) {
    && id in payments && id !in before
    && var p := payments[id];
       && p.cash > 0 && v.validFrom <= p.date <= v.validThrough && p.date <= date
       && match p.reversalOf
          case None => SumBy(before, Signed(payments)) + p.cash <= MAX_MONEY_PENCE
          case Some(o) =>
            && o in payments && o in before && payments[o].reversalOf.None? && payments[o].date <= p.date
            && SumBy(before, ReversalOf(payments, o)) + p.cash <= payments[o].cash
  }

  lemma PaymentExactly(payments: map<string, Payment>, v: Verification, date: int, taken: seq<string>, t: Tally, id: string)
    requires PaymentsOk(payments) && Tallies(payments, taken, t) && InLimit(t.cash)
    ensures PaymentRefusal(payments, v, date, t, id).None? <==> PaymentLawful(payments, v, date, taken, id)
  {
    CashNonneg(payments, taken, t);
    if id in payments && payments[id].reversalOf.Some? {
      var o := payments[id].reversalOf.value;
      assert o in taken && payments[o].reversalOf.None? ==> WithinOriginal(payments, taken, t, o);
    }
  }

  /** Each record can be taken after the earlier ones. */
  ghost predicate PaymentsLawful(payments: map<string, Payment>, v: Verification, date: int, taken: seq<string>, ids: seq<string>) {
    forall k :: 0 <= k < |ids| ==> PaymentLawful(payments, v, date, taken + ids[..k], ids[k])
  }

  lemma LawfulSplit(payments: map<string, Payment>, v: Verification, date: int, taken: seq<string>, ids: seq<string>, n: nat)
    requires |ids| == n + 1
    ensures PaymentsLawful(payments, v, date, taken, ids) <==>
            PaymentsLawful(payments, v, date, taken, ids[..n]) && PaymentLawful(payments, v, date, taken + ids[..n], ids[n])
  {
    assert forall k :: 0 <= k < n ==> ids[..n][..k] == ids[..k] && ids[..n][k] == ids[k];
    if PaymentsLawful(payments, v, date, taken, ids[..n]) && PaymentLawful(payments, v, date, taken + ids[..n], ids[n]) {
      forall k | 0 <= k < |ids|
        ensures PaymentLawful(payments, v, date, taken + ids[..k], ids[k])
      {
        if k < n {
          assert PaymentLawful(payments, v, date, taken + ids[..n][..k], ids[..n][k]);
        }
      }
    }
    if PaymentsLawful(payments, v, date, taken, ids) {
      forall k | 0 <= k < n
        ensures PaymentLawful(payments, v, date, taken + ids[..n][..k], ids[..n][k])
      {
        assert PaymentLawful(payments, v, date, taken + ids[..k], ids[k]);
      }
    }
  }

  lemma {:induction false} TakeSplit(payments: map<string, Payment>, v: Verification, date: int, t: Tally, ids: seq<string>, n: nat)
    requires |ids| == n + 1
    ensures var before, all := TakePayments(payments, v, date, t, ids[..n]), TakePayments(payments, v, date, t, ids);
            && (all.Ok? <==> before.Ok? && PaymentRefusal(payments, v, date, before.value, ids[n]).None?)
            && (all.Ok? ==> ids[n] in payments && all.value == Taken(before.value, payments[ids[n]]) && InLimit(all.value.cash))
  {
  }

  lemma {:induction false} PaymentsExactly(payments: map<string, Payment>, v: Verification, date: int, taken: seq<string>, t: Tally, ids: seq<string>)
    requires PaymentsOk(payments) && Tallies(payments, taken, t) && InLimit(t.cash)
    ensures TakePayments(payments, v, date, t, ids).Ok? <==> PaymentsLawful(payments, v, date, taken, ids)
    ensures TakePayments(payments, v, date, t, ids).Ok? ==> InLimit(TakePayments(payments, v, date, t, ids).value.cash)
    decreases |ids|
  {
    if ids != [] {
      var n := |ids| - 1;
      PaymentsExactly(payments, v, date, taken, t, ids[..n]);
      LawfulSplit(payments, v, date, taken, ids, n);
      TakeSplit(payments, v, date, t, ids, n);
      NextExactly(payments, v, date, taken, t, ids[..n], ids[n]);
    }
  }

  lemma {:induction false} NextExactly(payments: map<string, Payment>, v: Verification, date: int, taken: seq<string>, t: Tally, front: seq<string>, id: string)
    requires PaymentsOk(payments) && Tallies(payments, taken, t)
    requires var before := TakePayments(payments, v, date, t, front); before.Ok? ==> InLimit(before.value.cash)
    ensures var before := TakePayments(payments, v, date, t, front);
            before.Ok? ==> (PaymentRefusal(payments, v, date, before.value, id).None? <==> PaymentLawful(payments, v, date, taken + front, id))
  {
    var before := TakePayments(payments, v, date, t, front);
    if before.Ok? {
      PaymentsTally(payments, v, date, taken, t, front);
      PaymentExactly(payments, v, date, taken + front, before.value, id);
    }
  }

  // ----- a statement among those before it -----

  /** The statement continues the history: it names the one before, repeats no reference and goes back in no date. */
  predicate Continues(statements: seq<Statement>, n: nat)
    requires n < |statements|
  {
    var s := statements[n];
    && (n == 0 ==> s.previousId == None)
    && (n > 0 ==> s.previousId == Some(statements[n - 1].id) && statements[n - 1].documentDate <= s.documentDate
                  && s.verificationId == statements[n - 1].verificationId)
    && (forall m :: 0 <= m < n ==> statements[m].documentReference != s.documentReference)
    && (s.kind == Regular ==> s.correctionOf == None)
    && (s.kind == Correction ==> n > 0 && s.correctionOf == Some(statements[n - 1].id))
  }

  predicate FirstNamed(documents: seq<VatDocument>, id: string, d: int) {
    0 <= d < |documents| && documents[d].id == id && forall j :: 0 <= j < d ==> documents[j].id != id
  }

  predicate NotBefore(documents: seq<VatDocument>, id: string, d: int) {
    forall c :: 0 <= c < |documents| && FirstNamed(documents, id, c) ==> c <= d
  }

  /** The statement rests on the latest document by its date, under its own retention profile, and not on an earlier one than before. */
  ghost predicate Sourced(b: Book, documents: seq<VatDocument>, statements: seq<Statement>, n: nat, v: Verification, d: int)
    requires n < |statements|
  {
    var s := statements[n];
    && v.validFrom <= s.documentDate <= v.validThrough && s.documentDate <= s.taxMonthEnd
    && FirstNamed(documents, s.vatDocumentId, d) && documents[d].documentDate <= s.documentDate
    && (forall j :: d < j < |documents| ==> documents[j].documentDate > s.documentDate)
    && s.retentionProfileId in b.retentionProfiles && documents[d].retentionProfileId == s.retentionProfileId
    && (n > 0 ==> NotBefore(documents, statements[n - 1].vatDocumentId, d))
  }

  /** It claims no more than the document has, and unless it corrects, no less than the statement before. */
  predicate Claims(document: VatDocument, statements: seq<Statement>, n: nat)
    requires n < |statements|
  {
    var s := statements[n];
    && s.materials <= s.net && s.net + document.retained <= document.net && s.vat <= document.vatToSupplier
    && (n > 0 && s.kind == Regular ==>
          var p := statements[n - 1];
          p.net <= s.net && p.materials <= s.materials && p.vat <= s.vat && p.net - p.materials <= s.net - s.materials)
  }

  /** What is carried after these statements, under one verification. */
  ghost predicate CarriedAfter(documents: seq<VatDocument>, before: seq<Statement>, g: Progress) {
    && (if before == [] then g.previous == None && g.previousVatIndex == -1 && g.base == 0
        else
          var p := before[|before| - 1];
          g.previous == Some(p) && FirstNamed(documents, p.vatDocumentId, g.previousVatIndex) && g.base == p.net - p.materials)
    && (forall r :: r in g.references <==> exists m :: 0 <= m < |before| && before[m].documentReference == r)
  }

  lemma HistoryExactly(documents: seq<VatDocument>, statements: seq<Statement>, n: nat, g: Progress)
    requires n < |statements| && CarriedAfter(documents, statements[..n], g)
    ensures HistoryRefusal(g, statements[n]).None? <==> Continues(statements, n)
  {
    assert n > 0 ==> statements[..n][n - 1] == statements[n - 1];
    assert forall m :: 0 <= m < n ==> statements[..n][m] == statements[m];
  }

  lemma {:induction false} VatExactly(documents: seq<VatDocument>, id: string)
    ensures forall d :: FirstNamed(documents, id, d) <==> d < |documents| && d == VatIndex(documents, id)
  {
  }

  lemma {:induction false} SourceExactly(b: Book, verifications: map<string, Verification>, documents: seq<VatDocument>, statements: seq<Statement>, n: nat, g: Progress)
    requires n < |statements| && CarriedAfter(documents, statements[..n], g) && statements[n].verificationId in verifications
    ensures SourceRefusal(b, verifications, documents, g, statements[n]).None? <==>
            Sourced(b, documents, statements, n, verifications[statements[n].verificationId], VatIndex(documents, statements[n].vatDocumentId))
  {
    VatExactly(documents, statements[n].vatDocumentId);
    if n > 0 {
      assert statements[..n][n - 1] == statements[n - 1];
      VatExactly(documents, statements[n - 1].vatDocumentId);
    }
  }

  lemma AmountExactly(documents: seq<VatDocument>, document: VatDocument, statements: seq<Statement>, n: nat, g: Progress)
    requires n < |statements| && CarriedAfter(documents, statements[..n], g)
    ensures AmountRefusal(document, g, statements[n]).None? <==> Claims(document, statements, n)
  {
    assert n > 0 ==> statements[..n][n - 1] == statements[n - 1];
  }

  // ----- the figures -----

  predicate InRange(x: int) {
    -MAX_MONEY_PENCE <= x <= MAX_MONEY_PENCE
  }

  function DeductionFrom(s: Statement, v: Verification): int {
    Deduction(s.net - s.materials, v.status)
  }

  /** Every figure of the statement's row is a representable amount. */
  predicate FiguresFit(s: Statement, v: Verification, document: VatDocument, cash: int, deductionBefore: int, expectedBefore: int) {
    var deduction := DeductionFrom(s, v);
    var expected, invoice := s.net + s.vat - deduction, document.expectedCash - deduction;
    && InRange(s.net) && InRange(s.materials) && InRange(s.vat) && InRange(s.net - s.materials) && InRange(deduction) && InRange(cash)
    && InRange(expected) && InRange(expected - cash) && InRange(invoice) && InRange(invoice - cash)
    && InRange(document.vatToSupplier - s.vat) && InRange(document.net - document.retained - s.net)
    && InRange(deduction - deductionBefore) && InRange(expected - expectedBefore)
  }

  lemma FiguresExactly(g: Progress, s: Statement, v: Verification, document: VatDocument, cash: int)
    ensures RowInLimit(RowOf(g, s, v, document, cash)) <==> FiguresFit(s, v, document, cash, g.deduction, g.expected)
  {
  }

  // ----- one statement -----

  function DeductionBefore(statements: seq<Statement>, n: nat, v: Verification): int
    requires n <= |statements|
  {
    if n == 0 then 0 else DeductionFrom(statements[n - 1], v)
  }

  function ExpectedBefore(statements: seq<Statement>, n: nat, v: Verification): int
    requires n <= |statements|
  {
    if n == 0 then 0 else statements[n - 1].net + statements[n - 1].vat - DeductionFrom(statements[n - 1], v)
  }

  /** The statement is acceptable under its verification, on its document, after the statements before it. */
  ghost predicate StatementLawful(b: Book, payments: map<string, Payment>, documents: seq<VatDocument>, statements: seq<Statement>, n: nat,
                                  v: Verification, d: int)
    requires n < |statements|
  {
    var s := statements[n];
    && Continues(statements, n) && Sourced(b, documents, statements, n, v, d) && Claims(documents[d], statements, n)
    && PaymentsLawful(payments, v, s.documentDate, PaymentIds(statements[..n]), s.paymentIds)
    && FiguresFit(s, v, documents[d], SumBy(PaymentIds(statements[..n + 1]), Signed(payments)),
                  DeductionBefore(statements, n, v), ExpectedBefore(statements, n, v))
  }

  /** What is carried to the next statement. */
  ghost predicate Carried(verifications: map<string, Verification>, payments: map<string, Payment>, documents: seq<VatDocument>, before: seq<Statement>, g: Progress) {
    && CarriedAfter(documents, before, g) && Tallies(payments, PaymentIds(before), g.tally) && InLimit(g.tally.cash)
    && (before == [] ==> g.deduction == 0 && g.expected == 0)
    && (before != [] ==>
          var p := before[|before| - 1];
          && p.verificationId in verifications
          && g.deduction == DeductionFrom(p, verifications[p.verificationId])
          && g.expected == p.net + p.vat - g.deduction)
  }

  /** The checks before the payments. */
  lemma {:induction false} ChecksExactly(b: Book, verifications: map<string, Verification>, documents: seq<VatDocument>, statements: seq<Statement>, n: nat, g: Progress)
    requires n < |statements| && CarriedAfter(documents, statements[..n], g)
    ensures StatementRefusal(b, verifications, documents, g, statements[n]).None? <==>
            && Continues(statements, n) && statements[n].verificationId in verifications
            && var d := VatIndex(documents, statements[n].vatDocumentId);
               && Sourced(b, documents, statements, n, verifications[statements[n].verificationId], d)
               && Claims(documents[d], statements, n)
  {
    HistoryExactly(documents, statements, n, g);
    if statements[n].verificationId in verifications {
      SourceExactly(b, verifications, documents, statements, n, g);
      var d := VatIndex(documents, statements[n].vatDocumentId);
      if d < |documents| {
        AmountExactly(documents, documents[d], statements, n, g);
      }
    }
  }

  lemma {:induction false} TakeUnfolds(b: Book, verifications: map<string, Verification>, payments: map<string, Payment>, documents: seq<VatDocument>,
                    g: Progress, s: Statement, d: nat)
    requires StatementRefusal(b, verifications, documents, g, s).None? && d == VatIndex(documents, s.vatDocumentId)
    ensures s.verificationId in verifications && d < |documents|
    ensures var v := verifications[s.verificationId];
            var t := TakePayments(payments, v, s.documentDate, g.tally, s.paymentIds);
            var r := TakeStatement(b, verifications, payments, documents, g, s);
            && (r.Ok? <==> t.Ok? && RowInLimit(RowOf(g, s, v, documents[d], t.value.cash)))
            && (r.Ok? ==> r.value == Advanced(g, s, d, t.value, RowOf(g, s, v, documents[d], t.value.cash)))
  {
  }

  lemma CarriedPlainly(verifications: map<string, Verification>, payments: map<string, Payment>, documents: seq<VatDocument>, statements: seq<Statement>,
                       n: nat, g: Progress, v: Verification)
    requires n < |statements| && Carried(verifications, payments, documents, statements[..n], g)
    requires n > 0 ==> statements[n].verificationId == statements[n - 1].verificationId
    requires statements[n].verificationId in verifications && v == verifications[statements[n].verificationId]
    ensures g.deduction == DeductionBefore(statements, n, v) && g.expected == ExpectedBefore(statements, n, v)
  {
    assert n > 0 ==> statements[..n][n - 1] == statements[n - 1];
  }

  /** The statement's verification is on record, and it is acceptable under it on the document it names. */
  ghost predicate Accepted(b: Book, verifications: map<string, Verification>, payments: map<string, Payment>, documents: seq<VatDocument>,
                           statements: seq<Statement>, n: nat)
    requires n < |statements|
  {
    && statements[n].verificationId in verifications
    && StatementLawful(b, payments, documents, statements, n, verifications[statements[n].verificationId], VatIndex(documents, statements[n].vatDocumentId))
  }

  lemma {:induction false} PaymentsThrough(payments: map<string, Payment>, v: Verification, statements: seq<Statement>, n: nat, t: Tally)
    requires n < |statements| && PaymentsOk(payments) && Tallies(payments, PaymentIds(statements[..n]), t) && InLimit(t.cash)
    ensures var s := statements[n];
            var after := TakePayments(payments, v, s.documentDate, t, s.paymentIds);
            && (after.Ok? <==> PaymentsLawful(payments, v, s.documentDate, PaymentIds(statements[..n]), s.paymentIds))
            && (after.Ok? ==>
                  && InLimit(after.value.cash) && Tallies(payments, PaymentIds(statements[..n + 1]), after.value)
                  && after.value.cash == SumBy(PaymentIds(statements[..n + 1]), Signed(payments)))
  {
    var s := statements[n];
    PaymentsExactly(payments, v, s.documentDate, PaymentIds(statements[..n]), t, s.paymentIds);
    assert statements[..n + 1] == statements[..n] + [s];
    if TakePayments(payments, v, s.documentDate, t, s.paymentIds).Ok? {
      TallyArrives(payments, v, statements[..n], t, s, TakePayments(payments, v, s.documentDate, t, s.paymentIds).value);
    }
  }

  lemma StatementExactly(b: Book, verifications: map<string, Verification>, payments: map<string, Payment>, documents: seq<VatDocument>,
                         statements: seq<Statement>, n: nat, g: Progress)
    requires n < |statements| && PaymentsOk(payments) && Carried(verifications, payments, documents, statements[..n], g)
    ensures TakeStatement(b, verifications, payments, documents, g, statements[n]).Ok? <==> Accepted(b, verifications, payments, documents, statements, n)
  {
    var s := statements[n];
    ChecksExactly(b, verifications, documents, statements, n, g);
    if StatementRefusal(b, verifications, documents, g, s).None? {
      var v, d := verifications[s.verificationId], VatIndex(documents, s.vatDocumentId);
      TakeUnfolds(b, verifications, payments, documents, g, s, d);
      PaymentsThrough(payments, v, statements, n, g.tally);
      CarriedPlainly(verifications, payments, documents, statements, n, g, v);
      var t := TakePayments(payments, v, s.documentDate, g.tally, s.paymentIds);
      if t.Ok? {
        FiguresExactly(g, s, v, documents[d], t.value.cash);
      }
    }
  }

  lemma AdvancedAfter(documents: seq<VatDocument>, before: seq<Statement>, g: Progress, s: Statement, d: int, t: Tally, r: Row)
    requires CarriedAfter(documents, before, g) && FirstNamed(documents, s.vatDocumentId, d) && r.base == s.net - s.materials
    ensures CarriedAfter(documents, before + [s], Advanced(g, s, d, t, r))
  {
    var all, after := before + [s], Advanced(g, s, d, t, r);
    assert all[|all| - 1] == s;
    forall x
      ensures x in after.references <==> exists m :: 0 <= m < |all| && all[m].documentReference == x
    {
      if m :| 0 <= m < |before| && before[m].documentReference == x {
        assert all[m] == before[m];
      }
      if x == s.documentReference {
        assert all[|before|].documentReference == x;
      }
    }
  }

  lemma {:induction false} AdvancedCarries(verifications: map<string, Verification>, payments: map<string, Payment>, documents: seq<VatDocument>, before: seq<Statement>,
                        g: Progress, s: Statement, v: Verification, d: int, t: Tally)
    requires CarriedAfter(documents, before, g) && FirstNamed(documents, s.vatDocumentId, d)
    requires Tallies(payments, PaymentIds(before + [s]), t) && InLimit(t.cash)
    requires s.verificationId in verifications && v == verifications[s.verificationId]
    ensures Carried(verifications, payments, documents, before + [s], Advanced(g, s, d, t, RowOf(g, s, v, documents[d], t.cash)))
  {
    AdvancedAfter(documents, before, g, s, d, t, RowOf(g, s, v, documents[d], t.cash));
    assert (before + [s])[|before|] == s;
  }

  lemma TakeGives(b: Book, verifications: map<string, Verification>, payments: map<string, Payment>, documents: seq<VatDocument>, g: Progress, s: Statement)
    returns (v: Verification, d: nat, t: Tally)
    requires TakeStatement(b, verifications, payments, documents, g, s).Ok?
    ensures s.verificationId in verifications && v == verifications[s.verificationId] && FirstNamed(documents, s.vatDocumentId, d)
    ensures TakePayments(payments, v, s.documentDate, g.tally, s.paymentIds) == Ok(t)
    ensures TakeStatement(b, verifications, payments, documents, g, s).value == Advanced(g, s, d, t, RowOf(g, s, v, documents[d], t.cash))
  {
    d := VatIndex(documents, s.vatDocumentId);
    TakeUnfolds(b, verifications, payments, documents, g, s, d);
    v := verifications[s.verificationId];
    t := TakePayments(payments, v, s.documentDate, g.tally, s.paymentIds).value;
  }

  lemma {:induction false} TalliesOn(payments: map<string, Payment>, v: Verification, before: seq<Statement>, s: Statement, t: Tally, after: Tally)
    requires PaymentsOk(payments) && Tallies(payments, PaymentIds(before), t) && InLimit(t.cash)
    requires TakePayments(payments, v, s.documentDate, t, s.paymentIds) == Ok(after)
    ensures Tallies(payments, PaymentIds(before + [s]), after) && InLimit(after.cash)
  {
    PaymentsExactly(payments, v, s.documentDate, PaymentIds(before), t, s.paymentIds);
    TallyArrives(payments, v, before, t, s, after);
  }

  lemma {:induction false} CarriesOn(verifications: map<string, Verification>, payments: map<string, Payment>, documents: seq<VatDocument>, before: seq<Statement>,
                  g: Progress, s: Statement, v: Verification, d: int, t: Tally)
    requires PaymentsOk(payments) && Carried(verifications, payments, documents, before, g)
    requires s.verificationId in verifications && v == verifications[s.verificationId] && FirstNamed(documents, s.vatDocumentId, d)
    requires TakePayments(payments, v, s.documentDate, g.tally, s.paymentIds) == Ok(t)
    ensures Carried(verifications, payments, documents, before + [s], Advanced(g, s, d, t, RowOf(g, s, v, documents[d], t.cash)))
  {
    TalliesOn(payments, v, before, s, g.tally, t);
    AdvancedCarries(verifications, payments, documents, before, g, s, v, d, t);
  }

  lemma StatementCarries(b: Book, verifications: map<string, Verification>, payments: map<string, Payment>, documents: seq<VatDocument>,
                         before: seq<Statement>, g: Progress, s: Statement, after: Progress)
    requires PaymentsOk(payments) && Carried(verifications, payments, documents, before, g)
    requires TakeStatement(b, verifications, payments, documents, g, s) == Ok(after)
    ensures Carried(verifications, payments, documents, before + [s], after)
  {
    var v, d, t := TakeGives(b, verifications, payments, documents, g, s);
    CarriesOn(verifications, payments, documents, before, g, s, v, d, t);
  }

  lemma LastTaken(b: Book, verifications: map<string, Verification>, payments: map<string, Payment>, documents: seq<VatDocument>,
                  before: seq<Statement>, s: Statement, after: Progress) returns (g: Progress)
    requires TakeStatements(b, verifications, payments, documents, before + [s]) == Ok(after)
    ensures TakeStatements(b, verifications, payments, documents, before) == Ok(g)
    ensures TakeStatement(b, verifications, payments, documents, g, s) == Ok(after)
  {
    assert (before + [s])[..|before|] == before;
    g := TakeStatements(b, verifications, payments, documents, before).value;
  }

  lemma {:induction false} StatementsCarry(b: Book, verifications: map<string, Verification>, payments: map<string, Payment>, documents: seq<VatDocument>,
                                           statements: seq<Statement>, after: Progress)
    requires PaymentsOk(payments) && TakeStatements(b, verifications, payments, documents, statements) == Ok(after)
    ensures Carried(verifications, payments, documents, statements, after)
    decreases |statements|
  {
    if statements != [] {
      var before, s := statements[..|statements| - 1], statements[|statements| - 1];
      assert statements == before + [s];
      var g := LastTaken(b, verifications, payments, documents, before, s, after);
      StatementsCarry(b, verifications, payments, documents, before, g);
      StatementCarries(b, verifications, payments, documents, before, g, s, after);
    }
  }

  lemma {:induction false} OneMore(b: Book, verifications: map<string, Verification>, payments: map<string, Payment>, documents: seq<VatDocument>,
                statements: seq<Statement>, n: nat)
    requires n < |statements| && PaymentsOk(payments)
    ensures TakeStatements(b, verifications, payments, documents, statements[..n + 1]).Ok? <==>
            TakeStatements(b, verifications, payments, documents, statements[..n]).Ok? && Accepted(b, verifications, payments, documents, statements, n)
  {
    assert statements[..n + 1][..n] == statements[..n];
    var before := TakeStatements(b, verifications, payments, documents, statements[..n]);
    if before.Ok? {
      StatementsCarry(b, verifications, payments, documents, statements[..n], before.value);
      StatementExactly(b, verifications, payments, documents, statements, n, before.value);
    }
  }

  lemma {:induction false} AllSteps(ok: nat -> bool, good: nat -> bool, n: nat)
    requires ok(0) && forall k: nat :: k < n ==> (ok(k + 1) <==> ok(k) && good(k))
    ensures ok(n) <==> forall k: nat :: k < n ==> good(k)
  {
    if n > 0 {
      AllSteps(ok, good, n - 1);
      assert ok(n - 1 + 1) <==> ok(n - 1) && good(n - 1);
    }
  }

  lemma {:induction false} StatementsExactly(b: Book, verifications: map<string, Verification>, payments: map<string, Payment>, documents: seq<VatDocument>,
                          statements: seq<Statement>)
    requires PaymentsOk(payments)
    ensures TakeStatements(b, verifications, payments, documents, statements).Ok? <==>
            forall n: nat :: n < |statements| ==> Accepted(b, verifications, payments, documents, statements, n)
  {
    var ok := (n: nat) => n <= |statements| && TakeStatements(b, verifications, payments, documents, statements[..n]).Ok?;
    var good := (n: nat) => n < |statements| && Accepted(b, verifications, payments, documents, statements, n);
    forall k: nat | k < |statements|
      ensures ok(k + 1) <==> ok(k) && good(k)
    {
      OneMore(b, verifications, payments, documents, statements, k);
    }
    AllSteps(ok, good, |statements|);
    assert statements[..|statements|] == statements;
    forall n: nat | n < |statements|
      ensures good(n) <==> Accepted(b, verifications, payments, documents, statements, n)
    {
    }
  }

  // ----- the sources -----

  function RecordIds(b: Book): seq<string> {
    Map(b.verifications, (v: Verification) => v.id) + Map(b.payments, (p: Payment) => p.id) + Map(b.statements, (s: Statement) => s.id)
  }

  /** Every record belongs to the book's tenant and job, and the books it draws on to its parties. */
  predicate InContext(b: Book) {
    && (forall v :: v in b.verifications ==>
          v.tenant == b.tenant && v.job == b.job && v.contractor == b.contractor && v.subcontractor == b.subcontractor)
    && (forall p :: p in b.payments ==> p.tenant == b.tenant && p.job == b.job)
    && (forall s :: s in b.statements ==> s.tenant == b.tenant && s.job == b.job)
    && b.vatTenant == b.tenant && b.vatJob == b.job && b.retentionTenant == b.tenant && b.retentionJob == b.job
    && b.vatSupplier == b.subcontractor && b.vatCustomer == b.contractor
  }

  /** Verifications run forwards, and those of different status never overlap. */
  predicate Consistent(verifications: seq<Verification>) {
    && (forall v :: v in verifications ==> v.validFrom <= v.validThrough)
    && (forall i, j :: 0 <= i < j < |verifications| ==>
          || verifications[i].status == verifications[j].status
          || verifications[i].validThrough < verifications[j].validFrom || verifications[j].validThrough < verifications[i].validFrom)
  }

  ghost predicate SourcesLawful(b: Book) {
    InContext(b) && Distinct(RecordIds(b)) && Consistent(b.verifications)
  }

  lemma {:induction false} IdentityExactly(tenant: string, job: string, records: seq<Identity>, seen: set<string>)
    ensures IdentityRefusal(tenant, job, records, seen).None? <==>
            && (forall i :: 0 <= i < |records| ==> records[i].tenant == tenant && records[i].job == job && records[i].id !in seen)
            && (forall i, j :: 0 <= i < j < |records| ==> records[i].id != records[j].id)
    decreases |records|
  {
    if records != [] {
      var rest, more := records[1..], seen + {records[0].id};
      IdentityExactly(tenant, job, rest, more);
      assert forall i :: 0 <= i < |rest| ==> rest[i] == records[i + 1];
      if IdentityRefusal(tenant, job, records, seen).None? {
        forall i | 0 <= i < |records|
          ensures records[i].tenant == tenant && records[i].job == job && records[i].id !in seen
          ensures forall j :: i < j < |records| ==> records[i].id != records[j].id
        {
          assert i > 0 ==> records[i] == rest[i - 1];
          forall j | i < j < |records|
            ensures records[i].id != records[j].id
          {
            assert records[j] == rest[j - 1];
          }
        }
      }
    }
  }

  lemma {:induction false} PartiesExactly(b: Book, verifications: seq<Verification>)
    ensures PartiesRefusal(b, verifications).None? <==>
            forall v :: v in verifications ==> v.contractor == b.contractor && v.subcontractor == b.subcontractor && v.validFrom <= v.validThrough
    decreases |verifications|
  {
    if verifications != [] {
      PartiesExactly(b, verifications[1..]);
      assert forall v :: v in verifications <==> v == verifications[0] || v in verifications[1..];
    }
  }

  predicate Placed(tenant: string, job: string, records: seq<Identity>) {
    forall r :: r in records ==> r.tenant == tenant && r.job == job
  }

  lemma PlacedMapped<T>(tenant: string, job: string, items: seq<T>, f: T -> Identity)
    ensures Placed(tenant, job, Map(items, f)) <==> forall x :: x in items ==> f(x).tenant == tenant && f(x).job == job
  {
    if Placed(tenant, job, Map(items, f)) {
      forall x | x in items
        ensures f(x).tenant == tenant && f(x).job == job
      {
        var i :| 0 <= i < |items| && items[i] == x;
        assert Map(items, f)[i] in Map(items, f);
      }
    }
  }

  lemma PlacedTogether(tenant: string, job: string, a: seq<Identity>, b: seq<Identity>, c: seq<Identity>)
    ensures Placed(tenant, job, a + b + c) <==> Placed(tenant, job, a) && Placed(tenant, job, b) && Placed(tenant, job, c)
  {
    assert forall r :: r in a + b + c <==> r in a || r in b || r in c;
  }

  lemma IdsAlike(b: Book)
    ensures |Identities(b)| == |RecordIds(b)| && forall i :: 0 <= i < |Identities(b)| ==> Identities(b)[i].id == RecordIds(b)[i]
  {
  }

  lemma IdentitiesExactly(b: Book)
    ensures IdentityRefusal(b.tenant, b.job, Identities(b), {}).None? <==> Distinct(RecordIds(b)) && Placed(b.tenant, b.job, Identities(b))
  {
    var all, ids := Identities(b), RecordIds(b);
    IdentityExactly(b.tenant, b.job, all, {});
    IdsAlike(b);
    if Placed(b.tenant, b.job, all) {
      assert forall i :: 0 <= i < |all| ==> all[i] in all;
    }
  }

  lemma ContextExactly(b: Book)
    ensures Placed(b.tenant, b.job, Identities(b)) <==>
            && (forall v :: v in b.verifications ==> v.tenant == b.tenant && v.job == b.job)
            && (forall p :: p in b.payments ==> p.tenant == b.tenant && p.job == b.job)
            && (forall s :: s in b.statements ==> s.tenant == b.tenant && s.job == b.job)
  {
    var f, g, h := (v: Verification) => Identity(v.tenant, v.job, v.id), (p: Payment) => Identity(p.tenant, p.job, p.id), (s: Statement) => Identity(s.tenant, s.job, s.id);
    PlacedMapped(b.tenant, b.job, b.verifications, f);
    PlacedMapped(b.tenant, b.job, b.payments, g);
    PlacedMapped(b.tenant, b.job, b.statements, h);
    PlacedTogether(b.tenant, b.job, Map(b.verifications, f), Map(b.payments, g), Map(b.statements, h));
  }

  lemma SourcesExactly(b: Book)
    ensures SourcesRefusal(b).None? <==> SourcesLawful(b)
  {
    IdentitiesExactly(b);
    ContextExactly(b);
    PartiesExactly(b, b.verifications);
    ConflictsExactly(b.verifications);
  }

  lemma ConflictsExactly(verifications: seq<Verification>)
    ensures Consistent(verifications) <==>
            && (forall v :: v in verifications ==> v.validFrom <= v.validThrough)
            && !exists i, j :: 0 <= i < j < |verifications| && Conflict(verifications[i], verifications[j])
  {
    if Consistent(verifications) {
      forall i, j | 0 <= i < j < |verifications|
        ensures !Conflict(verifications[i], verifications[j])
      {
      }
    }
    if !exists i, j :: 0 <= i < j < |verifications| && Conflict(verifications[i], verifications[j]) {
      forall i, j | 0 <= i < j < |verifications|
        ensures || verifications[i].status == verifications[j].status
                || verifications[i].validThrough < verifications[j].validFrom || verifications[j].validThrough < verifications[i].validFrom
      {
        assert !Conflict(verifications[i], verifications[j]);
      }
    }
  }

  // ----- the book -----

  /** Its lists are within their limits and its amounts are representable and not negative. */
  predicate Representable(b: Book) {
    && 1 <= |b.verifications| <= 1000 && |b.payments| <= 1000 && 1 <= |b.statements| <= 1000
    && (forall p :: p in b.payments ==> 0 <= p.cash <= MAX_MONEY_PENCE)
    && (forall s :: s in b.statements ==>
          && 0 <= s.net <= MAX_MONEY_PENCE && 0 <= s.materials <= MAX_MONEY_PENCE && 0 <= s.vat <= MAX_MONEY_PENCE
          && |s.paymentIds| <= 1000)
  }

  /** Some verification and document on record make the statement acceptable. */
  ghost predicate Supported(b: Book, documents: seq<VatDocument>, n: nat)
    requires n < |b.statements|
  {
    exists v, d :: v in b.verifications && v.id == b.statements[n].verificationId
                   && StatementLawful(b, PaymentMap(b.payments), documents, b.statements, n, v, d)
  }

  lemma {:induction false} VerificationsMapped(verifications: seq<Verification>)
    ensures forall v :: v in verifications ==> v.id in VerificationMap(verifications)
  {
    if verifications != [] {
      var n := |verifications| - 1;
      VerificationsMapped(verifications[..n]);
      assert forall v :: v in verifications <==> v == verifications[n] || v in verifications[..n];
    }
  }

  lemma OneVerification(b: Book, v: Verification, w: Verification)
    requires Distinct(RecordIds(b)) && v in b.verifications && w in b.verifications && v.id == w.id
    ensures v == w
  {
    var i :| 0 <= i < |b.verifications| && b.verifications[i] == v;
    var j :| 0 <= j < |b.verifications| && b.verifications[j] == w;
    assert RecordIds(b)[i] == v.id && RecordIds(b)[j] == w.id;
  }

  lemma SupportedExactly(b: Book, documents: seq<VatDocument>, n: nat)
    requires Distinct(RecordIds(b)) && n < |b.statements|
    ensures Supported(b, documents, n) <==> Accepted(b, VerificationMap(b.verifications), PaymentMap(b.payments), documents, b.statements, n)
  {
    var s, map_ := b.statements[n], VerificationMap(b.verifications);
    VerificationsMapped(b.verifications);
    VatExactly(documents, s.vatDocumentId);
    if v, d :| v in b.verifications && v.id == s.verificationId && StatementLawful(b, PaymentMap(b.payments), documents, b.statements, n, v, d) {
      OneVerification(b, v, map_[s.verificationId]);
    }
  }

  lemma AllTaken(b: Book, used: set<string>, taken: seq<string>)
    requires (forall id :: id in used <==> id in taken) && forall id :: id in taken ==> id in PaymentMap(b.payments)
    ensures |used| == |PaymentMap(b.payments)| <==> forall p :: p in b.payments ==> p.id in taken
  {
    var payments := PaymentMap(b.payments);
    assert used <= payments.Keys;
    if |used| == |payments| {
      SubsetOfSameSize(used, payments.Keys);
    }
    if forall p :: p in b.payments ==> p.id in taken {
      forall k | k in payments
        ensures k in used
      {
        assert payments[k] in b.payments;
      }
      assert used == payments.Keys;
    }
  }

  /** What a book must be to reconcile. */
  ghost predicate Reconcilable(b: Book, documents: seq<VatDocument>) {
    && Representable(b) && SourcesLawful(b)
    && (forall i, j :: 0 <= i < j < |b.payments| ==> b.payments[i].reference != b.payments[j].reference)
    && (forall n: nat :: n < |b.statements| ==> Supported(b, documents, n))
    && (forall p :: p in b.payments ==> p.id in PaymentIds(b.statements))
  }

  lemma {:induction false} TakenExactly(b: Book, documents: seq<VatDocument>)
    requires Representable(b) && SourcesLawful(b)
    ensures var r := TakeStatements(b, VerificationMap(b.verifications), PaymentMap(b.payments), documents, b.statements);
            && (r.Ok? <==> forall n: nat :: n < |b.statements| ==> Supported(b, documents, n))
            && (r.Ok? ==> (|r.value.tally.used| == |PaymentMap(b.payments)| <==> forall p :: p in b.payments ==> p.id in PaymentIds(b.statements)))
  {
    var verifications, payments := VerificationMap(b.verifications), PaymentMap(b.payments);
    StatementsExactly(b, verifications, payments, documents, b.statements);
    forall n: nat | n < |b.statements|
      ensures Supported(b, documents, n) <==> Accepted(b, verifications, payments, documents, b.statements, n)
    {
      SupportedExactly(b, documents, n);
    }
    var r := TakeStatements(b, verifications, payments, documents, b.statements);
    if r.Ok? {
      StatementsCarry(b, verifications, payments, documents, b.statements, r.value);
      AllTaken(b, r.value.tally.used, PaymentIds(b.statements));
    }
  }

  lemma {:induction false} ReconcileUnfolds(b: Book, vat: Result<seq<VatDocument>, Code>, taken: Result<Progress, Code>)
    requires vat.Ok? && taken == TakeStatements(b, VerificationMap(b.verifications), PaymentMap(b.payments), vat.value, b.statements)
    ensures Reconcile(b, vat).Ok? <==>
            && BookOk(b) && SourcesRefusal(b).None? && ReferencesDiffer(b.payments)
            && taken.Ok? && |taken.value.tally.used| == |PaymentMap(b.payments)|
  {
  }

  lemma ReconcileNeeds(b: Book, vat: Result<seq<VatDocument>, Code>)
    requires vat.Err? || !BookOk(b) || SourcesRefusal(b).Some?
    ensures Reconcile(b, vat).Err?
  {
  }

  lemma RepresentableExactly(b: Book)
    ensures BookOk(b) <==> Representable(b)
  {
    if Representable(b) {
      forall s | s in b.statements
        ensures StatementOk(s)
      {
      }
    }
    if BookOk(b) {
      forall s | s in b.statements
        ensures 0 <= s.net <= MAX_MONEY_PENCE && 0 <= s.materials <= MAX_MONEY_PENCE && 0 <= s.vat <= MAX_MONEY_PENCE && |s.paymentIds| <= 1000
      {
        assert StatementOk(s);
      }
    }
  }

  /** A book reconciles exactly if its VAT and retention do and it is reconcilable. */
  lemma ReconciledExactly(b: Book, vat: Result<seq<VatDocument>, Code>)
    ensures Reconcile(b, vat).Ok? <==> vat.Ok? && Reconcilable(b, vat.value)
  {
    SourcesExactly(b);
    RepresentableExactly(b);
    if Representable(b) && SourcesLawful(b) && vat.Ok? {
      TakenExactly(b, vat.value);
      ReconcileUnfolds(b, vat, TakeStatements(b, VerificationMap(b.verifications), PaymentMap(b.payments), vat.value, b.statements));
    } else {
      ReconcileNeeds(b, vat);
    }
  }
}
