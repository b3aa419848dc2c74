/** What a reconciled CIS book guarantees. */
module CisProofs {
  import opened Prelude
  import opened Cis

  // ----- rounding -----

  /** The rounded quotient is within half a unit. */
  lemma HalfUpNear(n: int, d: int)
    requires n >= 0 && d > 0
    ensures var q := DivideHalfUp(n, d); q >= 0 && 2 * n - d < 2 * q * d <= 2 * n + d
  {
    assert n == (n / d) * d + n % d;
    assert (n / d + 1) * d == (n / d) * d + d;
  }

  lemma NearbyKeepOrder(p: int, q: int, m: int, n: int, d: int)
    requires m <= n && d > 0
    requires 2 * p * d <= 2 * m + d && 2 * n - d < 2 * q * d
    ensures p <= q
  {
    MulKeepsOrder(d, q + 1, p);
    assert d * (q + 1) == q * d + d && d * p == p * d;
  }

  /** Rounding keeps the order. */
  lemma HalfUpKeepsOrder(m: int, n: int, d: int)
    requires 0 <= m <= n && d > 0
    ensures DivideHalfUp(m, d) <= DivideHalfUp(n, d)
  {
    HalfUpNear(m, d);
    HalfUpNear(n, d);
    NearbyKeepOrder(DivideHalfUp(m, d), DivideHalfUp(n, d), m, n, d);
  }

  lemma DeductionBounds(base: int, s: Status)
    requires base >= 0
    ensures 0 <= Deduction(base, s) <= base
  {
    HalfUpNear(base * Rate(s), 100);
  }

  lemma DeductionKeepsOrder(a: int, b: int, s: Status)
    requires 0 <= a <= b
    ensures Deduction(a, s) <= Deduction(b, s)
  {
    HalfUpKeepsOrder(a * Rate(s), b * Rate(s), 100);
  }

  // ----- cash -----

  ghost predicate PaymentsOk(payments: map<string, Payment>) {
    forall k :: k in payments ==> payments[k].id == k && PenceOk(payments[k].cash)
  }

  /** What a payment adds to the cash. */
  function Signed(payments: map<string, Payment>): string -> int {
    (id: string) => if id !in payments then 0 else if payments[id].reversalOf.None? then payments[id].cash else -payments[id].cash
  }

  /** What is left of an original payment after its reversals. */
  function Left(payments: map<string, Payment>, reversed: map<string, int>): string -> int {
    (id: string) => if id !in payments || payments[id].reversalOf.Some? then 0
                    else payments[id].cash - if id in reversed then reversed[id] else 0
  }

  /** The amount a taken record reverses of one original. */
  function ReversalOf(payments: map<string, Payment>, original: string): string -> int {
    (id: string) => if id in payments && payments[id].reversalOf == Some(original) then payments[id].cash else 0
  }

  /**
   * The tally is what taking these records, in this order, comes to: cash is originals less reversals,
   * which is also what is left of the originals, none of them overdrawn.
   */
  ghost predicate Tallies(payments: map<string, Payment>, taken: seq<string>, t: Tally) {
    && Distinct(taken) && (forall id :: id in t.used <==> id in taken) && (forall id :: id in taken ==> id in payments)
    && t.cash == SumBy(taken, Signed(payments)) == SumBy(taken, Left(payments, t.reversed))
    && (forall id :: id in taken ==> EarlierOriginal(payments, taken, id))
    && (forall o :: o in t.reversed ==> o in taken && payments[o].reversalOf.None?)
    && (forall o :: o in taken && payments[o].reversalOf.None? ==> WithinOriginal(payments, taken, t, o))
  }

  /** A reversal's original is a taken record that is not a reversal itself. */
  ghost predicate EarlierOriginal(payments: map<string, Payment>, taken: seq<string>, id: string)
    requires id in payments
  {
    var p := payments[id];
    p.reversalOf.Some? ==> p.reversalOf.value in taken && p.reversalOf.value in payments && payments[p.reversalOf.value].reversalOf.None?
  }

  /** The reversals of an original are what the tally holds for it, and never exceed it. */
  ghost predicate WithinOriginal(payments: map<string, Payment>, taken: seq<string>, t: Tally, o: string)
    requires o in payments
  {
    0 <= SumBy(taken, ReversalOf(payments, o)) == ReversedSoFar(t, o) <= payments[o].cash
  }

  lemma {:induction false} SumOneMore(taken: seq<string>, id: string, f: string -> int)
    ensures SumBy(taken + [id], f) == SumBy(taken, f) + f(id)
  {
    SumByAppend(taken, [id], f);
    assert [id][1..] == [];
  }

  /** Changing the summed function at one element of a sequence without repetition. */
  lemma {:induction false} SumChangedAt(taken: seq<string>, o: string, f: string -> int, g: string -> int)
    requires Distinct(taken) && o in taken && forall x :: x != o ==> f(x) == g(x)
    ensures SumBy(taken, g) == SumBy(taken, f) - f(o) + g(o)
  {
    var k :| 0 <= k < |taken| && taken[k] == o;
    SumBySplit(taken, k, f);
    SumBySplit(taken, k, g);
    SumByAgree(taken[..k], f, g);
    SumByAgree(taken[k + 1..], f, g);
  }

  /** Nothing was reversed of a payment that has not been taken yet. */
  lemma {:induction false} NothingReversed(payments: map<string, Payment>, taken: seq<string>, o: string)
    requires forall id :: id in taken ==> id in payments && payments[id].reversalOf != Some(o)
    ensures SumBy(taken, ReversalOf(payments, o)) == 0
  {
    if taken != [] {
      assert taken[0] in taken && forall id :: id in taken[1..] ==> id in taken;
      NothingReversed(payments, taken[1..], o);
    }
  }

  lemma {:induction false} LeftAfterReversal(payments: map<string, Payment>, taken: seq<string>, t: Tally, p: Payment)
    requires Distinct(taken) && p.reversalOf.Some? && p.reversalOf.value in taken && p.reversalOf.value in payments
    requires payments[p.reversalOf.value].reversalOf.None?
    ensures SumBy(taken, Left(payments, Taken(t, p).reversed)) == SumBy(taken, Left(payments, t.reversed)) - p.cash
  {
    SumChangedAt(taken, p.reversalOf.value, Left(payments, t.reversed), Left(payments, Taken(t, p).reversed));
  }

  lemma {:induction false} TakenCash(payments: map<string, Payment>, v: Verification, date: int, taken: seq<string>, t: Tally, id: string)
    requires PaymentsOk(payments) && Tallies(payments, taken, t) && PaymentRefusal(payments, v, date, t, id).None?
    ensures var after := Taken(t, payments[id]);
            after.cash == SumBy(taken + [id], Signed(payments)) == SumBy(taken + [id], Left(payments, after.reversed))
  {
    var p := payments[id];
    var after := Taken(t, p);
    SumOneMore(taken, id, Signed(payments));
    SumOneMore(taken, id, Left(payments, after.reversed));
    if p.reversalOf.Some? {
      LeftAfterReversal(payments, taken, t, p);
    }
  }

  lemma TakenWithin(payments: map<string, Payment>, v: Verification, date: int, taken: seq<string>, t: Tally, id: string, o: string)
    requires PaymentsOk(payments) && Tallies(payments, taken, t) && PaymentRefusal(payments, v, date, t, id).None?
    requires o in taken + [id] && payments[o].reversalOf.None?
    ensures WithinOriginal(payments, taken + [id], Taken(t, payments[id]), o)
  {
    SumOneMore(taken, id, ReversalOf(payments, o));
    if o == id {
      forall x | x in taken
        ensures x in payments && payments[x].reversalOf != Some(o)
      {
        assert EarlierOriginal(payments, taken, x);
      }
      NothingReversed(payments, taken, o);
    } else {
      assert WithinOriginal(payments, taken, t, o);
    }
  }

  lemma TakenTallies(payments: map<string, Payment>, v: Verification, date: int, taken: seq<string>, t: Tally, id: string)
    requires PaymentsOk(payments) && Tallies(payments, taken, t) && PaymentRefusal(payments, v, date, t, id).None?
    ensures Tallies(payments, taken + [id], Taken(t, payments[id]))
  {
    TakenCash(payments, v, date, taken, t, id);
    forall o | o in taken + [id] && payments[o].reversalOf.None?
      ensures WithinOriginal(payments, taken + [id], Taken(t, payments[id]), o)
    {
      TakenWithin(payments, v, date, taken, t, id, o);
    }
    forall x | x in taken + [id]
      ensures EarlierOriginal(payments, taken + [id], x)
    {
      assert x in taken ==> EarlierOriginal(payments, taken, x);
    }
  }

  lemma {:induction false} LeftNonneg(payments: map<string, Payment>, taken: seq<string>, reversed: map<string, int>)
    requires forall id :: id in taken ==> Left(payments, reversed)(id) >= 0
    ensures SumBy(taken, Left(payments, reversed)) >= 0
  {
    if taken != [] {
      LeftNonneg(payments, taken[1..], reversed);
    }
  }

  /** Cash never goes below zero. */
  lemma CashNonneg(payments: map<string, Payment>, taken: seq<string>, t: Tally)
    requires PaymentsOk(payments) && Tallies(payments, taken, t)
    ensures t.cash >= 0
  {
    forall id | id in taken
      ensures Left(payments, t.reversed)(id) >= 0
    {
      assert payments[id].reversalOf.None? ==> WithinOriginal(payments, taken, t, id);
    }
    LeftNonneg(payments, taken, t.reversed);
  }

  lemma {:induction false} PaymentsTally(payments: map<string, Payment>, v: Verification, date: int, taken: seq<string>, t: Tally, ids: seq<string>)
    requires PaymentsOk(payments) && Tallies(payments, taken, t) && TakePayments(payments, v, date, t, ids).Ok?
    ensures Tallies(payments, taken + ids, TakePayments(payments, v, date, t, ids).value)
    decreases |ids|
  {
    if ids == [] {
      assert taken + ids == taken;
    } else {
      var front, id := ids[..|ids| - 1], ids[|ids| - 1];
      assert taken + ids == taken + front + [id];
      var before := TakePayments(payments, v, date, t, front);
      assert before.Ok? && PaymentRefusal(payments, v, date, before.value, id).None?;
      assert TakePayments(payments, v, date, t, ids).value == Taken(before.value, payments[id]);
      PaymentsTally(payments, v, date, taken, t, front);
      TakenTallies(payments, v, date, taken + front, before.value, id);
    }
  }

  // ----- statements -----

  function DeltaDeduction(): Row -> int { (r: Row) => r.delta.deduction }

  function DeltaExpected(): Row -> int { (r: Row) => r.delta.expectedCash }

  /** The payment records of statements, in the order they are taken. */
  function PaymentIds(statements: seq<Statement>): seq<string> {
    if statements == [] then [] else PaymentIds(statements[..|statements| - 1]) + statements[|statements| - 1].paymentIds
  }

  /** An amount that is a number of hundredths of its base, rounded to the nearest penny with halves up. */
  predicate HalfUpShare(amount: int, base: int, hundredths: int) {
    2 * base * hundredths - 100 < 200 * amount <= 2 * base * hundredths + 100
  }

  /** The deduction is nothing, a fifth or three tenths of its base, by status. */
  predicate RightDeduction(amount: int, base: int, status: Status) {
    match status
    case GrossPayment => amount == 0
    case Registered => HalfUpShare(amount, base, 20)
    case Unregistered => HalfUpShare(amount, base, 30)
  }

  lemma DeductionRight(base: int, s: Status)
    requires base >= 0
    ensures RightDeduction(Deduction(base, s), base, s)
  {
    HalfUpNear(base * Rate(s), 100);
  }

  /** What is still to pay and what is to be refunded account for the difference, and never both. */
  predicate Owing(expected: int, cash: int, unpaid: int, refundDue: int) {
    unpaid >= 0 && refundDue >= 0 && unpaid - refundDue == expected - cash && (unpaid == 0 || refundDue == 0)
  }

  /** What a row says about its own statement. */
  predicate RowSound(r: Row) {
    && 0 <= r.source.materials <= r.source.net && r.base == r.source.net - r.source.materials
    && r.deduction == Deduction(r.base, r.verification.status) && RightDeduction(r.deduction, r.base, r.verification.status)
    && 0 <= r.deduction <= r.base && r.expected == r.source.net + r.source.vat - r.deduction
    && r.source.net <= r.vatSource.net - r.vatSource.retained && r.source.vat <= r.vatSource.vatToSupplier
    && Owing(r.expected, r.cash, r.unpaid, r.refundDue)
    && r.invoiceExpected == r.vatSource.expectedCash - r.deduction && Owing(r.invoiceExpected, r.cash, r.invoiceUnpaid, r.invoiceRefundDue)
    && r.unallocatedVat == r.vatSource.vatToSupplier - r.source.vat
    && r.unallocatedNet == r.vatSource.net - r.vatSource.retained - r.source.net
  }

  /** Rows after the first follow their predecessor. */
  predicate Follows(a: Row, b: Row) {
    && b.source.previousId == Some(a.source.id) && b.verification == a.verification && a.source.documentDate <= b.source.documentDate
    && b.delta == Delta(b.deduction - a.deduction, b.expected - a.expected)
    && (b.source.kind != Correction ==> a.deduction <= b.deduction && a.base <= b.base && a.source.net <= b.source.net)
  }

  /** A row among the rows so far: its own figures, its cash, and the deltas up to it. */
  ghost predicate RowAt(verifications: map<string, Verification>, payments: map<string, Payment>, statements: seq<Statement>, rows: seq<Row>, i: nat)
    requires i < |rows| == |statements|
  {
    && rows[i].source == statements[i] && RowSound(rows[i])
    && statements[i].verificationId in verifications && verifications[statements[i].verificationId] == rows[i].verification
    && rows[i].cash == SumBy(PaymentIds(statements[..i + 1]), Signed(payments)) && rows[i].cash >= 0
    && SumBy(rows[..i + 1], DeltaDeduction()) == rows[i].deduction
    && SumBy(rows[..i + 1], DeltaExpected()) == rows[i].expected
    && (i > 0 ==> Follows(rows[i - 1], rows[i]))
  }

  /** What holds after any number of statements. */
  ghost predicate Progresses(verifications: map<string, Verification>, payments: map<string, Payment>, statements: seq<Statement>, g: Progress) {
    && |g.rows| == |statements| && (forall i :: 0 <= i < |g.rows| ==> RowAt(verifications, payments, statements, g.rows, i))
    && Tallies(payments, PaymentIds(statements), g.tally)
    && Carries(g)
  }

  /** What is carried to the next statement is the last row's. */
  predicate Carries(g: Progress) {
    if g.rows == [] then g.previous == None && g.base == 0 && g.deduction == 0 && g.expected == 0
    else
      var last := g.rows[|g.rows| - 1];
      g.previous == Some(last.source) && g.base == last.base && g.deduction == last.deduction && g.expected == last.expected
  }

  lemma {:induction false} PaymentIdsAppend(statements: seq<Statement>, s: Statement)
    ensures PaymentIds(statements + [s]) == PaymentIds(statements) + s.paymentIds
  {
    assert (statements + [s])[..|statements|] == statements;
  }

  lemma RowStays(verifications: map<string, Verification>, payments: map<string, Payment>, statements: seq<Statement>, rows: seq<Row>,
                 s: Statement, r: Row, i: nat)
    requires i < |rows| == |statements| && RowAt(verifications, payments, statements, rows, i)
    ensures RowAt(verifications, payments, statements + [s], rows + [r], i)
  {
    assert (statements + [s])[..i + 1] == statements[..i + 1] && (rows + [r])[..i + 1] == rows[..i + 1];
  }

  lemma RowIsSound(g: Progress, s: Statement, v: Verification, document: VatDocument, cash: int)
    requires StatementOk(s) && AmountRefusal(document, g, s).None?
    ensures RowSound(RowOf(g, s, v, document, cash))
  {
    DeductionBounds(s.net - s.materials, v.status);
    DeductionRight(s.net - s.materials, v.status);
  }

  /** A new row follows the last one. */
  lemma RowFollows(g: Progress, last: Row, s: Statement, v: Verification, document: VatDocument, cash: int)
    requires g.previous == Some(last.source) && g.base == last.base && g.deduction == last.deduction && g.expected == last.expected
    requires RowSound(last) && v == last.verification
    requires HistoryRefusal(g, s).None? && AmountRefusal(document, g, s).None?
    ensures Follows(last, RowOf(g, s, v, document, cash))
  {
    if s.kind != Correction {
      DeductionKeepsOrder(last.base, s.net - s.materials, v.status);
    }
  }

  lemma {:induction false} SumRows(rows: seq<Row>, r: Row, f: Row -> int)
    ensures SumBy(rows + [r], f) == SumBy(rows, f) + f(r)
  {
    SumByAppend(rows, [r], f);
    assert [r][1..] == [];
  }

  lemma DeltasArrive(g: Progress, r: Row)
    requires Carries(g) && SumBy(g.rows, DeltaDeduction()) == g.deduction && SumBy(g.rows, DeltaExpected()) == g.expected
    requires r.delta == Delta(r.deduction - g.deduction, r.expected - g.expected)
    ensures SumBy((g.rows + [r])[..|g.rows| + 1], DeltaDeduction()) == r.deduction
    ensures SumBy((g.rows + [r])[..|g.rows| + 1], DeltaExpected()) == r.expected
  {
    assert (g.rows + [r])[..|g.rows| + 1] == g.rows + [r];
    SumRows(g.rows, r, DeltaDeduction());
    SumRows(g.rows, r, DeltaExpected());
  }

  /** The deltas so far come to the carried figures. */
  lemma DeltasCarried(verifications: map<string, Verification>, payments: map<string, Payment>, statements: seq<Statement>, g: Progress)
    requires Progresses(verifications, payments, statements, g)
    ensures SumBy(g.rows, DeltaDeduction()) == g.deduction && SumBy(g.rows, DeltaExpected()) == g.expected
    ensures g.rows != [] ==> RowSound(g.rows[|g.rows| - 1])
                             && statements[|g.rows| - 1].verificationId in verifications
                             && g.rows[|g.rows| - 1].verification == verifications[statements[|g.rows| - 1].verificationId]
                             && g.rows[|g.rows| - 1].source == statements[|g.rows| - 1]
  {
    if g.rows != [] {
      assert RowAt(verifications, payments, statements, g.rows, |g.rows| - 1);
      assert g.rows[..|g.rows| - 1 + 1] == g.rows;
    }
  }

  lemma {:induction false} CashArrives(payments: map<string, Payment>, statements: seq<Statement>, s: Statement, t: Tally)
    requires PaymentsOk(payments) && Tallies(payments, PaymentIds(statements) + s.paymentIds, t)
    ensures t.cash == SumBy(PaymentIds((statements + [s])[..|statements| + 1]), Signed(payments)) && t.cash >= 0
  {
    PaymentIdsUpTo(statements, s);
    CashNonneg(payments, PaymentIds(statements) + s.paymentIds, t);
  }

  lemma {:induction false} PaymentIdsUpTo(statements: seq<Statement>, s: Statement)
    ensures PaymentIds((statements + [s])[..|statements| + 1]) == PaymentIds(statements) + s.paymentIds
  {
    PaymentIdsAppend(statements, s);
    assert (statements + [s])[..|statements| + 1] == statements + [s];
  }

  /** The row of an accepted statement takes its place after the rows so far. */
  lemma RowArrives(verifications: map<string, Verification>, payments: map<string, Payment>, statements: seq<Statement>, g: Progress,
                   s: Statement, document: VatDocument, cash: int, r: Row)
    requires |g.rows| == |statements| && Carries(g) && StatementOk(s)
    requires SumBy(g.rows, DeltaDeduction()) == g.deduction && SumBy(g.rows, DeltaExpected()) == g.expected
    requires g.rows != [] ==> RowSound(g.rows[|g.rows| - 1])
                              && g.rows[|g.rows| - 1].source.verificationId in verifications
                              && g.rows[|g.rows| - 1].verification == verifications[g.rows[|g.rows| - 1].source.verificationId]
    requires HistoryRefusal(g, s).None? && AmountRefusal(document, g, s).None? && s.verificationId in verifications
    requires cash == SumBy(PaymentIds((statements + [s])[..|statements| + 1]), Signed(payments)) && cash >= 0
    requires r == RowOf(g, s, verifications[s.verificationId], document, cash)
    ensures RowAt(verifications, payments, statements + [s], g.rows + [r], |g.rows|)
  {
    var v := verifications[s.verificationId];
    RowIsSound(g, s, v, document, cash);
    DeltasArrive(g, r);
    if g.rows != [] {
      RowFollows(g, g.rows[|g.rows| - 1], s, v, document, cash);
    }
  }

  /** What accepting a statement comes to. */
  predicate Accepts(verifications: map<string, Verification>, payments: map<string, Payment>, g: Progress, s: Statement,
                    document: VatDocument, t: Tally, r: Row, after: Progress) {
    && HistoryRefusal(g, s).None? && AmountRefusal(document, g, s).None? && s.verificationId in verifications
    && TakePayments(payments, verifications[s.verificationId], s.documentDate, g.tally, s.paymentIds) == Ok(t)
    && r == RowOf(g, s, verifications[s.verificationId], document, t.cash)
    && after.rows == g.rows + [r] && after.tally == t && after.previous == Some(s)
    && after.base == r.base && after.deduction == r.deduction && after.expected == r.expected
  }

  lemma TakeAccepts(b: Book, verifications: map<string, Verification>, payments: map<string, Payment>, documents: seq<VatDocument>,
                    g: Progress, s: Statement) returns (document: VatDocument, t: Tally, r: Row)
    requires TakeStatement(b, verifications, payments, documents, g, s).Ok?
    ensures Accepts(verifications, payments, g, s, document, t, r, TakeStatement(b, verifications, payments, documents, g, s).value)
  {
    document := documents[VatIndex(documents, s.vatDocumentId)];
    t := TakePayments(payments, verifications[s.verificationId], s.documentDate, g.tally, s.paymentIds).value;
    r := RowOf(g, s, verifications[s.verificationId], document, t.cash);
  }

  lemma {:induction false} TallyArrives(payments: map<string, Payment>, v: Verification, statements: seq<Statement>, before: Tally, s: Statement, t: Tally)
    requires PaymentsOk(payments) && Tallies(payments, PaymentIds(statements), before)
    requires TakePayments(payments, v, s.documentDate, before, s.paymentIds) == Ok(t)
    ensures Tallies(payments, PaymentIds(statements) + s.paymentIds, t)
    ensures Tallies(payments, PaymentIds(statements + [s]), t)
  {
    PaymentsTally(payments, v, s.documentDate, PaymentIds(statements), before, s.paymentIds);
    PaymentIdsAppend(statements, s);
  }

  lemma RowsArrive(verifications: map<string, Verification>, payments: map<string, Payment>, statements: seq<Statement>,
                   g: Progress, s: Statement, document: VatDocument, t: Tally, r: Row, after: Progress, i: nat)
    requires Progresses(verifications, payments, statements, g) && StatementOk(s) && PaymentsOk(payments)
    requires Accepts(verifications, payments, g, s, document, t, r, after) && i <= |g.rows|
    ensures RowAt(verifications, payments, statements + [s], after.rows, i)
  {
    if i < |g.rows| {
      RowStays(verifications, payments, statements, g.rows, s, r, i);
    } else {
      TallyArrives(payments, verifications[s.verificationId], statements, g.tally, s, t);
      CashArrives(payments, statements, s, t);
      DeltasCarried(verifications, payments, statements, g);
      RowArrives(verifications, payments, statements, g, s, document, t.cash, r);
    }
  }

  lemma StatementProgresses(verifications: map<string, Verification>, payments: map<string, Payment>, statements: seq<Statement>,
                            g: Progress, s: Statement, document: VatDocument, t: Tally, r: Row, after: Progress)
    requires Progresses(verifications, payments, statements, g) && StatementOk(s) && PaymentsOk(payments)
    requires Accepts(verifications, payments, g, s, document, t, r, after)
    ensures Progresses(verifications, payments, statements + [s], after)
  {
    forall i | 0 <= i < |after.rows|
      ensures RowAt(verifications, payments, statements + [s], after.rows, i)
    {
      RowsArrive(verifications, payments, statements, g, s, document, t, r, after, i);
    }
    TallyArrives(payments, verifications[s.verificationId], statements, g.tally, s, t);
  }

  lemma {:induction false} StatementsProgress(b: Book, verifications: map<string, Verification>, payments: map<string, Payment>,
                                              documents: seq<VatDocument>, statements: seq<Statement>)
    requires PaymentsOk(payments) && forall s :: s in statements ==> StatementOk(s)
    requires TakeStatements(b, verifications, payments, documents, statements).Ok?
    ensures Progresses(verifications, payments, statements, TakeStatements(b, verifications, payments, documents, statements).value)
    decreases |statements|
  {
    if statements != [] {
      var n := |statements| - 1;
      var before := TakeStatements(b, verifications, payments, documents, statements[..n]);
      assert statements == statements[..n] + [statements[n]];
      StatementsProgress(b, verifications, payments, documents, statements[..n]);
      var document, t, r := TakeAccepts(b, verifications, payments, documents, before.value, statements[n]);
      StatementProgresses(verifications, payments, statements[..n], before.value, statements[n], document, t, r,
                          TakeStatements(b, verifications, payments, documents, statements).value);
    }
  }

  // ----- the ledger as a whole -----

  lemma {:induction false} IdentitiesDiffer(tenant: string, job: string, records: seq<Identity>, seen: set<string>)
    requires IdentityRefusal(tenant, job, records, seen).None?
    ensures forall i, j :: 0 <= i < j < |records| ==> records[i].id != records[j].id
    ensures forall i :: 0 <= i < |records| ==> records[i].id !in seen
    decreases |records|
  {
    if records != [] {
      IdentitiesDiffer(tenant, job, records[1..], seen + {records[0].id});
      forall i, j | 0 <= i < j < |records|
        ensures records[i].id != records[j].id
      {
        assert records[j] == records[1..][j - 1];
        assert i > 0 ==> records[i] == records[1..][i - 1];
      }
    }
  }

  function PaymentIdOf(): Payment -> string { (p: Payment) => p.id }

  lemma PaymentsDiffer(b: Book)
    requires SourcesRefusal(b).None?
    ensures Distinct(Map(b.payments, PaymentIdOf()))
  {
    IdentitiesDiffer(b.tenant, b.job, Identities(b), {});
    forall i, j | 0 <= i < j < |b.payments|
      ensures b.payments[i].id != b.payments[j].id
    {
      var n := |b.verifications|;
      assert Identities(b)[n + i].id == b.payments[i].id && Identities(b)[n + j].id == b.payments[j].id;
    }
  }

  lemma SubsetOfSameSize(a: set<string>, b: set<string>)
    requires a <= b && |a| == |b|
    ensures a == b
  {
    assert b == a + (b - a) && |b - a| == 0;
  }

  /** A reconciled book went through every check and ended in some progress. */
  lemma ReconcileEnds(b: Book, vat: Result<seq<VatDocument>, Code>) returns (last: Progress)
    requires Reconcile(b, vat).Ok?
    ensures BookOk(b) && SourcesRefusal(b).None? && vat.Ok?
    ensures TakeStatements(b, VerificationMap(b.verifications), PaymentMap(b.payments), vat.value, b.statements) == Ok(last)
    ensures |last.tally.used| == |PaymentMap(b.payments)| && Reconcile(b, vat) == Ok(last.rows)
  {
    last := TakeStatements(b, VerificationMap(b.verifications), PaymentMap(b.payments), vat.value, b.statements).value;
  }

  lemma ReconcileProgress(b: Book, vat: Result<seq<VatDocument>, Code>) returns (last: Progress)
    requires Reconcile(b, vat).Ok?
    ensures Reconcile(b, vat) == Ok(last.rows) && |last.tally.used| == |PaymentMap(b.payments)| && SourcesRefusal(b).None?
    ensures PaymentsOk(PaymentMap(b.payments))
    ensures Progresses(VerificationMap(b.verifications), PaymentMap(b.payments), b.statements, last)
  {
    last := ReconcileEnds(b, vat);
    StatementsProgress(b, VerificationMap(b.verifications), PaymentMap(b.payments), vat.value, b.statements);
  }

  lemma {:induction false} TakenOnce(items: seq<Payment>, taken: seq<string>, t: Tally)
    requires Distinct(Map(items, PaymentIdOf())) && Tallies(PaymentMap(items), taken, t) && |t.used| == |PaymentMap(items)|
    ensures multiset(taken) == multiset(Map(items, PaymentIdOf()))
  {
    var payments, ids := PaymentMap(items), Map(items, PaymentIdOf());
    assert t.used <= payments.Keys;
    SubsetOfSameSize(t.used, payments.Keys);
    forall x
      ensures x in taken <==> x in ids
    {
      if x in payments {
        assert payments[x] in items;
        var k :| 0 <= k < |items| && items[k] == payments[x];
        assert ids[k] == x;
      }
      if x in ids {
        var k :| 0 <= k < |ids| && ids[k] == x;
        assert items[k] in items && x in payments.Keys;
      }
    }
    DistinctSameElements(taken, ids);
  }

  /** Every payment record of a reconciled book is taken exactly once. */
  lemma EveryPaymentOnce(b: Book, vat: Result<seq<VatDocument>, Code>)
    requires Reconcile(b, vat).Ok?
    ensures multiset(PaymentIds(b.statements)) == multiset(Map(b.payments, PaymentIdOf()))
  {
    var last := ReconcileProgress(b, vat);
    PaymentsDiffer(b);
    TakenOnce(b.payments, PaymentIds(b.statements), last.tally);
  }

  /** One row for each statement, with the deltas telescoping to each row's cumulative figures. */
  lemma LedgerSound(b: Book, vat: Result<seq<VatDocument>, Code>, i: nat)
    requires Reconcile(b, vat).Ok? && i < |b.statements|
    ensures |Reconcile(b, vat).value| == |b.statements|
    ensures RowAt(VerificationMap(b.verifications), PaymentMap(b.payments), b.statements, Reconcile(b, vat).value, i)
  {
    var last := ReconcileProgress(b, vat);
  }

  /** An original payment is never reversed by more than it paid, over the whole book. */
  lemma ReversalsBounded(b: Book, vat: Result<seq<VatDocument>, Code>, o: string)
    requires Reconcile(b, vat).Ok? && o in PaymentIds(b.statements)
    ensures o in PaymentMap(b.payments)
    ensures PaymentMap(b.payments)[o].reversalOf.None? ==>
              0 <= SumBy(PaymentIds(b.statements), ReversalOf(PaymentMap(b.payments), o)) <= PaymentMap(b.payments)[o].cash
  {
    var last := ReconcileProgress(b, vat);
    assert PaymentMap(b.payments)[o].reversalOf.None? ==> WithinOriginal(PaymentMap(b.payments), PaymentIds(b.statements), last.tally, o);
  }

  /** At most one status applies on any date, so the choice of verification record cannot change a rate. */
  lemma StatusUnique(b: Book, v: Verification, w: Verification, date: int)
    requires SourcesRefusal(b).None? && v in b.verifications && w in b.verifications && ValidOn(v, date) && ValidOn(w, date)
    ensures v.status == w.status
  {
    var i :| 0 <= i < |b.verifications| && b.verifications[i] == v;
    var j :| 0 <= j < |b.verifications| && b.verifications[j] == w;
    assert i < j ==> !Conflict(b.verifications[i], b.verifications[j]);
    assert j < i ==> !Conflict(b.verifications[j], b.verifications[i]);
  }

  // ----- appending -----

  lemma AppendAccepts(b: Book, vat: Result<seq<VatDocument>, Code>, s: Statement)
    requires Append(b, vat, s).Ok?
    ensures Reconcile(b, vat).Ok? && Reconcile(Append(b, vat, s).value, vat).Ok?
    ensures Append(b, vat, s).value == b || Append(b, vat, s).value == b.(statements := b.statements + [s])
  {
  }

  lemma NothingAdded<T>(a: seq<T>, b: seq<T>)
    requires multiset(a + b) == multiset(a)
    ensures b == []
  {
    assert multiset(a + b) == multiset(a) + multiset(b);
    assert |a + b| == |multiset(a + b)| && |a| == |multiset(a)|;
  }

  lemma NoPaymentsAdded(b: Book, vat: Result<seq<VatDocument>, Code>, s: Statement, next: Book)
    requires Reconcile(b, vat).Ok? && next == b.(statements := b.statements + [s]) && Reconcile(next, vat).Ok?
    ensures s.paymentIds == []
  {
    EveryPaymentOnce(b, vat);
    EveryPaymentOnce(next, vat);
    PaymentIdsAppend(b.statements, s);
    NothingAdded(PaymentIds(b.statements), s.paymentIds);
  }

  /** An accepted new statement leaves every earlier row as it was, and cannot bring payments of its own. */
  lemma AppendKeepsHistory(b: Book, vat: Result<seq<VatDocument>, Code>, s: Statement, next: Book)
    requires Reconcile(b, vat).Ok? && next == b.(statements := b.statements + [s]) && Reconcile(next, vat).Ok?
    ensures |Reconcile(next, vat).value| == |b.statements| + 1 && |Reconcile(b, vat).value| == |b.statements|
    ensures Reconcile(next, vat).value[..|b.statements|] == Reconcile(b, vat).value
    ensures s.paymentIds == []
  {
    NoPaymentsAdded(b, vat, s, next);
    RowsKept(b, vat, s, next);
  }

  lemma RowsKept(b: Book, vat: Result<seq<VatDocument>, Code>, s: Statement, next: Book)
    requires Reconcile(b, vat).Ok? && next == b.(statements := b.statements + [s]) && Reconcile(next, vat).Ok?
    ensures |Reconcile(next, vat).value| == |b.statements| + 1 && |Reconcile(b, vat).value| == |b.statements|
    ensures Reconcile(next, vat).value[..|b.statements|] == Reconcile(b, vat).value
  {
    var verifications, payments := VerificationMap(b.verifications), PaymentMap(b.payments);
    var before := ReconcileEnds(b, vat);
    var after := ReconcileEnds(next, vat);
    StatementsProgress(b, verifications, payments, vat.value, b.statements);
    assert next.statements[..|b.statements|] == b.statements;
    SameBook(b, next, verifications, payments, vat.value, b.statements);
    assert TakeStatement(next, verifications, payments, vat.value, before, s) == Ok(after);
    var document, t, r := TakeAccepts(next, verifications, payments, vat.value, before, s);
    assert after.rows == before.rows + [r];
  }

  /** Taking statements depends on the book only through its retention profiles. */
  lemma {:induction false} SameBook(b: Book, c: Book, verifications: map<string, Verification>, payments: map<string, Payment>,
                                    documents: seq<VatDocument>, statements: seq<Statement>)
    requires b.retentionProfiles == c.retentionProfiles
    ensures TakeStatements(b, verifications, payments, documents, statements) == TakeStatements(c, verifications, payments, documents, statements)
    decreases |statements|
  {
    if statements != [] {
      SameBook(b, c, verifications, payments, documents, statements[..|statements| - 1]);
    }
  }

  /** Appending the same statement again gives the book back. */
  lemma AppendAgain(b: Book, vat: Result<seq<VatDocument>, Code>, s: Statement)
    requires Append(b, vat, s).Ok?
    ensures Append(Append(b, vat, s).value, vat, s) == Append(b, vat, s)
  {
    var next := Append(b, vat, s).value;
    AppendAccepts(b, vat, s);
    if StatementIndex(b.statements, s.id) == |b.statements| {
      StatementAppended(b.statements, s);
      HeldAppends(next, vat, s);
    }
  }

  /** A statement the book already holds is accepted without a change. */
  lemma HeldAppends(b: Book, vat: Result<seq<VatDocument>, Code>, s: Statement)
    requires Reconcile(b, vat).Ok? && StatementOk(s) && StatementIndex(b.statements, s.id) < |b.statements|
    requires b.statements[StatementIndex(b.statements, s.id)] == s
    ensures Append(b, vat, s) == Ok(b)
  {
  }

  lemma {:induction false} StatementAppended(statements: seq<Statement>, s: Statement)
    requires StatementIndex(statements, s.id) == |statements|
    ensures StatementIndex(statements + [s], s.id) == |statements|
  {
    if statements != [] {
      assert (statements + [s])[1..] == statements[1..] + [s];
      StatementAppended(statements[1..], s);
    }
  }
}
