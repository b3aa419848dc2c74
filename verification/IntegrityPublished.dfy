/** When each of the four rules over a published final check finds something, and when it is unavailable. */
module IntegrityPublished {
  import opened Prelude
  import opened Sorting
  import opened Integrity
  import opened IntegrityFindings

  function LockFact(p: Published): Fact {
    Lock(p.lockSource, p.account, p.lockId, p.cutoff, p.contract)
  }

  /** The facts of a published check, one for each source in the order of their identities. */
  datatype Once = Once(catches: seq<Fact>, completions: seq<Fact>, receipts: seq<Fact>, corrections: seq<Fact>, allocations: seq<Fact>)

  function OnceOf(order: Order, p: Published): Once {
    Once(Unique(order, p.catches), Unique(order, p.completions), Unique(order, p.receipts), Unique(order, p.corrections), Unique(order, p.allocations))
  }

  /** What the rules see of a published check. */
  predicate Sees(p: Published, o: Once, pv: PublishedView) {
    && pv.lock == LockFact(p) && pv.catches == o.catches && pv.completions == o.completions
    && pv.receipts == o.receipts && pv.corrections == o.corrections && (pv.corrected <==> Corrected(p))
  }

  // ----- dismissals -----

  /** A catch dismissed as not completed, with verified original evidence of its completion before the cutoff. */
  ghost predicate DismissalJustified(p: Published, o: Once, x: Found) {
    && |x.facts| == 3 && x.facts[0] in o.catches && x.facts[1] in o.completions
    && var c, proof := x.facts[0], x.facts[1];
       && c.Catch? && c.catchStatus == NotCompleted && proof.Completion? && proof.catchId == c.catchId
       && proof.state == Verified && proof.source.provenance == ServerRecorded && proof.original
       && proof.source.recordedAt <= p.cutoff
       && x == Found(CompletedDismissal, [c, proof, LockFact(p)], [Word(c.catchId), Number(p.cutoff), Word(p.lockId)])
  }

  lemma DismissalExactly(p: Published, o: Once, v: View, pv: PublishedView, x: Found)
    requires Sees(p, o, pv)
    ensures x in CompletedDismissalRule(v, pv).found <==> DismissalJustified(p, o, x)
    ensures CompletedDismissalRule(v, pv).unavailable == {}
  {
    EachFinds(pv.catches, Dismissal(pv));
    forall c: Fact | c.Catch?
      ensures forall y :: y in Each(pv.completions, Proof(pv, c)).found <==> exists f :: f in pv.completions && y in Proof(pv, c)(f).found
      ensures Each(pv.completions, Proof(pv, c)).unavailable == {}
    {
      EachFinds(pv.completions, Proof(pv, c));
    }
    if DismissalJustified(p, o, x) {
      assert x in Proof(pv, x.facts[0])(x.facts[1]).found;
      assert x in Dismissal(pv)(x.facts[0]).found;
    }
  }

  // ----- receipts -----

  ghost predicate Standing(p: Published, o: Once, r: Fact) {
    r in o.receipts && r.Receipt? && !r.reversed
  }

  ghost predicate Additional(p: Published, o: Once, c: Fact) {
    c in o.catches && c.Catch? && c.catchStatus == Confirmed && !c.included
  }

  function StandingPence(): Fact -> int {
    (r: Fact) => if r.Receipt? && !r.reversed then r.value.pence else 0
  }

  function AdditionalPence(): Fact -> int {
    (c: Fact) => if c.Catch? && c.catchStatus == Confirmed && !c.included then c.value.pence else 0
  }

  predicate Corrected(p: Published) {
    exists f :: f in p.corrections && f.Correction? && f.actual
  }

  /** Every counted value is in the account's basis, and that is known. */
  ghost predicate OneBasis(p: Published, o: Once) {
    && p.account.basis != UnknownBasis
    && (forall r {:trigger Standing(p, o, r)} :: Standing(p, o, r) ==> r.value.basis == p.account.basis)
    && (forall c {:trigger Additional(p, o, c)} :: Additional(p, o, c) ==> c.value.basis == p.account.basis)
  }

  /** Receipts that stand come to more than the account and the confirmed catches it does not include. */
  ghost predicate ReceiptsJustified(p: Published, o: Once, x: Found) {
    && !Corrected(p) && OneBasis(p, o)
    && ReceiptsOver(p, o, x, SumBy(o.receipts, StandingPence()),
                    p.account.pence + SumBy(o.catches, AdditionalPence()))
  }

  ghost predicate ReceiptsOver(p: Published, o: Once, x: Found, received: int, account: int) {
    && received > account && x.kind == ReceiptsExceed
    && (forall f :: f in x.facts <==> f == LockFact(p) || Additional(p, o, f) || f in o.receipts)
    && x.compared == [Number(received), Number(account), Tag(p.account.basis), Word(p.lockId), Number(p.cutoff)]
  }

  lemma {:induction false} FilterSum(s: seq<Fact>, p: Fact -> bool, f: Fact -> int, g: Fact -> int)
    requires forall x :: x in s ==> g(x) == if p(x) then f(x) else 0
    ensures SumBy(Filter(s, p), f) == SumBy(s, g)
  {
    if s != [] {
      FilterSum(s[1..], p, f, g);
    }
  }

  lemma ReceiptSums(p: Published, o: Once, pv: PublishedView)
    requires Sees(p, o, pv)
    ensures SumBy(Filter(pv.receipts, IsStanding()), PenceOf()) == SumBy(o.receipts, StandingPence())
    ensures SumBy(Filter(pv.catches, IsAdditional()), PenceOf()) == SumBy(o.catches, AdditionalPence())
  {
    FilterSum(pv.receipts, IsStanding(), PenceOf(), StandingPence());
    FilterSum(pv.catches, IsAdditional(), PenceOf(), AdditionalPence());
  }

  lemma BasisExactly(p: Published, o: Once, pv: PublishedView, counted: seq<Fact>)
    requires Sees(p, o, pv) && counted == Filter(pv.receipts, IsStanding()) + Filter(pv.catches, IsAdditional())
    ensures OnOneBasis(pv, counted) <==> OneBasis(p, o)
  {
    assert forall f :: f in counted <==> Standing(p, o, f) || Additional(p, o, f);
    if OneBasis(p, o) {
      forall f | f in counted
        ensures SameBasis(pv, f)
      {
      }
    } else if p.account.basis != UnknownBasis {
      var f :| (Standing(p, o, f) && f.value.basis != p.account.basis) || (Additional(p, o, f) && f.value.basis != p.account.basis);
      assert f in counted && !SameBasis(pv, f);
    }
  }

  lemma OutcomeExactly(p: Published, o: Once, pv: PublishedView, x: Found, oneBasis: bool, received: int, account: int)
    requires Sees(p, o, pv)
    ensures var outcome := ReceiptsOutcome(pv, Filter(pv.catches, IsAdditional()), oneBasis, received, account);
            && (x in outcome.found ==> !Corrected(p) && oneBasis && ReceiptsOver(p, o, x, received, account))
            && (!Corrected(p) && oneBasis && ReceiptsOver(p, o, x, received, account) ==> FoundLike(outcome.found, x))
  {
    var all := [pv.lock] + Filter(pv.catches, IsAdditional()) + pv.receipts;
    assert forall f :: f in all <==> f == LockFact(p) || Additional(p, o, f) || f in o.receipts;
    var y := Found(ReceiptsExceed, all, [Number(received), Number(account), Tag(p.account.basis), Word(p.lockId), Number(p.cutoff)]);
    assert y in [y];
  }

  lemma RuleUnfolds(p: Published, o: Once, pv: PublishedView, received: int, account: int, oneBasis: bool)
    requires Sees(p, o, pv) && received == SumBy(Filter(pv.receipts, IsStanding()), PenceOf())
    requires account == p.account.pence + SumBy(Filter(pv.catches, IsAdditional()), PenceOf())
    requires oneBasis == OnOneBasis(pv, Filter(pv.receipts, IsStanding()) + Filter(pv.catches, IsAdditional()))
    ensures ReceiptsExceedRule(pv) == ReceiptsOutcome(pv, Filter(pv.catches, IsAdditional()), oneBasis, received, account)
  {
  }

  lemma RuleIs(p: Published, o: Once, pv: PublishedView, received: int, account: int)
    requires Sees(p, o, pv) && received == SumBy(Filter(pv.receipts, IsStanding()), PenceOf())
    requires account == p.account.pence + SumBy(Filter(pv.catches, IsAdditional()), PenceOf())
    ensures ReceiptsExceedRule(pv) == ReceiptsOutcome(pv, Filter(pv.catches, IsAdditional()), OneBasis(p, o), received, account)
  {
    BasisExactly(p, o, pv, Filter(pv.receipts, IsStanding()) + Filter(pv.catches, IsAdditional()));
    RuleUnfolds(p, o, pv, received, account, OneBasis(p, o));
  }

  lemma OutcomeBasis(p: Published, o: Once, pv: PublishedView, x: Found, received: int, account: int)
    requires Sees(p, o, pv)
    ensures var outcome := ReceiptsOutcome(pv, Filter(pv.catches, IsAdditional()), OneBasis(p, o), received, account);
            && (x in outcome.found ==> !Corrected(p) && OneBasis(p, o) && ReceiptsOver(p, o, x, received, account))
            && (!Corrected(p) && OneBasis(p, o) && ReceiptsOver(p, o, x, received, account) ==> FoundLike(outcome.found, x))
  {
    OutcomeExactly(p, o, pv, x, OneBasis(p, o), received, account);
  }

  lemma JustifiedIs(p: Published, o: Once, x: Found, received: int, account: int)
    requires received == SumBy(o.receipts, StandingPence()) && account == p.account.pence + SumBy(o.catches, AdditionalPence())
    ensures ReceiptsJustified(p, o, x) <==> !Corrected(p) && OneBasis(p, o) && ReceiptsOver(p, o, x, received, account)
  {
  }

  lemma RuleExactly(p: Published, o: Once, pv: PublishedView, x: Found, received: int, account: int)
    requires Sees(p, o, pv) && received == SumBy(o.receipts, StandingPence())
    requires account == p.account.pence + SumBy(o.catches, AdditionalPence())
    requires ReceiptsExceedRule(pv) == ReceiptsOutcome(pv, Filter(pv.catches, IsAdditional()), OneBasis(p, o), received, account)
    ensures x in ReceiptsExceedRule(pv).found ==> ReceiptsJustified(p, o, x)
    ensures ReceiptsJustified(p, o, x) ==> FoundLike(ReceiptsExceedRule(pv).found, x)
  {
    OutcomeBasis(p, o, pv, x, received, account);
    JustifiedIs(p, o, x, received, account);
  }

  lemma ReceiptsExactly(p: Published, o: Once, pv: PublishedView, x: Found)
    requires Sees(p, o, pv)
    ensures x in ReceiptsExceedRule(pv).found ==> ReceiptsJustified(p, o, x)
    ensures ReceiptsJustified(p, o, x) ==> FoundLike(ReceiptsExceedRule(pv).found, x)
  {
    var received, account := SumBy(o.receipts, StandingPence()), p.account.pence + SumBy(o.catches, AdditionalPence());
    ReceiptSums(p, o, pv);
    RuleIs(p, o, pv, received, account);
    RuleExactly(p, o, pv, x, received, account);
  }

  lemma ReceiptsUnavailable(p: Published, o: Once, pv: PublishedView)
    requires Sees(p, o, pv)
    ensures forall u :: u in ReceiptsExceedRule(pv).unavailable <==>
              || (Corrected(p) && u == Unavailable(ReceiptsExceed, CreditBasisUnavailable))
              || (!Corrected(p) && !OneBasis(p, o) && u == Unavailable(ReceiptsExceed, BasisUnavailable))
  {
    BasisExactly(p, o, pv, Filter(pv.receipts, IsStanding()) + Filter(pv.catches, IsAdditional()));
  }

  // ----- corrections of a line -----

  predicate ConfirmedOn(c: Fact, line: string) {
    c.Catch? && c.catchStatus == Confirmed && c.line == Some(line)
  }

  /** The first confirmed catch on the line. */
  ghost predicate CatchOn(catches: seq<Fact>, line: string, c: Fact) {
    exists n: nat :: n < |catches| && catches[n] == c && ConfirmedOn(c, line) && forall m :: 0 <= m < n ==> !ConfirmedOn(catches[m], line)
  }

  lemma ConfirmedExactly(pv: PublishedView, line: string)
    ensures forall c :: ConfirmedLine(pv, line) == Some(c) <==> CatchOn(pv.catches, line, c)
  {
    var p := (c: Fact) => Confirmable(c) && c.line == Some(line);
    var n := FirstIndex(pv.catches, p);
    FirstMeaning(pv.catches, p);
    assert forall c :: ConfirmedOn(c, line) <==> p(c);
    forall c
      ensures ConfirmedLine(pv, line) == Some(c) <==> CatchOn(pv.catches, line, c)
    {
      if n < |pv.catches| {
        assert CatchOn(pv.catches, line, pv.catches[n]);
      }
    }
  }

  /** A correction that happened, on a line with a confirmed catch in its known basis. */
  ghost predicate CorrectionJustified(p: Published, o: Once, x: Found) {
    && |x.facts| == 3
    && var c, k := x.facts[0], x.facts[1];
       && k in o.corrections && k.Correction? && k.actual && k.line.Some? && CatchOn(o.catches, k.line.value, c)
       && k.value.basis != UnknownBasis && k.value.basis == c.value.basis && k.value.pence > 0
       && x == Found(LineCorrection, [c, k, LockFact(p)],
                     [Word(if k.credit then "credit" else "writeoff"), Number(k.value.pence), Tag(k.value.basis), Word(k.line.value), Word(p.lockId)])
  }

  ghost predicate Uncorrectable(o: Once, k: Fact, reason: Reason) {
    && k in o.corrections && k.Correction? && k.actual
    && match reason
       case LineSourceAbsent => k.line.None?
       case BasisUnavailable =>
         k.line.Some? && exists c :: CatchOn(o.catches, k.line.value, c) && (k.value.basis == UnknownBasis || k.value.basis != c.value.basis)
       case _ => false
  }

  lemma CorrectsExactly(p: Published, o: Once, pv: PublishedView, k: Fact)
    requires Sees(p, o, pv) && k in o.corrections
    ensures forall x :: x in Corrects(pv)(k).found <==> CorrectionJustified(p, o, x) && x.facts[1] == k
    ensures forall u :: u in Corrects(pv)(k).unavailable <==> u.kind == LineCorrection && Uncorrectable(o, k, u.reason)
  {
    if k.Correction? && k.line.Some? {
      ConfirmedExactly(pv, k.line.value);
    }
  }

  lemma CorrectionExactly(p: Published, o: Once, pv: PublishedView)
    requires Sees(p, o, pv)
    ensures forall x :: x in LineCorrectionRule(pv).found <==> CorrectionJustified(p, o, x)
    ensures forall u :: u in LineCorrectionRule(pv).unavailable <==> u.kind == LineCorrection && exists k :: Uncorrectable(o, k, u.reason)
  {
    EachFinds(pv.corrections, Corrects(pv));
    forall k | k in o.corrections
      ensures forall x :: x in Corrects(pv)(k).found <==> CorrectionJustified(p, o, x) && x.facts[1] == k
      ensures forall u :: u in Corrects(pv)(k).unavailable <==> u.kind == LineCorrection && Uncorrectable(o, k, u.reason)
    {
      CorrectsExactly(p, o, pv, k);
    }
  }

  // ----- allocations -----

  predicate StandsFor(a: Fact, receiptId: string) {
    a.Allocation? && !a.reversed && a.receiptId == receiptId
  }

  function PaidOf(receiptId: string): Fact -> int {
    (a: Fact) => if StandsFor(a, receiptId) then a.toCatches.pence + a.toOrdinary.pence else 0
  }

  /** The first receipt with that id. */
  ghost predicate ReceiptOf(receipts: seq<Fact>, id: string, r: Fact) {
    exists n: nat :: n < |receipts| && receipts[n] == r && r.Receipt? && r.source.id == id
                     && forall m :: 0 <= m < n ==> !(receipts[m].Receipt? && receipts[m].source.id == id)
  }

  /** An explicit standing allocation of the window. */
  predicate Considered(i: Input, o: Once, a: Fact) {
    a in o.allocations && a.Allocation? && !a.reversed && a.method_ == ExplicitUser && Within(i, a.source.recordedAt)
  }

  predicate InBasis(a: Fact, r: Fact)
    requires a.Allocation? && r.Receipt?
  {
    r.value.basis != UnknownBasis && a.outstanding.basis == a.toCatches.basis == a.toOrdinary.basis == r.value.basis
  }

  ghost predicate LinesKnown(o: Once, a: Fact)
    requires a.Allocation?
  {
    forall line :: line in a.lines ==> exists c :: CatchOn(o.catches, line, c)
  }

  ghost predicate LinesInBasis(o: Once, a: Fact, basis: Basis)
    requires a.Allocation?
  {
    forall line, c :: line in a.lines && CatchOn(o.catches, line, c) ==> c.value.basis == basis
  }

  /** The pence of the confirmed catch on the line. */
  ghost function PenceOn(o: Once, line: string): int {
    if exists c :: CatchOn(o.catches, line, c) then var c :| CatchOn(o.catches, line, c); c.value.pence else 0
  }

  ghost function CatchPence(o: Once): string -> int {
    (line: string) => PenceOn(o, line)
  }

  /** The catches on the lines, each line once, cover the outstanding amount. */
  ghost predicate Covers(o: Once, a: Fact)
    requires a.Allocation?
  {
    forall lines :: Distinct(lines) && SameLines(lines, a.lines) ==> a.outstanding.pence <= SumBy(lines, CatchPence(o))
  }

  /** What stands for the receipt is in its basis and within it, and the allocation within what is outstanding on its lines. */
  ghost predicate AddsUp(o: Once, a: Fact, r: Fact)
    requires a.Allocation? && r.Receipt?
  {
    && (forall b :: b in o.allocations && StandsFor(b, a.receiptId) ==> b.toCatches.basis == r.value.basis && b.toOrdinary.basis == r.value.basis)
    && SumBy(o.allocations, PaidOf(a.receiptId)) <= r.value.pence
    && Covers(o, a) && a.toCatches.pence <= a.outstanding.pence
  }

  /** An allocation that can be judged gives nothing to its outstanding catch lines and something to ordinary ones. */
  ghost predicate AvoidsLines(i: Input, o: Once, a: Fact) {
    && Considered(i, o, a)
    && exists r :: && ReceiptOf(o.receipts, a.receiptId, r) && !r.reversed && InBasis(a, r)
                   && LinesKnown(o, a) && LinesInBasis(o, a, r.value.basis) && AddsUp(o, a, r)
                   && a.outstanding.pence > 0 && a.toCatches.pence == 0 && a.toOrdinary.pence > 0
  }

  /** Why an allocation cannot be judged: the first of the checks it fails. */
  ghost predicate Unjudgeable(i: Input, o: Once, a: Fact, reason: Reason) {
    && Considered(i, o, a)
    && ((reason == SourceAbsent && forall r :: !ReceiptOf(o.receipts, a.receiptId, r))
        || exists r :: ReceiptOf(o.receipts, a.receiptId, r) && !r.reversed && UnjudgeableOf(o, a, r, reason))
  }

  ghost predicate UnjudgeableOf(o: Once, a: Fact, r: Fact, reason: Reason)
    requires a.Allocation? && r.Receipt?
  {
    if !InBasis(a, r) then reason == BasisUnavailable
    else if !LinesKnown(o, a) then reason == LineSourceAbsent
    else if !LinesInBasis(o, a, r.value.basis) then reason == BasisUnavailable
    else !AddsUp(o, a, r) && reason == SourceAbsent
  }

  lemma {:induction false} ReceiptExactly(receipts: seq<Fact>, id: string)
    ensures var n := FirstIndex(receipts, IsReceipt(id));
            forall r :: ReceiptOf(receipts, id, r) <==> n < |receipts| && r == receipts[n]
  {
    var n := FirstIndex(receipts, IsReceipt(id));
    FirstMeaning(receipts, IsReceipt(id));
    assert forall r :: IsReceipt(id)(r) <==> r.Receipt? && r.source.id == id;
    if n < |receipts| {
      assert ReceiptOf(receipts, id, receipts[n]);
    }
  }

  lemma LinesExactly(o: Once, pv: PublishedView, a: Fact, basis: Basis)
    requires pv.catches == o.catches && a.Allocation?
    ensures UnknownLine(pv, a.lines) <==> !LinesKnown(o, a)
    ensures LinesKnown(o, a) ==> (OffBasisLine(pv, a.lines, basis) <==> !LinesInBasis(o, a, basis))
  {
    forall line
      ensures forall c :: ConfirmedLine(pv, line) == Some(c) <==> CatchOn(o.catches, line, c)
    {
      ConfirmedExactly(pv, line);
    }
    forall line | line in a.lines
      ensures ConfirmedLine(pv, line).Some? <==> exists c :: CatchOn(o.catches, line, c)
    {
      if ConfirmedLine(pv, line).Some? {
        assert CatchOn(o.catches, line, ConfirmedLine(pv, line).value);
      }
    }
    if !LinesInBasis(o, a, basis) {
      var line, c :| line in a.lines && CatchOn(o.catches, line, c) && c.value.basis != basis;
      assert ConfirmedLine(pv, line) == Some(c);
    }
  }

  lemma LinePenceExactly(o: Once, pv: PublishedView, line: string)
    requires pv.catches == o.catches
    ensures LinePence(pv)(line) == CatchPence(o)(line)
  {
    ConfirmedExactly(pv, line);
    if ConfirmedLine(pv, line).Some? {
      assert CatchOn(o.catches, line, ConfirmedLine(pv, line).value);
    }
  }

  lemma CoversExactly(o: Once, pv: PublishedView, a: Fact)
    requires pv.catches == o.catches && a.Allocation?
    ensures Covers(o, a) <==> a.outstanding.pence <= LinesPence(pv, a.lines)
  {
    var once := Unrepeated(a.lines);
    UnrepeatedSame(a.lines);
    forall lines | Distinct(lines) && SameLines(lines, a.lines)
      ensures SumBy(lines, CatchPence(o)) == LinesPence(pv, a.lines)
    {
      DistinctSameElements(once, lines);
      SumByPermuted(once, lines, CatchPence(o));
      forall line | line in once
        ensures LinePence(pv)(line) == CatchPence(o)(line)
      {
        LinePenceExactly(o, pv, line);
      }
      SumByAgree(once, LinePence(pv), CatchPence(o));
    }
  }

  lemma {:induction false} AddsUpExactly(o: Once, pv: PublishedView, a: Fact, r: Fact, total: seq<Fact>)
    requires pv.catches == o.catches && a.Allocation? && r.Receipt? && total == Filter(o.allocations, StandingFor(a.receiptId))
    ensures AddsUp(o, a, r) <==>
            && Filter(total, OffBasis(r.value.basis)) == [] && SumBy(total, Allocated()) <= r.value.pence
            && a.outstanding.pence <= LinesPence(pv, a.lines) && a.toCatches.pence <= a.outstanding.pence
  {
    var off := Filter(total, OffBasis(r.value.basis));
    FilterSum(o.allocations, StandingFor(a.receiptId), Allocated(), PaidOf(a.receiptId));
    CoversExactly(o, pv, a);
    assert forall b :: b in off <==> b in o.allocations && StandsFor(b, a.receiptId) && (b.toCatches.basis != r.value.basis || b.toOrdinary.basis != r.value.basis);
    if off != [] {
      assert off[0] in off;
    }
  }

  lemma AmountsExactly(o: Once, pv: PublishedView, a: Fact, r: Fact, total: seq<Fact>)
    requires pv.catches == o.catches && a.Allocation? && r.Receipt? && InBasis(a, r) && total == Filter(o.allocations, StandingFor(a.receiptId))
    ensures var j := JudgeAmounts(pv, a, r.value, total);
            && (forall reason :: j == Unusable(reason) <==> UnjudgeableOf(o, a, r, reason))
            && (j == Avoids <==> LinesKnown(o, a) && LinesInBasis(o, a, r.value.basis) && AddsUp(o, a, r)
                                 && a.outstanding.pence > 0 && a.toCatches.pence == 0 && a.toOrdinary.pence > 0)
  {
    LinesExactly(o, pv, a, r.value.basis);
    AddsUpExactly(o, pv, a, r, total);
  }

  lemma JudgeExactly(i: Input, p: Published, o: Once, v: View, pv: PublishedView, a: Fact)
    requires Sees(p, o, pv) && v.profile == i.profile && a in o.allocations
    ensures forall reason :: Judge(v, pv, o.allocations, a) == Unusable(reason) <==> Unjudgeable(i, o, a, reason)
    ensures Judge(v, pv, o.allocations, a) == Avoids <==> AvoidsLines(i, o, a)
  {
    if Considered(i, o, a) {
      ReceiptExactly(pv.receipts, a.receiptId);
      var n := FirstIndex(pv.receipts, IsReceipt(a.receiptId));
      if n < |pv.receipts| {
        var r := pv.receipts[n];
        assert ReceiptOf(o.receipts, a.receiptId, r);
        if InBasis(a, r) {
          AmountsExactly(o, pv, a, r, Filter(o.allocations, StandingFor(a.receiptId)));
        }
      }
    }
  }

  /** The receipts whose allocations avoid catch lines. */
  ghost function Payments(i: Input, o: Once): set<string> {
    set a | a in o.allocations && a.Allocation? && AvoidsLines(i, o, a) :: a.receiptId
  }

  /** Enough payments are allocated past catch lines: the lock, those catches, those allocations and their receipts. */
  ghost predicate AvoidJustified(i: Input, p: Published, o: Once, x: Found) {
    && i.profile.minimumPayments.Some? && |Payments(i, o)| >= i.profile.minimumPayments.value && x.kind == AllocationsAvoid
    && (forall f :: f in x.facts <==> Cited(i, p, o, f))
    && x.compared == [Number(|Payments(i, o)|), Number(i.profile.minimumPayments.value), Word(p.lockId)]
  }

  ghost predicate Cited(i: Input, p: Published, o: Once, f: Fact) {
    f == LockFact(p) || Avoided(i, o, f) || AvoidsLines(i, o, f) || (f in o.receipts && f.source.id in Payments(i, o))
  }

  /** A confirmed catch on a line that some allocation avoids. */
  ghost predicate Avoided(i: Input, o: Once, c: Fact) {
    && c in o.catches && c.Catch? && c.catchStatus == Confirmed && c.line.Some?
    && exists a :: AvoidsLines(i, o, a) && c.line.value in a.lines
  }

  lemma AvoidingExactly(i: Input, p: Published, o: Once, v: View, pv: PublishedView, avoiding: seq<Fact>)
    requires Sees(p, o, pv) && v.profile == i.profile && avoiding == Filter(o.allocations, AvoidsIn(v, pv, o.allocations))
    ensures forall a :: a in avoiding <==> AvoidsLines(i, o, a)
    ensures PaymentsOf(avoiding) == Payments(i, o)
  {
    forall a | a in o.allocations
      ensures AvoidsIn(v, pv, o.allocations)(a) <==> AvoidsLines(i, o, a)
    {
      JudgeExactly(i, p, o, v, pv, a);
    }
  }

  function AvoidFacts(pv: PublishedView, avoiding: seq<Fact>): seq<Fact> {
    [pv.lock] + Filter(pv.catches, OnLinesOf(avoiding)) + avoiding + Filter(pv.receipts, PaidIn(PaymentsOf(avoiding)))
  }

  lemma CitedExactly(i: Input, p: Published, o: Once, pv: PublishedView, avoiding: seq<Fact>, f: Fact)
    requires Sees(p, o, pv) && (forall a :: a in avoiding <==> AvoidsLines(i, o, a)) && PaymentsOf(avoiding) == Payments(i, o)
    ensures f in AvoidFacts(pv, avoiding) <==> Cited(i, p, o, f)
  {
    assert f in AvoidFacts(pv, avoiding) <==>
           f == pv.lock || f in Filter(pv.catches, OnLinesOf(avoiding)) || f in avoiding || f in Filter(pv.receipts, PaidIn(PaymentsOf(avoiding)));
    assert f in Filter(pv.catches, OnLinesOf(avoiding)) <==> Avoided(i, o, f);
  }

  lemma AvoidFound(i: Input, p: Published, o: Once, pv: PublishedView, avoiding: seq<Fact>, all: seq<Fact>, payments: set<string>, x: Found)
    requires pv.lock == LockFact(p) && i.profile.minimumPayments.Some? && payments == Payments(i, o) == PaymentsOf(avoiding)
    requires all == AvoidFacts(pv, avoiding) && forall f :: f in all <==> Cited(i, p, o, f)
    ensures var found := AvoidFinding(pv, avoiding, i.profile.minimumPayments.value).found;
            (x in found ==> AvoidJustified(i, p, o, x)) && (AvoidJustified(i, p, o, x) ==> FoundLike(found, x))
  {
    var y := Found(AllocationsAvoid, all, [Number(|payments|), Number(i.profile.minimumPayments.value), Word(p.lockId)]);
    assert AvoidFinding(pv, avoiding, i.profile.minimumPayments.value).found == if |payments| >= i.profile.minimumPayments.value then [y] else [];
    assert y in [y];
  }

  lemma {:induction false} EachSilent(facts: seq<Fact>, rule: Fact -> Outcome)
    requires forall f :: f in facts ==> rule(f).found == []
    ensures Each(facts, rule).found == []
  {
    if facts != [] {
      EachSilent(facts[1..], rule);
    }
  }

  lemma {:induction false} AvoidRuleIs(v: View, pv: PublishedView, allocations: seq<Fact>, avoiding: seq<Fact>)
    requires pv.lock.Lock? && v.profile.minimumPayments.Some? && avoiding == Filter(allocations, AvoidsIn(v, pv, allocations))
    ensures AllocationsAvoidRule(v, pv, allocations).found == AvoidFinding(pv, avoiding, v.profile.minimumPayments.value).found
  {
    EachSilent(allocations, UnusableIn(v, pv, allocations));
  }

  lemma AvoidExactly(i: Input, p: Published, o: Once, v: View, pv: PublishedView, x: Found)
    requires Sees(p, o, pv) && v.profile == i.profile
    ensures x in AllocationsAvoidRule(v, pv, o.allocations).found ==> AvoidJustified(i, p, o, x)
    ensures AvoidJustified(i, p, o, x) ==> FoundLike(AllocationsAvoidRule(v, pv, o.allocations).found, x)
  {
    if i.profile.minimumPayments.Some? {
      var avoiding := Filter(o.allocations, AvoidsIn(v, pv, o.allocations));
      AvoidingExactly(i, p, o, v, pv, avoiding);
      AvoidRuleIs(v, pv, o.allocations, avoiding);
      AvoidingFound(i, p, o, pv, avoiding, x);
    }
  }

  lemma AvoidingFound(i: Input, p: Published, o: Once, pv: PublishedView, avoiding: seq<Fact>, x: Found)
    requires Sees(p, o, pv) && i.profile.minimumPayments.Some?
    requires (forall a :: a in avoiding <==> AvoidsLines(i, o, a)) && PaymentsOf(avoiding) == Payments(i, o)
    ensures var found := AvoidFinding(pv, avoiding, i.profile.minimumPayments.value).found;
            (x in found ==> AvoidJustified(i, p, o, x)) && (AvoidJustified(i, p, o, x) ==> FoundLike(found, x))
  {
    forall f
      ensures f in AvoidFacts(pv, avoiding) <==> Cited(i, p, o, f)
    {
      CitedExactly(i, p, o, pv, avoiding, f);
    }
    AvoidFound(i, p, o, pv, avoiding, AvoidFacts(pv, avoiding), Payments(i, o), x);
  }

  lemma AvoidUnavailable(i: Input, p: Published, o: Once, v: View, pv: PublishedView)
    requires Sees(p, o, pv) && v.profile == i.profile
    ensures forall u :: u in AllocationsAvoidRule(v, pv, o.allocations).unavailable <==>
              && i.profile.minimumPayments.Some? && u.kind == AllocationsAvoid && exists a :: Unjudgeable(i, o, a, u.reason)
  {
    if i.profile.minimumPayments.Some? {
      EachFinds(o.allocations, UnusableIn(v, pv, o.allocations));
      forall a | a in o.allocations
        ensures forall u :: u in UnusableIn(v, pv, o.allocations)(a).unavailable <==> u.kind == AllocationsAvoid && Unjudgeable(i, o, a, u.reason)
      {
        JudgeExactly(i, p, o, v, pv, a);
      }
    }
  }
}
