/**
 * Exact allocation of a receipt, or of its reversal, over invoice lines
 * (packages/core/src/receipt-allocation.ts). Fractions are exact reals and instants are real times.
 */
module ReceiptAllocation {
  import opened Prelude
  import opened Billing

  datatype Direction = Receipt | Reversal

  datatype Rule = ByExplicitShare | BySeparateInvoice | ProRata

  datatype ReceiptLine = ReceiptLine(id: string, invoiceId: string, existedAt: real, outstanding: real, net: int, gross: int)

  datatype Request = Request(sourceRef: string, receipt: real, effectiveAt: real, direction: Direction,
                             invoiceId: string, separateInvoiceId: Option<string>,
                             explicit: Option<seq<ExplicitShare>>, lines: seq<ReceiptLine>)

  datatype LineAllocation = LineAllocation(lineId: string, rule: Rule, sourceRef: string, gross: real, net: real)

  function LineKeyOf(): ReceiptLine -> Option<string> { (l: ReceiptLine) => Some(l.id) }
  function Outstanding(): ReceiptLine -> real { (l: ReceiptLine) => l.outstanding }
  function ShareGross(): ExplicitShare -> real { (s: ExplicitShare) => s.gross }
  function Gross(): LineAllocation -> real { (a: LineAllocation) => a.gross }

  predicate ValidMoney(x: real) {
    -(MAX_MONEY_PENCE as real) <= x <= MAX_MONEY_PENCE as real
  }

  predicate ValidReceiptLine(l: ReceiptLine) {
    && 0 <= l.net <= l.gross && 0 < l.gross <= MAX_MONEY_PENCE
    && ValidMoney(l.outstanding) && l.outstanding <= l.gross as real
  }

  predicate Acceptable(q: Request) {
    && ValidMoney(q.receipt) && |q.lines| <= MAX_LINES
    && (forall l :: l in q.lines ==> ValidReceiptLine(l))
    && (q.explicit.Some? ==> |q.explicit.value| <= MAX_LINES && forall s :: s in q.explicit.value ==> ValidMoney(s.gross))
    && q.receipt >= 0.0 && KeysDiffer(q.lines, LineKeyOf())
    && (forall l :: l in q.lines ==> l.outstanding >= 0.0)
    && (q.separateInvoiceId.Some? ==> q.separateInvoiceId.value == q.invoiceId)
  }

  /** The lines that existed in time, belong to the invoice and still have a balance. */
  function Eligible(q: Request): seq<ReceiptLine> {
    Filter(q.lines, (l: ReceiptLine) => l.invoiceId == q.invoiceId && l.existedAt <= q.effectiveAt && l.outstanding > 0.0)
  }

  function RuleOf(q: Request): Rule {
    if q.explicit.Some? then ByExplicitShare else if q.separateInvoiceId.Some? then BySeparateInvoice else ProRata
  }

  /** One line's part, negated for a reversal; None when it is negative or exceeds the line's balance. */
  function Append(q: Request, l: ReceiptLine, gross: real): Option<LineAllocation> {
    if gross < 0.0 || gross > l.outstanding || l.gross <= 0 then None
    else
      var signed := if q.direction == Reversal then -gross else gross;
      Some(LineAllocation(l.id, RuleOf(q), q.sourceRef, signed, signed * (l.net as real / l.gross as real)))
  }

  function FindLine(lines: seq<ReceiptLine>, id: string): Option<ReceiptLine> {
    if lines == [] then None else if lines[0].id == id then Some(lines[0]) else FindLine(lines[1..], id)
  }

  function ShareOut(q: Request, eligible: seq<ReceiptLine>): ExplicitShare -> Option<LineAllocation> {
    (s: ExplicitShare) =>
      var l := FindLine(eligible, s.lineId);
      if l.None? then None else Append(q, l.value, s.gross)
  }

  function Proportion(receipt: real, total: real): ReceiptLine -> real
    requires total != 0.0
  {
    (l: ReceiptLine) => receipt * (l.outstanding * (1.0 / total))
  }

  function Appender(q: Request, part: ReceiptLine -> real): ReceiptLine -> Option<LineAllocation> {
    (l: ReceiptLine) => Append(q, l, part(l))
  }

  function Allocate(q: Request): Option<seq<LineAllocation>> {
    if !Acceptable(q) then None
    else
      var eligible := Eligible(q);
      if q.explicit.Some? then
        var shares := q.explicit.value;
        if !KeysDiffer(shares, ShareKey()) || SumReal(shares, ShareGross()) != q.receipt then None
        else MapAll(shares, ShareOut(q, eligible))
      else
        var total := SumReal(eligible, Outstanding());
        if q.receipt > total then None
        else if q.receipt == 0.0 then Some([])
        else MapAll(eligible, Appender(q, Proportion(q.receipt, total)))
  }

  // ----- what an allocation always satisfies -----

  function Signed(q: Request, x: real): real {
    if q.direction == Reversal then -x else x
  }

  /** A line that existed in time, belongs to the invoice and has something outstanding. */
  predicate Chosen(q: Request, l: ReceiptLine) {
    l in q.lines && l.existedAt <= q.effectiveAt && l.invoiceId == q.invoiceId && l.outstanding > 0.0
  }

  /** An allocation's part of one line: from that line, at most its balance, with the line's net ratio. */
  predicate PartOf(q: Request, a: LineAllocation, l: ReceiptLine) {
    && a.lineId == l.id && Chosen(q, l) && a.sourceRef == q.sourceRef && a.rule == RuleOf(q)
    && 0.0 <= Signed(q, a.gross) <= l.outstanding
    && a.net * l.gross as real == a.gross * l.net as real
  }

  lemma NetRatio(gross: real, net: int, whole: int)
    requires whole > 0
    ensures (gross * (net as real / whole as real)) * whole as real == gross * net as real
  {
    var ratio := net as real / whole as real;
    assert ratio * whole as real == net as real;
    assert (gross * ratio) * whole as real == gross * (ratio * whole as real);
  }

  lemma AppendIsPart(q: Request, l: ReceiptLine, gross: real)
    requires Chosen(q, l)
    requires Append(q, l, gross).Some?
    ensures PartOf(q, Append(q, l, gross).value, l)
    ensures Append(q, l, gross).value.gross == Signed(q, gross)
  {
    NetRatio(Signed(q, gross), l.net, l.gross);
  }

  lemma {:induction false} FindLineFound(lines: seq<ReceiptLine>, id: string)
    ensures FindLine(lines, id).Some? ==> FindLine(lines, id).value in lines && FindLine(lines, id).value.id == id
    ensures FindLine(lines, id).None? ==> forall l :: l in lines ==> l.id != id
  {
    if lines != [] {
      FindLineFound(lines[1..], id);
    }
  }

  ghost predicate Sound(q: Request, parts: seq<LineAllocation>) {
    && (forall a :: a in parts ==> exists l :: PartOf(q, a, l))
    && (forall i, j :: 0 <= i < j < |parts| ==> parts[i].lineId != parts[j].lineId)
    && SumReal(parts, Gross()) == Signed(q, q.receipt)
  }

  lemma {:induction false} SumSigned<T>(q: Request, items: seq<T>, parts: seq<LineAllocation>, f: T -> real)
    requires |parts| == |items| && forall i :: 0 <= i < |items| ==> parts[i].gross == Signed(q, f(items[i]))
    ensures SumReal(parts, Gross()) == Signed(q, SumReal(items, f))
  {
    if items != [] {
      SumSigned(q, items[1..], parts[1..], f);
    }
  }

  lemma ExplicitSound(q: Request)
    requires Allocate(q).Some? && q.explicit.Some?
    ensures Sound(q, Allocate(q).value)
  {
    var shares, eligible, parts := q.explicit.value, Eligible(q), Allocate(q).value;
    MapAllAt(shares, ShareOut(q, eligible));
    forall i | 0 <= i < |parts|
      ensures exists l :: PartOf(q, parts[i], l)
      ensures parts[i].gross == Signed(q, ShareGross()(shares[i])) && parts[i].lineId == shares[i].lineId
    {
      assert ShareOut(q, eligible)(shares[i]) == Some(parts[i]);
      FindLineFound(eligible, shares[i].lineId);
      AppendIsPart(q, FindLine(eligible, shares[i].lineId).value, shares[i].gross);
    }
    forall i, j | 0 <= i < j < |parts|
      ensures parts[i].lineId != parts[j].lineId
    {
      assert ShareKey()(shares[i]) != ShareKey()(shares[j]);
    }
    SumSigned(q, shares, parts, ShareGross());
  }

  lemma {:induction false} FilterDiffers(lines: seq<ReceiptLine>, p: ReceiptLine -> bool)
    requires KeysDiffer(lines, LineKeyOf())
    ensures KeysDiffer(Filter(lines, p), LineKeyOf())
  {
    if lines != [] {
      assert forall i, j :: 0 <= i < j < |lines| - 1 ==> lines[1..][i] == lines[i + 1] && lines[1..][j] == lines[j + 1];
      FilterDiffers(lines[1..], p);
      var rest := Filter(lines[1..], p);
      forall j | 0 <= j < |rest|
        ensures rest[j].id != lines[0].id
      {
        assert rest[j] in rest && rest[j] in lines[1..];
        var m :| 0 <= m < |lines| - 1 && lines[1..][m] == rest[j];
        assert LineKeyOf()(lines[0]) != LineKeyOf()(lines[m + 1]);
      }
    }
  }

  lemma {:induction false} ProportionsTotal(receipt: real, eligible: seq<ReceiptLine>, total: real)
    requires total != 0.0 && total == SumReal(eligible, Outstanding())
    ensures SumReal(eligible, Proportion(receipt, total)) == receipt
  {
    var k := receipt * (1.0 / total);
    forall l | l in eligible
      ensures Proportion(receipt, total)(l) == k * Outstanding()(l)
    {
      assert receipt * (l.outstanding * (1.0 / total)) == (receipt * (1.0 / total)) * l.outstanding;
    }
    SumRealScale(eligible, k, Outstanding(), Proportion(receipt, total));
    assert (1.0 / total) * total == 1.0;
    assert k * total == receipt * ((1.0 / total) * total);
  }

  lemma {:induction false} PartsSound(q: Request, eligible: seq<ReceiptLine>, part: ReceiptLine -> real)
    requires KeysDiffer(eligible, LineKeyOf()) && forall l :: l in eligible ==> Chosen(q, l)
    requires MapAll(eligible, Appender(q, part)).Some? && SumReal(eligible, part) == q.receipt
    ensures Sound(q, MapAll(eligible, Appender(q, part)).value)
  {
    var parts := MapAll(eligible, Appender(q, part)).value;
    MapAllAt(eligible, Appender(q, part));
    forall i | 0 <= i < |parts|
      ensures PartOf(q, parts[i], eligible[i]) && parts[i].gross == Signed(q, part(eligible[i]))
    {
      assert eligible[i] in eligible && Appender(q, part)(eligible[i]) == Some(parts[i]);
      AppendIsPart(q, eligible[i], part(eligible[i]));
    }
    forall i, j | 0 <= i < j < |parts|
      ensures parts[i].lineId != parts[j].lineId
    {
      assert LineKeyOf()(eligible[i]) != LineKeyOf()(eligible[j]);
    }
    SumSigned(q, eligible, parts, part);
  }

  lemma EligibleChosen(q: Request)
    requires KeysDiffer(q.lines, LineKeyOf())
    ensures KeysDiffer(Eligible(q), LineKeyOf()) && forall l :: l in Eligible(q) ==> Chosen(q, l)
  {
    FilterDiffers(q.lines, (l: ReceiptLine) => l.invoiceId == q.invoiceId && l.existedAt <= q.effectiveAt && l.outstanding > 0.0);
  }

  lemma ProRataSound(q: Request)
    requires Allocate(q).Some? && q.explicit.None?
    ensures Sound(q, Allocate(q).value)
  {
    if q.receipt != 0.0 {
      var eligible := Eligible(q);
      var total := SumReal(eligible, Outstanding());
      EligibleChosen(q);
      ProportionsTotal(q.receipt, eligible, total);
      PartsSound(q, eligible, Proportion(q.receipt, total));
    }
  }

  /**
   * Whatever the rule, an accepted allocation adds up to exactly the receipt (negated for a
   * reversal), names a line at most once, never exceeds a line's balance and keeps its net ratio.
   */
  lemma AllocationSound(q: Request)
    requires Allocate(q).Some?
    ensures Sound(q, Allocate(q).value)
  {
    if q.explicit.Some? {
      ExplicitSound(q);
    } else {
      ProRataSound(q);
    }
  }

  lemma MulRealOrder(a: real, b: real, c: real)
    requires a >= 0.0 && b <= c
    ensures a * b <= a * c
  {
  }

  lemma ScaledWithin(receipt: real, o: real, total: real, k: real)
    requires 0.0 < o && 0.0 <= receipt <= total && k > 0.0 && k * total == 1.0
    ensures 0.0 <= receipt * (o * k) <= o
  {
    MulRealOrder(k, receipt, total);
    MulRealOrder(k, 0.0, receipt);
    MulRealOrder(o, 0.0, k * receipt);
    MulRealOrder(o, k * receipt, 1.0);
    assert receipt * (o * k) == o * (k * receipt);
  }

  lemma Reciprocal(total: real)
    requires total > 0.0
    ensures 1.0 / total > 0.0 && (1.0 / total) * total == 1.0
  {
  }

  lemma PartWithin(receipt: real, l: ReceiptLine, total: real)
    requires l.outstanding > 0.0 && 0.0 < receipt <= total
    ensures 0.0 <= Proportion(receipt, total)(l) <= l.outstanding
  {
    Reciprocal(total);
    ScaledWithin(receipt, l.outstanding, total, 1.0 / total);
  }

  lemma {:induction false} PartsAccepted(q: Request, eligible: seq<ReceiptLine>, part: ReceiptLine -> real)
    requires forall l :: l in eligible ==> 0.0 <= part(l) <= l.outstanding && l.gross > 0
    ensures MapAll(eligible, Appender(q, part)).Some?
  {
    MapAllAt(eligible, Appender(q, part));
    forall i | 0 <= i < |eligible|
      ensures Appender(q, part)(eligible[i]).Some?
    {
      assert eligible[i] in eligible;
    }
  }

  /** Pro rata, every accepted request within the total balance is allocated: no part can overflow its line. */
  lemma ProRataTotal(q: Request)
    requires Acceptable(q) && q.explicit.None?
    ensures Allocate(q).Some? <==> q.receipt <= SumReal(Eligible(q), Outstanding())
  {
    EligibleChosen(q);
    if 0.0 < q.receipt <= SumReal(Eligible(q), Outstanding()) {
      var total := SumReal(Eligible(q), Outstanding());
      forall l | l in Eligible(q)
        ensures 0.0 <= Proportion(q.receipt, total)(l) <= l.outstanding
      {
        PartWithin(q.receipt, l, total);
      }
      PartsAccepted(q, Eligible(q), Proportion(q.receipt, total));
    }
  }

  // ----- how much every line gets -----

  /** What an allocation gives to the line. */
  function PartGrossOn(id: string): LineAllocation -> real {
    (a: LineAllocation) => if a.lineId == id then a.gross else 0.0
  }

  /** What the explicit shares ask for the line. */
  function AskedOn(id: string): ExplicitShare -> real {
    (s: ExplicitShare) => if s.lineId == id then s.gross else 0.0
  }

  /** The line's balance, when it existed in time and belongs to the invoice. */
  function BalanceOf(q: Request): ReceiptLine -> real {
    (l: ReceiptLine) => if l.existedAt <= q.effectiveAt && l.invoiceId == q.invoiceId && l.outstanding > 0.0 then l.outstanding else 0.0
  }

  lemma {:induction false} EligibleTotal(q: Request, lines: seq<ReceiptLine>)
    ensures SumReal(Filter(lines, (l: ReceiptLine) => l.invoiceId == q.invoiceId && l.existedAt <= q.effectiveAt && l.outstanding > 0.0), Outstanding())
            == SumReal(lines, BalanceOf(q))
  {
    if lines != [] {
      EligibleTotal(q, lines[1..]);
    }
  }

  lemma {:induction false} NoneOn(parts: seq<LineAllocation>, id: string)
    requires forall a :: a in parts ==> a.lineId != id
    ensures SumReal(parts, PartGrossOn(id)) == 0.0
  {
    if parts != [] {
      NoneOn(parts[1..], id);
    }
  }

  lemma {:induction false} OneOn(parts: seq<LineAllocation>, k: nat)
    requires k < |parts| && forall i, j :: 0 <= i < j < |parts| ==> parts[i].lineId != parts[j].lineId
    ensures SumReal(parts, PartGrossOn(parts[k].lineId)) == parts[k].gross
  {
    if k == 0 {
      forall a | a in parts[1..]
        ensures a.lineId != parts[0].lineId
      {
        var j :| 0 <= j < |parts[1..]| && parts[1..][j] == a;
        assert parts[j + 1] == a;
      }
      NoneOn(parts[1..], parts[0].lineId);
    } else {
      assert forall i :: 0 <= i < |parts[1..]| ==> parts[1..][i] == parts[i + 1];
      OneOn(parts[1..], k - 1);
    }
  }

  /** A part in proportion to its line's balance. */
  lemma InProportion(receipt: real, balance: real, total: real)
    requires total != 0.0
    ensures (receipt * (balance * (1.0 / total))) * total == receipt * balance
  {
    assert (1.0 / total) * total == 1.0;
    assert (receipt * (balance * (1.0 / total))) * total == (receipt * balance) * ((1.0 / total) * total);
  }

  lemma SignedProportion(q: Request, given: real, receipt: real, balance: real, total: real)
    requires total != 0.0 && given == Signed(q, receipt * (balance * (1.0 / total)))
    ensures Signed(q, given) * total == receipt * balance
  {
    InProportion(receipt, balance, total);
    assert Signed(q, given) == receipt * (balance * (1.0 / total));
  }

  lemma ProRataPart(q: Request, l: ReceiptLine, total: real)
    requires Allocate(q).Some? && q.explicit.None? && q.receipt != 0.0 && l in Eligible(q) && total == SumReal(Eligible(q), Outstanding())
    ensures total != 0.0 && SumReal(Allocate(q).value, PartGrossOn(l.id)) == Signed(q, Proportion(q.receipt, total)(l))
  {
    var eligible := Eligible(q);
    var parts := Allocate(q).value;
    EligibleChosen(q);
    var k :| 0 <= k < |eligible| && eligible[k] == l;
    MapAllAt(eligible, Appender(q, Proportion(q.receipt, total)));
    assert Appender(q, Proportion(q.receipt, total))(eligible[k]) == Some(parts[k]);
    AppendIsPart(q, l, Proportion(q.receipt, total)(l));
    AllocationSound(q);
    OneOn(parts, k);
  }

  lemma ProRataOutside(q: Request, l: ReceiptLine)
    requires Allocate(q).Some? && q.explicit.None? && l in q.lines && l !in Eligible(q)
    ensures SumReal(Allocate(q).value, PartGrossOn(l.id)) == 0.0
  {
    AllocationSound(q);
    forall a | a in Allocate(q).value
      ensures a.lineId != l.id
    {
      var m :| PartOf(q, a, m);
      var i :| 0 <= i < |q.lines| && q.lines[i] == l;
      var j :| 0 <= j < |q.lines| && q.lines[j] == m;
      assert m in Eligible(q);
      assert i != j;
      assert LineKeyOf()(q.lines[i]) != LineKeyOf()(q.lines[j]);
    }
    NoneOn(Allocate(q).value, l.id);
  }

  lemma SpreadProduct(q: Request, l: ReceiptLine, given: real, balance: real, total: real)
    requires balance == BalanceOf(q)(l)
    requires l !in Eligible(q) ==> given == 0.0
    requires l in Eligible(q) ==> if q.receipt == 0.0 then given == 0.0 else total != 0.0 && given == Signed(q, Proportion(q.receipt, total)(l))
    requires l in q.lines
    ensures Signed(q, given) * total == q.receipt * balance
  {
    if l in Eligible(q) && q.receipt != 0.0 {
      SignedProportion(q, given, q.receipt, l.outstanding, total);
    }
  }

  /** Without explicit shares every line gets its part in proportion to the balances of the lines that can take a receipt. */
  lemma ProRataSpread(q: Request, l: ReceiptLine, given: real, balance: real, total: real)
    requires balance == BalanceOf(q)(l)
    requires Allocate(q).Some? && q.explicit.None? && l in q.lines
    requires given == SumReal(Allocate(q).value, PartGrossOn(l.id)) && total == SumReal(q.lines, BalanceOf(q))
    ensures Signed(q, given) * total == q.receipt * balance
  {
    EligibleTotal(q, q.lines);
    if l !in Eligible(q) {
      ProRataOutside(q, l);
    } else if q.receipt != 0.0 {
      ProRataPart(q, l, total);
    }
    SpreadProduct(q, l, given, balance, total);
  }

  lemma {:induction false} AskedSum(q: Request, shares: seq<ExplicitShare>, parts: seq<LineAllocation>, id: string)
    requires |parts| == |shares| && forall i :: 0 <= i < |shares| ==> parts[i].gross == Signed(q, shares[i].gross) && parts[i].lineId == shares[i].lineId
    ensures SumReal(parts, PartGrossOn(id)) == Signed(q, SumReal(shares, AskedOn(id)))
  {
    if shares != [] {
      AskedSum(q, shares[1..], parts[1..], id);
    }
  }

  /** Explicit shares are followed to the letter. */
  lemma ExplicitSpread(q: Request, id: string)
    requires Allocate(q).Some? && q.explicit.Some?
    ensures SumReal(Allocate(q).value, PartGrossOn(id)) == Signed(q, SumReal(q.explicit.value, AskedOn(id)))
  {
    var shares, eligible, parts := q.explicit.value, Eligible(q), Allocate(q).value;
    MapAllAt(shares, ShareOut(q, eligible));
    forall i | 0 <= i < |parts|
      ensures parts[i].gross == Signed(q, shares[i].gross) && parts[i].lineId == shares[i].lineId
    {
      assert ShareOut(q, eligible)(shares[i]) == Some(parts[i]);
      FindLineFound(eligible, shares[i].lineId);
    }
    AskedSum(q, shares, parts, id);
  }

  /** An explicit share can be followed on a line that takes receipts, within its balance. */
  predicate Followable(q: Request, s: ExplicitShare) {
    exists l :: l in q.lines && l.id == s.lineId && BalanceOf(q)(l) > 0.0 && 0.0 <= s.gross <= l.outstanding
  }

  lemma ShareFollowed(q: Request, s: ExplicitShare)
    requires Acceptable(q)
    ensures ShareOut(q, Eligible(q))(s).Some? <==> Followable(q, s)
  {
    var eligible := Eligible(q);
    EligibleChosen(q);
    FindLineFound(eligible, s.lineId);
    if l :| l in q.lines && l.id == s.lineId && BalanceOf(q)(l) > 0.0 && 0.0 <= s.gross <= l.outstanding {
      assert l in eligible;
      var found := FindLine(eligible, s.lineId).value;
      var i :| 0 <= i < |eligible| && eligible[i] == l;
      var j :| 0 <= j < |eligible| && eligible[j] == found;
      LinesApart(eligible);
    }
  }

  lemma LinesApart(lines: seq<ReceiptLine>)
    requires KeysDiffer(lines, LineKeyOf())
    ensures forall i, j :: 0 <= i < j < |lines| ==> lines[i].id != lines[j].id
  {
    forall i, j | 0 <= i < j < |lines|
      ensures lines[i].id != lines[j].id
    {
      assert LineKeyOf()(lines[i]) != LineKeyOf()(lines[j]);
    }
  }

  /** Explicit shares are accepted exactly if each names another line that can take it and they add up to the receipt. */
  lemma ExplicitExactly(q: Request)
    requires Acceptable(q) && q.explicit.Some?
    ensures Allocate(q).Some? <==>
            && (forall i, j :: 0 <= i < j < |q.explicit.value| ==> q.explicit.value[i].lineId != q.explicit.value[j].lineId)
            && SumReal(q.explicit.value, ShareGross()) == q.receipt && forall s :: s in q.explicit.value ==> Followable(q, s)
  {
    var shares := q.explicit.value;
    MapAllAt(shares, ShareOut(q, Eligible(q)));
    SharesDiffer(shares);
    forall s | s in shares
      ensures ShareOut(q, Eligible(q))(s).Some? <==> Followable(q, s)
    {
      ShareFollowed(q, s);
    }
    assert (forall i :: 0 <= i < |shares| ==> ShareOut(q, Eligible(q))(shares[i]).Some?) <==> forall s :: s in shares ==> Followable(q, s);
  }

  lemma SharesDiffer(shares: seq<ExplicitShare>)
    ensures KeysDiffer(shares, ShareKey()) <==> forall i, j :: 0 <= i < j < |shares| ==> shares[i].lineId != shares[j].lineId
  {
    if KeysDiffer(shares, ShareKey()) {
      forall i, j | 0 <= i < j < |shares|
        ensures shares[i].lineId != shares[j].lineId
      {
        assert ShareKey()(shares[i]) != ShareKey()(shares[j]);
      }
    }
  }
}
