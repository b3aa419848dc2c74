/**
 * Billing facts, their schema and their normal form (packages/core/src/contractor-billing.ts).
 * Money fractions are exact reals.
 */
module Billing {
  import opened Prelude
  import opened Sorting
  import Csv

  datatype FactType = Invoiced | Credited | Paid | PaymentReversed | Rejected

  datatype LineKind = OriginalOrder | Extra | Other

  datatype Amounts = Amounts(net: int, vat: int, gross: int)

  datatype ExportMatch = ExportMatch(exportLineId: string, jobId: string, extraId: string,
                                     scopeItemId: string, revisionId: string, revisionHash: string)

  datatype InvoiceLine = InvoiceLine(id: string, kind: LineKind, existedAt: string, amounts: Amounts,
                                     export_: Option<ExportMatch>)

  datatype Composition = Composition(declared: Amounts, lines: seq<InvoiceLine>)

  datatype ExplicitShare = ExplicitShare(lineId: string, gross: real)

  datatype Adjustment = Adjustment(lineId: string, amounts: Amounts)

  datatype Status = Status(contract: string, source: string, eventId: string, invoiceNumber: string,
                           factType: FactType, effectiveAt: string,
                           remittance: Option<string>, reconciliation: Option<string>, original: Option<string>,
                           amount: Amounts, composition: Option<Composition>,
                           explicit: Option<seq<ExplicitShare>>, separate: bool, adjustments: seq<Adjustment>)

  /** Text services the schema calls: UUID recognition and lower-casing, and the canonical UTC form of an instant. */
  datatype TextRules = TextRules(guid: string -> bool, lower: string -> string, instant: string -> Option<string>)

  ghost predicate Sane(rules: TextRules) {
    && (forall s :: rules.guid(s) ==> rules.guid(rules.lower(s)))
    && (forall s :: rules.guid(s) ==> rules.lower(rules.lower(s)) == rules.lower(s))
    && (forall s :: rules.guid(s) ==> s != "" && Csv.NUL !in s)
    && (forall s :: rules.instant(s).Some? ==> rules.instant(rules.instant(s).value) == rules.instant(s))
    && (forall s :: rules.instant(s).Some? ==> s != "" && Csv.NUL !in s)
  }

  // ----- text order -----

  /** Lexicographic order of texts. */
  predicate TextLe(a: string, b: string) {
    if a == "" then true
    else if b == "" then false
    else a[0] < b[0] || (a[0] == b[0] && TextLe(a[1..], b[1..]))
  }

  lemma {:induction false} TextLeTotal(a: string, b: string)
    ensures TextLe(a, b) || TextLe(b, a)
    ensures TextLe(a, b) && TextLe(b, a) ==> a == b
  {
    if a != "" && b != "" {
      TextLeTotal(a[1..], b[1..]);
      assert a == [a[0]] + a[1..] && b == [b[0]] + b[1..];
    }
  }

  lemma {:induction false} TextLeTransitive(a: string, b: string, c: string)
    requires TextLe(a, b) && TextLe(b, c)
    ensures TextLe(a, c)
  {
    if a != "" && b != "" && c != "" && a[0] == b[0] == c[0] {
      TextLeTransitive(a[1..], b[1..], c[1..]);
    }
  }

  /** The order of elements by a text key. */
  function ByText<T>(key: T -> string): (T, T) -> bool {
    (a: T, b: T) => TextLe(key(a), key(b))
  }

  lemma ByTextTotal<T(!new)>(key: T -> string)
    ensures TotalPreorder(ByText(key))
    ensures forall a, b :: ByText(key)(a, b) && ByText(key)(b, a) ==> key(a) == key(b)
  {
    forall a, b
      ensures ByText(key)(a, b) || ByText(key)(b, a)
      ensures ByText(key)(a, b) && ByText(key)(b, a) ==> key(a) == key(b)
    {
      TextLeTotal(key(a), key(b));
    }
    forall a, b, c | ByText(key)(a, b) && ByText(key)(b, c)
      ensures ByText(key)(a, c)
    {
      TextLeTransitive(key(a), key(b), key(c));
    }
  }

  // ----- keys that must differ -----

  /** No two positions hold elements with the same present key. */
  predicate KeysDiffer<T, K(==)>(s: seq<T>, key: T -> Option<K>) {
    forall i, j :: 0 <= i < j < |s| && key(s[i]).Some? ==> key(s[i]) != key(s[j])
  }

  /** Whether keys differ does not depend on the arrangement. */
  lemma KeysDifferPermuted<T, K>(a: seq<T>, b: seq<T>, key: T -> Option<K>)
    requires multiset(a) == multiset(b) && KeysDiffer(a, key)
    ensures KeysDiffer(b, key)
  {
    forall i, j | 0 <= i < j < |b| && key(b[i]).Some?
      ensures key(b[i]) != key(b[j])
    {
      if b[i] == b[j] {
        CountTwo(b, i, j);
        var m, n := FindTwo(a, b[i]);
      } else {
        assert b[i] in multiset(a) && b[j] in multiset(a);
        var m :| 0 <= m < |a| && a[m] == b[i];
        var n :| 0 <= n < |a| && a[n] == b[j];
      }
    }
  }

  // ----- the schema -----

  const MAX_LINES: nat := Csv.MAX_ALLOCATION_LINES

  predicate Identity(s: string) {
    1 <= |s| <= 200 && forall c :: c in s ==> c > '\U{1F}' && c != '\U{7F}'
  }

  predicate SourceName(s: string) {
    && 1 <= |s| <= 100
    && (forall c :: c in s ==> 'a' <= c <= 'z' || '0' <= c <= '9' || c == '_' || c == '.' || c == '-')
    && ('a' <= s[0] <= 'z' || '0' <= s[0] <= '9')
  }

  predicate HashText(s: string) {
    |s| == 64 && forall c :: c in s ==> 'a' <= c <= 'f' || '0' <= c <= '9'
  }

  predicate ValidAmounts(a: Amounts) {
    && 0 <= a.net <= MAX_MONEY_PENCE && 0 <= a.vat <= MAX_MONEY_PENCE && 0 <= a.gross <= MAX_MONEY_PENCE
    && a.net + a.vat == a.gross
  }

  predicate ValidMatch(rules: TextRules, m: ExportMatch) {
    && rules.guid(m.exportLineId) && rules.guid(m.jobId) && rules.guid(m.extraId)
    && rules.guid(m.scopeItemId) && rules.guid(m.revisionId) && HashText(m.revisionHash)
  }

  predicate ValidLine(rules: TextRules, l: InvoiceLine) {
    && Identity(l.id) && rules.instant(l.existedAt).Some?
    && ValidAmounts(l.amounts) && l.amounts.gross > 0
    && (l.kind == Extra <==> l.export_.Some?)
    && (l.export_.Some? ==> ValidMatch(rules, l.export_.value))
  }

  function LineId(): InvoiceLine -> string { (l: InvoiceLine) => l.id }
  function LineKey(): InvoiceLine -> Option<string> { (l: InvoiceLine) => Some(l.id) }
  function ExportKey(): InvoiceLine -> Option<string> {
    (l: InvoiceLine) => if l.export_.Some? then Some(l.export_.value.exportLineId) else None
  }
  function LineNet(): InvoiceLine -> int { (l: InvoiceLine) => l.amounts.net }
  function LineVat(): InvoiceLine -> int { (l: InvoiceLine) => l.amounts.vat }
  function LineGross(): InvoiceLine -> int { (l: InvoiceLine) => l.amounts.gross }
  function ShareId(): ExplicitShare -> string { (s: ExplicitShare) => s.lineId }
  function ShareKey(): ExplicitShare -> Option<string> { (s: ExplicitShare) => Some(s.lineId) }
  function AdjustmentId(): Adjustment -> string { (a: Adjustment) => a.lineId }
  function AdjustmentKey(): Adjustment -> Option<string> { (a: Adjustment) => Some(a.lineId) }
  function AdjustedNet(): Adjustment -> int { (a: Adjustment) => a.amounts.net }
  function AdjustedVat(): Adjustment -> int { (a: Adjustment) => a.amounts.vat }
  function AdjustedGross(): Adjustment -> int { (a: Adjustment) => a.amounts.gross }

  predicate ValidComposition(rules: TextRules, c: Composition) {
    && ValidAmounts(c.declared) && 1 <= |c.lines| <= MAX_LINES
    && (forall l :: l in c.lines ==> ValidLine(rules, l))
    && KeysDiffer(c.lines, LineKey()) && KeysDiffer(c.lines, ExportKey())
    && SumBy(c.lines, LineNet()) == c.declared.net
    && SumBy(c.lines, LineVat()) == c.declared.vat
    && SumBy(c.lines, LineGross()) == c.declared.gross
  }

  predicate ValidShares(s: seq<ExplicitShare>) {
    && |s| <= MAX_LINES && KeysDiffer(s, ShareKey())
    && forall x :: x in s ==> Identity(x.lineId) && 0.0 <= x.gross <= MAX_MONEY_PENCE as real
  }

  predicate ValidAdjustments(s: seq<Adjustment>) {
    && |s| <= MAX_LINES && KeysDiffer(s, AdjustmentKey())
    && forall x :: x in s ==> Identity(x.lineId) && ValidAmounts(x.amounts)
  }

  predicate Settlement(f: FactType) {
    f == Paid || f == PaymentReversed
  }

  predicate ValidStatus(rules: TextRules, e: Status) {
    && rules.guid(e.contract) && SourceName(e.source) && Identity(e.eventId) && Identity(e.invoiceNumber)
    && rules.instant(e.effectiveAt).Some?
    && (e.remittance.Some? ==> 1 <= |e.remittance.value| <= 300)
    && (e.reconciliation.Some? ==> Identity(e.reconciliation.value))
    && (e.original.Some? ==> Identity(e.original.value))
    && ValidAmounts(e.amount)
    && (e.composition.Some? ==> ValidComposition(rules, e.composition.value))
    && (e.explicit.Some? ==> ValidShares(e.explicit.value))
    && ValidAdjustments(e.adjustments)
    && (!Settlement(e.factType) ==> e.explicit.None? && !e.separate)
    && (e.factType != Credited && e.factType != Rejected ==> e.adjustments == [])
    && (e.factType == Paid ==> e.original.None?)
    && (e.factType == Invoiced && e.composition.Some? ==> e.amount == e.composition.value.declared)
    && (e.factType == Credited && e.adjustments != [] ==>
          && SumBy(e.adjustments, AdjustedNet()) == e.amount.net
          && SumBy(e.adjustments, AdjustedVat()) == e.amount.vat
          && SumBy(e.adjustments, AdjustedGross()) == e.amount.gross)
  }

  // ----- normal form -----

  function LowerMatch(rules: TextRules, m: ExportMatch): ExportMatch {
    m.(exportLineId := rules.lower(m.exportLineId), jobId := rules.lower(m.jobId), extraId := rules.lower(m.extraId),
       scopeItemId := rules.lower(m.scopeItemId), revisionId := rules.lower(m.revisionId))
  }

  function LowerLine(rules: TextRules): InvoiceLine -> InvoiceLine {
    (l: InvoiceLine) =>
      l.(export_ := if l.export_.Some? then Some(LowerMatch(rules, l.export_.value)) else None)
  }

  predicate GuidsIn(rules: TextRules, e: Status) {
    && rules.guid(e.contract)
    && (e.composition.Some? ==> forall l :: l in e.composition.value.lines && l.export_.Some? ==>
          ValidMatch(rules, l.export_.value))
  }

  /** The schema lower-cases every UUID before its cross-field checks run. */
  function Lowered(rules: TextRules, e: Status): Status {
    e.(contract := rules.lower(e.contract),
       composition := if e.composition.None? then None
                      else Some(e.composition.value.(lines := Map(e.composition.value.lines, LowerLine(rules)))))
  }

  function CanonLine(rules: TextRules): InvoiceLine -> InvoiceLine {
    (l: InvoiceLine) => if rules.instant(l.existedAt).Some? then l.(existedAt := rules.instant(l.existedAt).value) else l
  }

  function NormalLines(rules: TextRules, lines: seq<InvoiceLine>): seq<InvoiceLine> {
    Sort(Map(lines, CanonLine(rules)), ByText(LineId()))
  }

  function Arranged(rules: TextRules, e: Status): Status
    requires rules.instant(e.effectiveAt).Some?
  {
    e.(effectiveAt := rules.instant(e.effectiveAt).value,
       composition := if e.composition.None? then None
                      else Some(e.composition.value.(lines := NormalLines(rules, e.composition.value.lines))),
       explicit := if e.explicit.None? then None else Some(Sort(e.explicit.value, ByText(ShareId()))),
       adjustments := Sort(e.adjustments, ByText(AdjustmentId())))
  }

  /** The normal form of a raw fact, or None when the schema refuses it. */
  function Normalize(rules: TextRules, raw: Status): Option<Status> {
    if !GuidsIn(rules, raw) then None
    else
      var e := Lowered(rules, raw);
      if ValidStatus(rules, e) then Some(Arranged(rules, e)) else None
  }

  function Normalizer(rules: TextRules): Status -> Option<Status> {
    (raw: Status) => Normalize(rules, raw)
  }

  // ----- normalizing twice changes nothing -----

  lemma {:induction false} SortOfSorted<T>(s: seq<T>, le: (T, T) -> bool)
    requires Sorted(s, le)
    ensures Sort(s, le) == s
  {
    if s != [] {
      SortOfSorted(s[1..], le);
      assert s == [s[0]] + s[1..];
    }
  }

  lemma {:induction false} SortedTwice<T(!new)>(s: seq<T>, key: T -> string)
    ensures var le := ByText(key);
            Sort(Sort(s, le), le) == Sort(s, le) && multiset(Sort(s, le)) == multiset(s) && |Sort(s, le)| == |s|
  {
    ByTextTotal(key);
    SortSorts(s, ByText(key));
    SortPermutes(s, ByText(key));
    SortOfSorted(Sort(s, ByText(key)), ByText(key));
  }

  lemma FixedMap<T>(s: seq<T>, f: T -> T)
    requires forall x :: x in s ==> f(x) == x
    ensures Map(s, f) == s
  {
    assert forall i :: 0 <= i < |s| ==> s[i] in s;
  }

  lemma {:induction false} SumOfMap<T>(s: seq<T>, f: T -> T, g: T -> int)
    requires forall x :: x in s ==> g(f(x)) == g(x)
    ensures SumBy(Map(s, f), g) == SumBy(s, g)
  {
    if s != [] {
      assert Map(s, f)[1..] == Map(s[1..], f);
      assert s[0] in s && forall x :: x in s[1..] ==> x in s;
      SumOfMap(s[1..], f, g);
    }
  }

  lemma CanonMapValid(rules: TextRules, c: Composition)
    requires Sane(rules) && ValidComposition(rules, c)
    ensures ValidComposition(rules, c.(lines := Map(c.lines, CanonLine(rules))))
    ensures forall l :: l in Map(c.lines, CanonLine(rules)) ==> CanonLine(rules)(l) == l
  {
    var mapped := Map(c.lines, CanonLine(rules));
    forall l | l in mapped
      ensures ValidLine(rules, l) && CanonLine(rules)(l) == l
    {
      var i :| 0 <= i < |mapped| && mapped[i] == l;
      assert c.lines[i] in c.lines;
    }
    SumOfMap(c.lines, CanonLine(rules), LineNet());
    SumOfMap(c.lines, CanonLine(rules), LineVat());
    SumOfMap(c.lines, CanonLine(rules), LineGross());
  }

  lemma PermutedCompositionValid(rules: TextRules, c: Composition, lines: seq<InvoiceLine>)
    requires ValidComposition(rules, c) && multiset(lines) == multiset(c.lines)
    ensures ValidComposition(rules, c.(lines := lines))
  {
    MembersPermuted(lines, c.lines);
    KeysDifferPermuted(c.lines, lines, LineKey());
    KeysDifferPermuted(c.lines, lines, ExportKey());
    SumByPermuted(c.lines, lines, LineNet());
    SumByPermuted(c.lines, lines, LineVat());
    SumByPermuted(c.lines, lines, LineGross());
  }

  /** Rearranging a composition's lines and rewriting instants in canonical form keeps it valid. */
  lemma NormalCompositionValid(rules: TextRules, c: Composition)
    requires Sane(rules) && ValidComposition(rules, c)
    ensures ValidComposition(rules, c.(lines := NormalLines(rules, c.lines)))
    ensures NormalLines(rules, NormalLines(rules, c.lines)) == NormalLines(rules, c.lines)
  {
    var mapped := Map(c.lines, CanonLine(rules));
    var sorted := NormalLines(rules, c.lines);
    CanonMapValid(rules, c);
    SortedTwice(mapped, LineId());
    MembersPermuted(sorted, mapped);
    FixedMap(sorted, CanonLine(rules));
    PermutedCompositionValid(rules, c.(lines := mapped), sorted);
  }

  lemma {:induction false} NormalSharesValid(s: seq<ExplicitShare>)
    requires ValidShares(s)
    ensures ValidShares(Sort(s, ByText(ShareId())))
  {
    var sorted := Sort(s, ByText(ShareId()));
    SortedTwice(s, ShareId());
    MembersPermuted(sorted, s);
    KeysDifferPermuted(s, sorted, ShareKey());
  }

  lemma {:induction false} NormalAdjustmentsValid(s: seq<Adjustment>)
    requires ValidAdjustments(s)
    ensures ValidAdjustments(Sort(s, ByText(AdjustmentId())))
    ensures Sort(s, ByText(AdjustmentId())) == [] <==> s == []
    ensures forall f: Adjustment -> int :: SumBy(Sort(s, ByText(AdjustmentId())), f) == SumBy(s, f)
  {
    var sorted := Sort(s, ByText(AdjustmentId()));
    SortedTwice(s, AdjustmentId());
    MembersPermuted(sorted, s);
    KeysDifferPermuted(s, sorted, AdjustmentKey());
    forall f: Adjustment -> int
      ensures SumBy(sorted, f) == SumBy(s, f)
    {
      SumByPermuted(sorted, s, f);
    }
  }

  lemma ArrangedValid(rules: TextRules, e: Status)
    requires Sane(rules) && ValidStatus(rules, e)
    ensures ValidStatus(rules, Arranged(rules, e))
  {
    if e.composition.Some? {
      NormalCompositionValid(rules, e.composition.value);
    }
    if e.explicit.Some? {
      NormalSharesValid(e.explicit.value);
    }
    NormalAdjustmentsValid(e.adjustments);
  }

  lemma ArrangedTwice(rules: TextRules, e: Status)
    requires Sane(rules) && ValidStatus(rules, e)
    ensures rules.instant(Arranged(rules, e).effectiveAt).Some? && Arranged(rules, Arranged(rules, e)) == Arranged(rules, e)
  {
    if e.composition.Some? {
      NormalCompositionValid(rules, e.composition.value);
    }
    if e.explicit.Some? {
      SortedTwice(e.explicit.value, ShareId());
    }
    SortedTwice(e.adjustments, AdjustmentId());
  }

  /** A lowered fact is still lowered after its lines are rearranged. */
  lemma ArrangedLowered(rules: TextRules, raw: Status)
    requires Sane(rules) && GuidsIn(rules, raw) && ValidStatus(rules, Lowered(rules, raw))
    ensures var n := Arranged(rules, Lowered(rules, raw));
            GuidsIn(rules, n) && Lowered(rules, n) == n
  {
    if raw.composition.Some? {
      LoweredLinesKept(rules, raw.composition.value.lines);
    }
  }

  lemma LoweredLinesKept(rules: TextRules, lines: seq<InvoiceLine>)
    requires Sane(rules)
    requires forall l :: l in lines && l.export_.Some? ==> ValidMatch(rules, l.export_.value)
    ensures var n := NormalLines(rules, Map(lines, LowerLine(rules)));
            && Map(n, LowerLine(rules)) == n
            && forall l :: l in n && l.export_.Some? ==> ValidMatch(rules, l.export_.value)
  {
    var mapped := Map(Map(lines, LowerLine(rules)), CanonLine(rules));
    var n := NormalLines(rules, Map(lines, LowerLine(rules)));
    SortedTwice(mapped, LineId());
    MembersPermuted(n, mapped);
    forall l | l in n
      ensures LowerLine(rules)(l) == l && (l.export_.Some? ==> ValidMatch(rules, l.export_.value))
    {
      var i :| 0 <= i < |mapped| && mapped[i] == l;
      LowerLineTwice(rules, lines[i]);
    }
    FixedMap(n, LowerLine(rules));
  }

  lemma LowerLineTwice(rules: TextRules, l: InvoiceLine)
    requires Sane(rules) && (l.export_.Some? ==> ValidMatch(rules, l.export_.value))
    ensures var k := CanonLine(rules)(LowerLine(rules)(l));
            LowerLine(rules)(k) == k && (k.export_.Some? ==> ValidMatch(rules, k.export_.value))
  {
  }

  /** Normalizing is idempotent: a fact in normal form is accepted and kept. */
  lemma NormalizeTwice(rules: TextRules, raw: Status)
    requires Sane(rules) && Normalize(rules, raw).Some?
    ensures Normalize(rules, Normalize(rules, raw).value) == Normalize(rules, raw)
    ensures ValidStatus(rules, Normalize(rules, raw).value)
  {
    ArrangedValid(rules, Lowered(rules, raw));
    ArrangedTwice(rules, Lowered(rules, raw));
    ArrangedLowered(rules, raw);
  }
}
