/** Concrete facts on which the billing theorems' exact conditions fail. */
module BillingExamples {
  import opened Prelude
  import opened Sorting
  import opened Billing
  import opened BillingLedger
  import opened BillingOrder
  import opened BillingCsv
  import opened BillingRoundTrip
  import Csv

  /** A UUID and an instant that are already in canonical form. */
  predicate Canonical(rules: TextRules, uuid: string, instant: string) {
    rules.guid(uuid) && rules.lower(uuid) == uuid && rules.instant(instant) == Some(instant)
  }

  /** An observed payment without a composition. */
  function Payment(uuid: string, instant: string, id: string, pence: int, remittance: Option<string>): Status {
    Status(uuid, "till", id, "INV-1", Paid, instant, remittance, None, None, Amounts(pence, 0, pence), None, None, false, [])
  }

  /** Text rules that know one UUID and one instant. */
  const ONE_OF_EACH := TextRules((s: string) => s == "u", (s: string) => s, (s: string) => if s == "t" then Some(s) else None)

  lemma RulesExist()
    ensures Sane(ONE_OF_EACH) && Canonical(ONE_OF_EACH, "u", "t")
  {
  }

  lemma PaymentNormal(rules: TextRules, uuid: string, instant: string, id: string, pence: int, remittance: Option<string>)
    requires Canonical(rules, uuid, instant) && Identity(id) && 0 <= pence <= MAX_MONEY_PENCE
    requires remittance.Some? ==> 1 <= |remittance.value| <= 300
    ensures Normalizer(rules)(Payment(uuid, instant, id, pence, remittance)) == Some(Payment(uuid, instant, id, pence, remittance))
  {
    var e := Payment(uuid, instant, id, pence, remittance);
    assert SourceName(e.source) && Identity(e.invoiceNumber);
    assert Lowered(rules, e) == e && Arranged(rules, e) == e;
  }

  lemma NamelessUnreadable(rules: TextRules, uuid: string, instant: string, pence: int)
    ensures Normalizer(rules)(Payment(uuid, instant, "", pence, None)) == None
  {
    assert Lowered(rules, Payment(uuid, instant, "", pence, None)).eventId == "";
  }

  /** An unreadable fact and two that contradict each other: what arrives first decides the refusal. */
  lemma RefusalKindDependsOnArrival(rules: TextRules, uuid: string, instant: string, digest: Status -> string, clock: string -> real)
    requires Canonical(rules, uuid, instant) && Injective(digest)
    ensures var bad, x, y := Payment(uuid, instant, "", 100, None), Payment(uuid, instant, "e1", 100, None), Payment(uuid, instant, "e1", 200, None);
            && Derive(Normalizer(rules), digest, clock, [bad, x, y]) == Err(InvalidInput)
            && Derive(Normalizer(rules), digest, clock, [x, y, bad]) == Err(Conflict)
  {
    var bad, x, y := Payment(uuid, instant, "", 100, None), Payment(uuid, instant, "e1", 100, None), Payment(uuid, instant, "e1", 200, None);
    NamelessUnreadable(rules, uuid, instant, 100);
    PaymentNormal(rules, uuid, instant, "e1", 100, None);
    PaymentNormal(rules, uuid, instant, "e1", 200, None);
    assert x != y;
    assert [bad, x, y] == [bad] + [x, y] && [x, y, bad] == [x, y] + [bad];
    BadFirst(Normalizer(rules), digest, clock, bad, [x, y]);
    ContradictionFirst(Normalizer(rules), digest, clock, x, y, [bad]);
  }

  lemma {:induction false} PlainBatch(rules: TextRules, json: Json, events: seq<Status>)
    requires 1 <= |events| <= MAX_LINES && forall e :: e in events ==> e.composition.None? && Normalizer(rules)(e) == Some(e)
    ensures MapAll(events, Normalizer(rules)) == Some(events) && |AllRows(json, events)| == |events|
    ensures Render(rules, json, events).Some?
  {
    NormalBatch(events, Normalizer(rules));
    OneRowEach(json, events);
  }

  lemma {:induction false} NormalBatch(events: seq<Status>, normal: Status -> Option<Status>)
    requires forall e :: e in events ==> normal(e) == Some(e)
    ensures MapAll(events, normal) == Some(events)
  {
    if events != [] {
      assert events[0] in events && forall e :: e in events[1..] ==> e in events;
      NormalBatch(events[1..], normal);
      assert events == [events[0]] + events[1..];
    }
  }

  lemma {:induction false} OneRowEach(json: Json, events: seq<Status>)
    requires forall e :: e in events ==> e.composition.None?
    ensures |AllRows(json, events)| == |events|
  {
    if events != [] {
      assert events[0] in events && forall e :: e in events[1..] ==> e in events;
      OneRowEach(json, events[1..]);
    }
  }

  /** A remittance reference may hold a NUL; the batch is rendered, and the text is refused. */
  lemma NulNotReadBack(rules: TextRules, json: Json, uuid: string, instant: string, bytes: nat)
    requires Sane(rules) && Faithful(json) && Canonical(rules, uuid, instant)
    ensures var raws := [Payment(uuid, instant, "e1", 100, Some([Csv.NUL]))];
            Render(rules, json, raws).Some? && Parse(rules, json, Render(rules, json, raws).value, bytes) == None
  {
    var raws := [Payment(uuid, instant, "e1", 100, Some([Csv.NUL]))];
    PaymentNormal(rules, uuid, instant, "e1", 100, Some([Csv.NUL]));
    PlainBatch(rules, json, raws);
    assert raws[0] in raws && CarriesNul(raws[0]);
    BillingRoundTrip.BillingRoundTrip(rules, json, raws, bytes);
  }

  lemma SharedIdentityRefused(rules: TextRules, json: Json, x: Status, y: Status, bytes: nat)
    requires Sane(rules) && Faithful(json) && Normalizer(rules)(x) == Some(x) && Normalizer(rules)(y) == Some(y)
    requires x.composition.None? && y.composition.None? && SameKey(x, y)
    ensures Render(rules, json, [x, y]).Some? && Parse(rules, json, Render(rules, json, [x, y]).value, bytes) == None
  {
    PlainBatch(rules, json, [x, y]);
    assert SameKey([x, y][0], [x, y][1]) && !KeysUnique([x, y]);
    BillingRoundTrip.BillingRoundTrip(rules, json, [x, y], bytes);
  }

  /** Two facts may share their identity; the batch is rendered, and the text is refused. */
  lemma SharedIdentityNotReadBack(rules: TextRules, json: Json, uuid: string, instant: string, bytes: nat)
    requires Sane(rules) && Faithful(json) && Canonical(rules, uuid, instant)
    ensures var raws := [Payment(uuid, instant, "e1", 100, None), Payment(uuid, instant, "e1", 200, None)];
            Render(rules, json, raws).Some? && Parse(rules, json, Render(rules, json, raws).value, bytes) == None
  {
    var raws := [Payment(uuid, instant, "e1", 100, None), Payment(uuid, instant, "e1", 200, None)];
    PaymentNormal(rules, uuid, instant, "e1", 100, None);
    PaymentNormal(rules, uuid, instant, "e1", 200, None);
    SharedIdentityRefused(rules, json, raws[0], raws[1], bytes);
  }
}
