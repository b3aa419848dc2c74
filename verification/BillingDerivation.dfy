/**
 * The derivation as it runs: arrival-order loops, and reversal balances held in objects that all
 * observations of one movement share. Each method is proved against BillingLedger's specification.
 */
module BillingDerivation {
  import opened Prelude
  import opened Sorting
  import opened Billing
  import opened ReceiptAllocation
  import opened BillingLedger

  /** A receipt's remaining allocation, shared by every observation id of its movement. */
  class Balance {
    const movement: string
    var remaining: seq<BillingAllocation>

    constructor (movement: string, remaining: seq<BillingAllocation>)
      ensures this.movement == movement && this.remaining == remaining
    {
      this.movement := movement;
      this.remaining := remaining;
    }
  }

  ghost function AccountsOf(balances: seq<Balance>): seq<Account>
    reads balances
  {
    seq(|balances|, i requires 0 <= i < |balances| reads balances => Account(balances[i].movement, balances[i].remaining))
  }

  /** The observation ids reach exactly the balances the specification's owner map numbers. */
  ghost predicate Shares(receipts: map<string, Balance>, balances: seq<Balance>, owner: map<string, nat>) {
    && Distinct(balances) && receipts.Keys == owner.Keys
    && forall o :: o in owner ==> owner[o] < |balances| && receipts[o] == balances[owner[o]]
  }

  method DedupeFacts(raws: seq<Status>, normal: Status -> Option<Status>, digest: Status -> string)
    returns (result: Result<seq<Status>, BillingError>)
    ensures result == Dedupe(raws, [], normal, digest)
  {
    var unique: seq<Status> := [];
    var i := 0;
    assert raws[0..] == raws;
    while i < |raws|
      invariant 0 <= i <= |raws|
      invariant Dedupe(raws[i..], unique, normal, digest) == Dedupe(raws, [], normal, digest)
    {
      assert raws[i..][0] == raws[i] && raws[i..][1..] == raws[i + 1..];
      var n := normal(raws[i]);
      if n.None? {
        return Err(InvalidInput);
      }
      var k := IndexOfFact(unique, n.value);
      if k < |unique| && digest(unique[k]) != digest(n.value) {
        return Err(Conflict);
      }
      unique := if k < |unique| then unique[k := n.value] else unique + [n.value];
      i := i + 1;
    }
    return Ok(unique);
  }

  /** Sorts pending facts into other facts, movements and facts held for want of an identity. */
  method GroupMovements(pending: seq<Status>)
    returns (others: seq<Status>, movements: Option<seq<Movement>>, held: seq<Hold>)
    ensures movements == ObserveAll([], Filter(pending, IsIdentified()))
    ensures movements.Some? ==>
              && others == Filter(pending, IsOther())
              && held == HoldsOf(pending)
  {
    others, held := [], [];
    var ms: seq<Movement> := [];
    for i := 0 to |pending|
      invariant others == Filter(pending[..i], IsOther())
      invariant held == HoldsOf(pending[..i])
      invariant ObserveAll([], Filter(pending[..i], IsIdentified())) == Some(ms)
    {
      var e := pending[i];
      OthersNext(pending, i);
      HoldsNext(pending, i);
      IdentifiedNext(pending, i);
      if !Settlement(e.factType) {
        others := others + [e];
      } else if e.reconciliation.None? {
        held := held + [Hold(e.eventId, MovementIdentityRequired)];
      } else {
        ObserveNext(pending, i, ms);
        var next := ObserveOne(ms, e);
        if next.None? {
          return others, None, held;
        }
        ms := next.value;
      }
    }
    assert pending[..|pending|] == pending;
    movements := Some(ms);
  }

  function HoldsOf(pending: seq<Status>): seq<Hold> {
    Map(Filter(pending, IsUnidentified()), UnidentifiedHold())
  }

  lemma OthersNext(pending: seq<Status>, i: nat)
    requires i < |pending|
    ensures Filter(pending[..i + 1], IsOther()) ==
            Filter(pending[..i], IsOther()) + (if Settlement(pending[i].factType) then [] else [pending[i]])
  {
    FilterNext(pending, i, IsOther());
  }

  lemma HoldsNext(pending: seq<Status>, i: nat)
    requires i < |pending|
    ensures var e := pending[i];
            HoldsOf(pending[..i + 1]) == HoldsOf(pending[..i])
            + (if Settlement(e.factType) && e.reconciliation.None? then [Hold(e.eventId, MovementIdentityRequired)] else [])
  {
    FilterNext(pending, i, IsUnidentified());
    var e := pending[i];
    MapAppend(Filter(pending[..i], IsUnidentified()), if IsUnidentified()(e) then [e] else [], UnidentifiedHold());
  }

  lemma IdentifiedNext(pending: seq<Status>, i: nat)
    requires i < |pending|
    ensures !(Settlement(pending[i].factType) && pending[i].reconciliation.Some?) ==>
              Filter(pending[..i + 1], IsIdentified()) == Filter(pending[..i], IsIdentified())
  {
    FilterNext(pending, i, IsIdentified());
  }

  method ObserveOne(ms: seq<Movement>, e: Status) returns (next: Option<seq<Movement>>)
    requires e.reconciliation.Some?
    ensures next == Observe(ms, e)
  {
    var k := IndexOfMovement(ms, e.reconciliation.value);
    if k < |ms| && ms[k].signature != Signature(e) {
      return None;
    }
    if k < |ms| {
      return Some(ms[k := ms[k].(observations := ms[k].observations + [e.eventId])]);
    }
    return Some(ms + [Movement(e.reconciliation.value, Signature(e), e, [e.eventId])]);
  }

  /** Observing the next identified fact continues the grouping, or ends it in a conflict. */
  lemma {:induction false} ObserveNext(pending: seq<Status>, i: nat, ms: seq<Movement>)
    requires i < |pending| && IsIdentified()(pending[i])
    requires ObserveAll([], Filter(pending[..i], IsIdentified())) == Some(ms)
    ensures ObserveAll([], Filter(pending[..i + 1], IsIdentified())) == Observe(ms, pending[i])
    ensures Observe(ms, pending[i]).None? ==> ObserveAll([], Filter(pending, IsIdentified())) == None
  {
    var before, e := Filter(pending[..i], IsIdentified()), pending[i];
    FilterNext(pending, i, IsIdentified());
    ObserveAllAppend([], before, [e]);
    assert [e][1..] == [];
    assert pending == pending[..i + 1] + pending[i + 1..];
    FilterAppend(pending[..i + 1], pending[i + 1..], IsIdentified());
    ObserveAllAppend([], before + [e], Filter(pending[i + 1..], IsIdentified()));
  }

  lemma FilterNext(s: seq<Status>, i: nat, p: Status -> bool)
    requires i < |s|
    ensures Filter(s[..i + 1], p) == Filter(s[..i], p) + (if p(s[i]) then [s[i]] else [])
  {
    assert s[..i + 1] == s[..i] + [s[i]];
    FilterAppend(s[..i], [s[i]], p);
    assert [s[i]][1..] == [];
  }

  lemma {:induction false} ObserveAllAppend(ms: seq<Movement>, a: seq<Status>, b: seq<Status>)
    ensures ObserveAll(ms, a + b) ==
            if ObserveAll(ms, a).None? then None else ObserveAll(ObserveAll(ms, a).value, b)
    decreases |a|
  {
    if a == [] {
      assert a + b == b;
    } else {
      assert (a + b)[0] == a[0] && (a + b)[1..] == a[1..] + b;
      if a[0].reconciliation.Some? && Observe(ms, a[0]).Some? {
        ObserveAllAppend(Observe(ms, a[0]).value, a[1..], b);
      }
    }
  }

  /** Applies each credited or rejected line detail in turn. */
  method CreditLines(clock: string -> real, composed: seq<InvoiceLine>, e: Status, before: seq<LedgerLine>)
    returns (lines: Option<seq<LedgerLine>>)
    ensures lines == ApplyDetails(clock, composed, e, before, e.adjustments)
  {
    var current, i := before, 0;
    assert e.adjustments[0..] == e.adjustments;
    while i < |e.adjustments|
      invariant 0 <= i <= |e.adjustments|
      invariant ApplyDetails(clock, composed, e, current, e.adjustments[i..]) ==
                ApplyDetails(clock, composed, e, before, e.adjustments)
    {
      var d := e.adjustments[i];
      assert e.adjustments[i..][0] == d && e.adjustments[i..][1..] == e.adjustments[i + 1..];
      var k, original := IndexOfLine(current, d.lineId), LineOf(composed, d.lineId);
      if k == |current| || original.None? || clock(original.value.existedAt) > clock(e.effectiveAt) {
        return None;
      }
      if e.factType == Rejected {
        current := current[k := current[k].(rejected := true)];
      } else {
        var net := current[k].creditedNet + d.amounts.net as real;
        var gross := current[k].creditedGross + d.amounts.gross as real;
        if net > current[k].billedNet || gross > original.value.amounts.gross as real
          || gross - net > original.value.amounts.vat as real {
          return None;
        }
        current := current[k := current[k].(creditedNet := net, creditedGross := gross)];
      }
      i := i + 1;
    }
    return Some(current);
  }

  method PayLine(before: seq<LedgerLine>, a: BillingAllocation) returns (lines: seq<LedgerLine>)
    ensures lines == PayPart(before, a)
  {
    lines := before;
    var k := IndexOfLine(lines, a.lineId);
    if k < |lines| {
      var l := lines[k];
      lines := lines[k := l.(paidGross := l.paidGross + a.gross, paidNet := l.paidNet + a.net,
                             matchedExtraNet := l.matchedExtraNet + a.matched)];
    }
  }

  lemma {:induction false} PayNext(lines: seq<LedgerLine>, parts: seq<BillingAllocation>, i: nat)
    requires i < |parts|
    ensures Pay(lines, parts[i..]) == Pay(PayPart(lines, parts[i]), parts[i + 1..])
  {
    assert parts[i..][1..] == parts[i + 1..];
  }

  method PayLines(before: seq<LedgerLine>, parts: seq<BillingAllocation>) returns (lines: seq<LedgerLine>)
    ensures lines == Pay(before, parts)
  {
    lines := before;
    var i := 0;
    assert parts[0..] == parts;
    while i < |parts|
      invariant 0 <= i <= |parts|
      invariant Pay(lines, parts[i..]) == Pay(before, parts)
    {
      PayNext(lines, parts, i);
      lines := PayLine(lines, parts[i]);
      i := i + 1;
    }
  }

  /** The observation ids of a received movement all come to share its one balance. */
  method ShareBalance(receipts: map<string, Balance>, observers: set<string>, balance: Balance)
    returns (shared: map<string, Balance>)
    ensures shared == receipts + map o | o in observers :: balance
  {
    shared := receipts;
    var left := observers;
    while left != {}
      invariant left <= observers
      invariant shared == receipts + map o | o in observers - left :: balance
      decreases left
    {
      var o :| o in left;
      shared := shared[o := balance];
      left := left - {o};
    }
  }

  /** Allocates a reversal over what its receipt has left, and takes it from the shared balance. */
  method ReverseReceipt(clock: string -> real, invoice: Status, e: Status, before: seq<LedgerLine>, original: Balance)
    returns (parts: Result<seq<BillingAllocation>, BillingError>, lines: seq<LedgerLine>)
    modifies original
    ensures parts == AllocateBilling(clock, AllocationInput(invoice, e.eventId, clock(e.effectiveAt), e.amount.gross as real, None,
                                     e.explicit, e.separate, Reversal, Some(old(original.remaining))))
    ensures parts.Err? ==> lines == before && original.remaining == old(original.remaining)
    ensures parts.Ok? ==> lines == Pay(before, parts.value) && original.remaining == Map(old(original.remaining), Less(parts.value))
  {
    lines := before;
    parts := AllocateBilling(clock, AllocationInput(invoice, e.eventId, clock(e.effectiveAt), e.amount.gross as real, None,
                             e.explicit, e.separate, Reversal, Some(original.remaining)));
    if parts.Ok? {
      lines := PayLines(lines, parts.value);
      original.remaining := Map(original.remaining, Less(parts.value));
    }
  }

  /** Allocates a receipt over what is open, and opens the balance its observations share. */
  method TakeReceipt(clock: string -> real, invoice: Status, e: Status, before: seq<LedgerLine>, observers: set<string>, known: map<string, Balance>)
    returns (parts: Result<seq<BillingAllocation>, BillingError>, lines: seq<LedgerLine>, receipts: map<string, Balance>, balance: Balance?)
    requires invoice.composition.Some? && |invoice.composition.value.lines| == |before|
    ensures parts == AllocateBilling(clock, AllocationInput(invoice, e.eventId, clock(e.effectiveAt), e.amount.gross as real,
                                     Some(Open(invoice.composition.value.lines, before)), e.explicit, e.separate, Receipt, None))
    ensures parts.Ok? ==>
              && lines == Pay(before, parts.value)
              && balance != null && fresh(balance) && balance.movement == e.eventId && balance.remaining == parts.value
              && receipts == known + map o | o in observers :: balance
  {
    lines, receipts, balance := before, known, null;
    parts := AllocateBilling(clock, AllocationInput(invoice, e.eventId, clock(e.effectiveAt), e.amount.gross as real,
                             Some(Open(invoice.composition.value.lines, before)), e.explicit, e.separate, Receipt, None));
    if parts.Ok? {
      lines := PayLines(lines, parts.value);
      var account := new Balance(e.eventId, parts.value);
      receipts := ShareBalance(receipts, observers, account);
      balance := account;
    }
  }

  // ----- one step of the specification, case by case -----

  predicate Consistent(invoice: Status, e: Status) {
    e.composition.Some? ==> e.composition == invoice.composition
  }

  lemma {:induction false} StepDetail(clock: string -> real, invoice: Status, observers: map<string, set<string>>, b: Books, e: Status)
    requires Sized(invoice, b) && Consistent(invoice, e) && (e.factType == Credited || e.factType == Rejected)
    ensures var lines := ApplyDetails(clock, invoice.composition.value.lines, e, b.lines, e.adjustments);
            Step(clock, invoice, observers, b, e) ==
            if e.original != Some(invoice.eventId) || e.adjustments == [] then Ok(b.(held := b.held + [Hold(e.eventId, LineDetailRequired)]))
            else if lines.None? then Err(InvalidInput) else Ok(b.(lines := lines.value))
  {
  }

  lemma StepUnknownReversal(clock: string -> real, invoice: Status, observers: map<string, set<string>>, b: Books, e: Status)
    requires Sized(invoice, b) && Consistent(invoice, e) && e.factType == PaymentReversed
    requires e.original.None? || e.original.value !in b.owner
    ensures Step(clock, invoice, observers, b, e) == Ok(b.(held := b.held + [Hold(e.eventId, OriginalMovementRequired)]))
  {
  }

  lemma StepReversal(clock: string -> real, invoice: Status, observers: map<string, set<string>>, b: Books, e: Status, k: nat)
    requires Sized(invoice, b) && Consistent(invoice, e) && e.factType == PaymentReversed
    requires e.original.Some? && e.original.value in b.owner && k == b.owner[e.original.value]
    ensures var parts := AllocateBilling(clock, InputOf(clock, invoice, b, e, Some(k)));
            Step(clock, invoice, observers, b, e) ==
            if parts.Err? then Err(parts.error) else Ok(PostReversal(b, e, k, parts.value))
  {
  }

  lemma StepReceipt(clock: string -> real, invoice: Status, observers: map<string, set<string>>, b: Books, e: Status)
    requires Sized(invoice, b) && Consistent(invoice, e) && e.factType == Paid
    ensures var parts := AllocateBilling(clock, InputOf(clock, invoice, b, e, None));
            Step(clock, invoice, observers, b, e) ==
            if parts.Err? then Err(parts.error) else Ok(PostReceipt(b, e, ObserversOf(observers, e), parts.value))
  {
  }

  // ----- the loop over the ordered facts -----

  /** What the loop over the ordered facts leaves behind. */
  datatype Outcome = Outcome(lines: seq<LedgerLine>, postings: seq<Posting>, held: seq<Hold>, receipts: map<string, Balance>)

  /** The loop's variables are the specification's books. */
  ghost predicate Keeps(state: Outcome, balances: seq<Balance>, b: Books)
    reads balances
  {
    && b.lines == state.lines && b.postings == state.postings && b.held == state.held
    && b.accounts == AccountsOf(balances) && Shares(state.receipts, balances, b.owner)
  }

  method ReplayDetail(clock: string -> real, invoice: Status, e: Status, state: Outcome)
    returns (error: Option<BillingError>, next: Outcome)
    requires invoice.composition.Some?
    ensures var lines := ApplyDetails(clock, invoice.composition.value.lines, e, state.lines, e.adjustments);
            if e.original != Some(invoice.eventId) || e.adjustments == []
            then error == None && next == state.(held := state.held + [Hold(e.eventId, LineDetailRequired)])
            else if lines.None? then error == Some(InvalidInput)
            else error == None && next == state.(lines := lines.value)
  {
    next, error := state, None;
    if e.original != Some(invoice.eventId) || e.adjustments == [] {
      next := state.(held := state.held + [Hold(e.eventId, LineDetailRequired)]);
    } else {
      var credited := CreditLines(clock, invoice.composition.value.lines, e, state.lines);
      if credited.None? {
        error := Some(InvalidInput);
      } else {
        next := state.(lines := credited.value);
      }
    }
  }

  method ReplayReversal(clock: string -> real, invoice: Status, e: Status, state: Outcome, original: Balance,
                        ghost balances: seq<Balance>, ghost b: Books, ghost k: nat)
    returns (error: Option<BillingError>, next: Outcome)
    requires Sized(invoice, b) && Keeps(state, balances, b)
    requires k < |balances| && balances[k] == original
    modifies original
    ensures var parts := AllocateBilling(clock, InputOf(clock, invoice, b, e, Some(k)));
            if parts.Err? then error == Some(parts.error)
            else error == None && Keeps(next, balances, PostReversal(b, e, k, parts.value))
  {
    next, error := state, None;
    var parts, lines := ReverseReceipt(clock, invoice, e, state.lines, original);
    if parts.Err? {
      error := Some(parts.error);
    } else {
      next := state.(lines := lines, postings := state.postings + [Posting(e.eventId, Some(original.movement), parts.value)]);
      assert AccountsOf(balances) == b.accounts[k := Account(original.movement, original.remaining)];
    }
  }

  method ReplayReceipt(clock: string -> real, invoice: Status, mine: set<string>, e: Status, state: Outcome,
                       ghost balances: seq<Balance>, ghost b: Books)
    returns (error: Option<BillingError>, next: Outcome, ghost balances': seq<Balance>)
    requires Sized(invoice, b) && Keeps(state, balances, b)
    ensures |balances'| >= |balances| && balances'[..|balances|] == balances && fresh(balances'[|balances|..])
    ensures var parts := AllocateBilling(clock, InputOf(clock, invoice, b, e, None));
            if parts.Err? then error == Some(parts.error)
            else error == None && Keeps(next, balances', PostReceipt(b, e, mine, parts.value))
  {
    next, balances', error := state, balances, None;
    var parts, lines, receipts, balance := TakeReceipt(clock, invoice, e, state.lines, mine, state.receipts);
    if parts.Err? {
      error := Some(parts.error);
    } else {
      next := Outcome(lines, state.postings + [Posting(e.eventId, None, parts.value)], state.held, receipts);
      balances' := balances + [balance];
      assert AccountsOf(balances') == b.accounts + [Account(e.eventId, parts.value)];
      assert Shares(receipts, balances', b.owner + map o | o in mine :: |balances|);
    }
  }

  method ReplayOne(clock: string -> real, invoice: Status, observers: map<string, set<string>>, e: Status, state: Outcome,
                   ghost balances: seq<Balance>, ghost b: Books)
    returns (error: Option<BillingError>, next: Outcome, ghost balances': seq<Balance>)
    requires Sized(invoice, b) && Keeps(state, balances, b)
    modifies balances
    ensures |balances'| >= |balances| && balances'[..|balances|] == balances && fresh(balances'[|balances|..])
    ensures var step := Step(clock, invoice, observers, b, e);
            && (error.Some? <==> step.Err?)
            && (error.Some? ==> error.value == step.error)
            && (error.None? ==> Keeps(next, balances', step.value))
  {
    next, balances', error := state, balances, None;
    if e.composition.Some? && e.composition != invoice.composition {
      error := Some(PolicyHeld);
    } else if e.factType == Credited || e.factType == Rejected {
      StepDetail(clock, invoice, observers, b, e);
      error, next := ReplayDetail(clock, invoice, e, state);
    } else if e.factType == Invoiced {
      error := Some(InvalidInput);
    } else if e.factType == PaymentReversed && (e.original.None? || e.original.value !in state.receipts) {
      StepUnknownReversal(clock, invoice, observers, b, e);
      next := state.(held := state.held + [Hold(e.eventId, OriginalMovementRequired)]);
    } else if e.factType == PaymentReversed {
      ghost var k := b.owner[e.original.value];
      StepReversal(clock, invoice, observers, b, e, k);
      error, next := ReplayReversal(clock, invoice, e, state, state.receipts[e.original.value], balances, b, k);
    } else {
      StepReceipt(clock, invoice, observers, b, e);
      error, next, balances' := ReplayReceipt(clock, invoice, ObserversOf(observers, e), e, state, balances, b);
    }
  }

  /**
   * Replays the ordered facts. The specification's numbered accounts are the balance objects, and
   * two observation ids share an object exactly when they share an account.
   */
  method Replay(clock: string -> real, invoice: Status, observers: map<string, set<string>>, ordered: seq<Status>, holds: seq<Hold>)
    returns (error: Option<BillingError>, outcome: Outcome, ghost balances: seq<Balance>)
    requires invoice.composition.Some?
    ensures var run := Run(clock, invoice, observers, OpeningBooks(invoice.composition.value.lines, holds), ordered);
            && (error.Some? <==> run.Err?)
            && (error.Some? ==> error.value == run.error)
            && (error.None? ==> Keeps(outcome, balances, run.value))
  {
    ghost var books := OpeningBooks(invoice.composition.value.lines, holds);
    ghost var start := books;
    outcome, balances, error := Outcome(Map(invoice.composition.value.lines, OpeningLine()), [], holds, map[]), [], None;
    var i := 0;
    assert ordered[0..] == ordered;
    while i < |ordered|
      invariant 0 <= i <= |ordered| && error == None
      invariant Sized(invoice, books) && Keeps(outcome, balances, books) && fresh(balances)
      invariant Run(clock, invoice, observers, books, ordered[i..]) == Run(clock, invoice, observers, start, ordered)
    {
      assert ordered[i..][0] == ordered[i] && ordered[i..][1..] == ordered[i + 1..];
      ghost var step := Step(clock, invoice, observers, books, ordered[i]);
      ghost var grown;
      error, outcome, grown := ReplayOne(clock, invoice, observers, ordered[i], outcome, balances, books);
      assert grown == grown[..|balances|] + grown[|balances|..];
      balances := grown;
      if error.Some? {
        return;
      }
      books := step.value;
      i := i + 1;
    }
    assert ordered[i..] == [];
  }

  /** The whole derivation. */
  method DeriveUnambiguousBilling(normal: Status -> Option<Status>, digest: Status -> string, clock: string -> real, raws: seq<Status>)
    returns (result: Result<Ledger, BillingError>)
    ensures result == Derive(normal, digest, clock, raws)
  {
    if |raws| > MAX_LINES {
      return Err(InvalidInput);
    }
    var deduped := DedupeFacts(raws, normal, digest);
    if deduped.Err? {
      return Err(deduped.error);
    }
    var events := deduped.value;
    if !OneContext(events) {
      return Err(InvalidInput);
    }
    var invoices := Filter(events, IsInvoice());
    if |invoices| > 1 {
      return Err(PolicyHeld);
    }
    if invoices == [] {
      return Ok(EmptyLedger(events, InvoiceRequired));
    }
    if invoices[0].composition.None? {
      return Ok(EmptyLedger(events, CompositionRequired));
    }
    result := SettleInvoice(clock, invoices[0], Filter(events, IsPending()));
  }

  /** Refuses a fact not after the invoice, or at the same instant as the fact before it. */
  method CheckOrder(clock: string -> real, invoice: Status, ordered: seq<Status>) returns (ok: bool)
    ensures ok == Unambiguous(clock, invoice, ordered)
  {
    for i := 0 to |ordered|
      invariant Unambiguous(clock, invoice, ordered[..i])
    {
      if clock(ordered[i].effectiveAt) <= clock(invoice.effectiveAt)
        || (i > 0 && clock(ordered[i - 1].effectiveAt) == clock(ordered[i].effectiveAt)) {
        return false;
      }
    }
    assert ordered[..|ordered|] == ordered;
    return true;
  }

  method SettleInvoice(clock: string -> real, invoice: Status, pending: seq<Status>) returns (result: Result<Ledger, BillingError>)
    requires invoice.composition.Some?
    ensures result == Settle(clock, invoice, pending)
  {
    var others, movements, held := GroupMovements(pending);
    if movements.None? {
      return Err(Conflict);
    }
    var ordered := Ordered(clock, others, movements.value);
    var unambiguous := CheckOrder(clock, invoice, ordered);
    if !unambiguous {
      return Err(PolicyHeld);
    }
    var error, outcome, balances := Replay(clock, invoice, Observers(movements.value), ordered, held);
    if error.Some? {
      return Err(error.value);
    }
    return Ok(Ledger(outcome.lines, outcome.postings, TotalsOf(outcome.lines), Sort(outcome.held, ByText(HoldId()))));
  }
}
