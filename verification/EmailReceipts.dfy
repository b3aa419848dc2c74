/**
 * What the e-mail store's receipts say: which reasons hold a delivery back, where every stored receipt
 * comes from, and whose text may be released.
 */
module EmailReceipts {
  import opened Prelude
  import opened EmailStore

  // ----- quarantine -----

  /** The attachments are looked at: the alias is bound, the original is not oversized and could be parsed. */
  predicate Parsed(input: Intake) {
    input.binding.Some? && |input.bytes| <= 1_000_000 && input.parts.Some?
  }

  predicate StartsMz(bytes: Bytes) {
    |bytes| >= 2 && bytes[0] == 77 && bytes[1] == 90
  }

  /** When a delivery is held for a reason. */
  ghost predicate HeldFor(w: World, input: Intake, reason: Reason) {
    match reason
    case UnknownAlias => input.binding.None?
    case Oversized => |input.bytes| > 1_000_000 || (Parsed(input) && exists p :: p in input.parts.value && |p.bytes| > 100_000)
    case Encrypted => Parsed(input) && exists p :: p in input.parts.value && (p.encrypted || w.encryptedType(p.contentType))
    case Executable =>
      Parsed(input) && exists p :: p in input.parts.value && (w.executableName(p.filename) || w.executableType(p.contentType) || StartsMz(p.bytes))
    case Unreadable => input.binding.Some? && |input.bytes| <= 1_000_000 && (input.parts.None? || input.parts.value != [])
  }

  ghost predicate PartHeld(w: World, p: Part, reason: Reason) {
    match reason
    case UnknownAlias => false
    case Oversized => |p.bytes| > 100_000
    case Encrypted => p.encrypted || w.encryptedType(p.contentType)
    case Executable => w.executableName(p.filename) || w.executableType(p.contentType) || StartsMz(p.bytes)
    case Unreadable => true
  }

  lemma PartExactly(w: World, p: Part, reason: Reason)
    ensures reason in Held(w, p) <==> PartHeld(w, p, reason)
  {
    assert MZ <= p.bytes <==> StartsMz(p.bytes);
  }

  lemma {:induction false} PartsExactly(w: World, parts: seq<Part>, reason: Reason)
    ensures reason in HeldAll(w, parts) <==> exists p :: p in parts && PartHeld(w, p, reason)
    decreases |parts|
  {
    if parts != [] {
      var n := |parts| - 1;
      PartsExactly(w, parts[..n], reason);
      PartExactly(w, parts[n], reason);
      assert forall p :: p in parts <==> p in parts[..n] || p == parts[n];
    }
  }

  lemma ReasonExactly(w: World, input: Intake, reason: Reason)
    ensures reason in Quarantine(w, input) <==> HeldFor(w, input, reason)
  {
    if Parsed(input) {
      var parts := input.parts.value;
      PartsExactly(w, parts, reason);
      match reason
      case UnknownAlias =>
      case Oversized =>
      case Encrypted =>
      case Executable =>
      case Unreadable =>
        if parts != [] {
          assert parts[0] in parts && PartHeld(w, parts[0], Unreadable);
        }
    }
  }

  /** A receipt lists exactly the reasons there are, each once, and holds the text exactly when there is none. */
  lemma QuarantineExactly(w: World, input: Intake)
    ensures forall reason :: reason in Compose(w, input).quarantine <==> HeldFor(w, input, reason)
    ensures Distinct(Compose(w, input).quarantine)
    ensures Compose(w, input).text == if exists reason :: HeldFor(w, input, reason) then None else Some("Please fit an outside tap.")
  {
    UniqueSame(Quarantine(w, input));
    forall reason { ReasonExactly(w, input, reason); }
    TextExactly(Quarantine(w, input));
  }

  lemma TextExactly(q: seq<Reason>)
    ensures q == [] <==> forall reason :: reason !in q
  {
    if q != [] {
      assert q[0] in q;
    }
  }

  /** A receipt records its delivery: the message, the alias by its hash, the binding, the original by its hash and bytes, and the time. */
  lemma ReceiptExactly(w: World, input: Intake)
    requires Decodes(w)
    ensures var r := Compose(w, input);
            && r.deliveryId == input.messageId && r.aliasHash == w.hashText(input.alias) && r.binding == input.binding
            && r.rawSha256 == w.hash(input.bytes) && r.byteLength == |input.bytes| && r.receivedAt == input.receivedAt
            && r.objectVersionId == "sha256:" + w.hash(input.bytes)
            && (|input.bytes| <= 1_000_000 ==> w.decode(r.rawBase64) == input.bytes)
            && (|input.bytes| > 1_000_000 ==> r.rawBase64 == "")
  {
    assert w.decode(w.encode(input.bytes)) == input.bytes;
  }

  // ----- where receipts come from -----

  /** Some delivery handed this receipt in under its message. */
  ghost predicate HandedIn(w: World, sys: System, id: string, r: Receipt) {
    exists k :: 0 <= k < |sys.deliveries| && HandsIn(w, sys.deliveries[k].input, id, r)
  }

  ghost predicate HandsIn(w: World, input: Intake, id: string, r: Receipt) {
    input.messageId == id && |input.bytes| <= 2_000_000 && r == Compose(w, input)
  }

  /** Every receipt is one of those at the start or was handed in, and what is being linked was handed in by its own delivery. */
  ghost predicate Sourced(w: World, start: Directory, sys: System) {
    && (forall id, r :: Stored(sys.dir, id, r) ==> Stored(start, id, r) || HandedIn(w, sys, id, r))
    && forall k :: 0 <= k < |sys.deliveries| ==> LinksOwn(w, sys.deliveries[k])
  }

  predicate LinksOwn(w: World, d: Delivery) {
    d.stage.Linking? ==> d.stage.receipt == Compose(w, d.input) && |d.input.bytes| <= 2_000_000
  }

  /** Only an operation that links adds a receipt, and it adds the one its delivery composed. */
  lemma AdvanceAdds(w: World, dir: Directory, d: Delivery, fault: Fault, id: string, r: Receipt)
    requires LinksOwn(w, d)
    ensures LinksOwn(w, Advance(w, dir, d, fault).1) && Advance(w, dir, d, fault).1.input == d.input
    ensures Stored(Advance(w, dir, d, fault).0, id, r) ==> Stored(dir, id, r) || HandsIn(w, d.input, id, r)
  {
    match d.stage
    case Looking => LookingLinks(w, dir, d, fault);
    case Linking(receipt) => LinkingAdds(w, dir, d, fault, id, r);
    case LookingAgain =>
    case Flagging =>
    case Done(_) =>
  }

  lemma LookingLinks(w: World, dir: Directory, d: Delivery, fault: Fault)
    requires d.stage == Looking
    ensures LinksOwn(w, Advance(w, dir, d, fault).1) && Advance(w, dir, d, fault) == (dir, Delivery(d.input, Advance(w, dir, d, fault).1.stage))
  {
  }

  lemma LinkingAdds(w: World, dir: Directory, d: Delivery, fault: Fault, id: string, r: Receipt)
    requires d.stage.Linking? && d.stage.receipt == Compose(w, d.input) && |d.input.bytes| <= 2_000_000
    ensures !Advance(w, dir, d, fault).1.stage.Linking? && Advance(w, dir, d, fault).1.input == d.input
    ensures Stored(Advance(w, dir, d, fault).0, id, r) ==> Stored(dir, id, r) || (d.input.messageId == id && r == d.stage.receipt)
  {
  }

  lemma HandedInStill(w: World, sys: System, next: System, id: string, r: Receipt)
    requires HandedIn(w, sys, id, r) && |sys.deliveries| <= |next.deliveries|
    requires forall k :: 0 <= k < |sys.deliveries| ==> next.deliveries[k].input == sys.deliveries[k].input
    ensures HandedIn(w, next, id, r)
  {
    var k :| 0 <= k < |sys.deliveries| && HandsIn(w, sys.deliveries[k].input, id, r);
    assert next.deliveries[k].input == sys.deliveries[k].input;
  }

  lemma StepSourced(w: World, sys: System, who: nat, fault: Fault, id: string, r: Receipt)
    requires who < |sys.deliveries| && LinksOwn(w, sys.deliveries[who])
    ensures var next := Next(w, sys, Work(who, fault));
            && |next.deliveries| == |sys.deliveries| && LinksOwn(w, next.deliveries[who])
            && (forall k :: 0 <= k < |sys.deliveries| ==> next.deliveries[k].input == sys.deliveries[k].input)
            && (Stored(next.dir, id, r) ==> Stored(sys.dir, id, r) || HandedIn(w, next, id, r))
  {
    AdvanceAdds(w, sys.dir, sys.deliveries[who], fault, id, r);
    var next := Next(w, sys, Work(who, fault));
    if HandsIn(w, sys.deliveries[who].input, id, r) {
      assert HandsIn(w, next.deliveries[who].input, id, r);
    }
  }

  lemma NextReceipt(w: World, start: Directory, sys: System, move: Move, id: string, r: Receipt)
    requires Sourced(w, start, sys) && Stored(Next(w, sys, move).dir, id, r)
    ensures Stored(start, id, r) || HandedIn(w, Next(w, sys, move), id, r)
  {
    var next := Next(w, sys, move);
    if move.Work? && move.who < |sys.deliveries| {
      StepSourced(w, sys, move.who, move.fault, id, r);
    }
    if HandedIn(w, sys, id, r) {
      HandedInStill(w, sys, next, id, r);
    }
  }

  lemma NextLinks(w: World, sys: System, move: Move, k: nat)
    requires k < |Next(w, sys, move).deliveries| && forall j :: 0 <= j < |sys.deliveries| ==> LinksOwn(w, sys.deliveries[j])
    ensures LinksOwn(w, Next(w, sys, move).deliveries[k])
  {
    if move.Work? && move.who < |sys.deliveries| {
      AdvanceAdds(w, sys.dir, sys.deliveries[move.who], move.fault, "", Compose(w, sys.deliveries[move.who].input));
    }
  }

  lemma NextSourced(w: World, start: Directory, sys: System, move: Move)
    requires Sourced(w, start, sys)
    ensures Sourced(w, start, Next(w, sys, move))
  {
    var next := Next(w, sys, move);
    forall id, r | Stored(next.dir, id, r)
      ensures Stored(start, id, r) || HandedIn(w, next, id, r)
    {
      NextReceipt(w, start, sys, move, id, r);
    }
    forall k | 0 <= k < |next.deliveries|
      ensures LinksOwn(w, next.deliveries[k])
    {
      NextLinks(w, sys, move, k);
    }
  }

  lemma {:induction false} RunSourced(w: World, start: Directory, sys: System, moves: seq<Move>)
    requires Sourced(w, start, sys)
    ensures Sourced(w, start, Run(w, sys, moves))
    decreases |moves|
  {
    if moves != [] {
      NextSourced(w, start, sys, moves[0]);
      RunSourced(w, start, Next(w, sys, moves[0]), moves[1..]);
    }
  }

  /** A delivery over the intake limit is refused by its first operation, whatever fails. */
  lemma {:induction false} TooLargeRefused(w: World, sys: System, moves: seq<Move>, who: nat)
    requires who < |sys.deliveries| && |sys.deliveries[who].input.bytes| > 2_000_000
    requires sys.deliveries[who].stage == Looking || sys.deliveries[who].stage == Done(TooLarge)
    ensures var after := Run(w, sys, moves).deliveries;
            && who < |after| && after[who].input == sys.deliveries[who].input
            && after[who].stage == if Works(moves, who) > 0 then Done(TooLarge) else sys.deliveries[who].stage
    decreases |moves|
  {
    if moves != [] {
      TooLargeRefused(w, Next(w, sys, moves[0]), moves[1..], who);
    }
  }

  // ----- whose text is released -----

  /** The delivery's text may go to the job: its alias is bound to it, it is within the limit and has no attachments. */
  predicate Releasable(w: World, input: Intake, tenant: string, job: string) {
    input.binding == Some(Binding(tenant, job)) && |input.bytes| <= 1_000_000 && input.parts == Some([])
  }

  /**
   * Over any run from an empty directory, a text is released only for a request that is well formed and
   * authorized, and only of a delivery that was handed in for that tenant and job without anything held;
   * what is released names its original by its hash and carries the time it was received.
   */
  lemma {:induction false} ReleasedOnly(w: World, moves: seq<Move>, request: Request, original: Original)
    requires Decodes(w) && Release(w, Run(w, System(map[], []), moves).dir, request) == Ok(Some(original))
    ensures request.wellFormed && request.authorized
    ensures exists d ::
              && d in Run(w, System(map[], []), moves).deliveries && d.input.messageId == request.deliveryId
              && Releasable(w, d.input, request.tenant, request.job)
              && original == Original(request.tenant, request.job, request.deliveryId, "Please fit an outside tap.",
                                      "sha256:" + w.hash(d.input.bytes) + ":text", w.hashText("Please fit an outside tap."), d.input.receivedAt)
  {
    var after := Run(w, System(map[], []), moves);
    RunSourced(w, map[], System(map[], []), moves);
    var r := after.dir[ReceiptName(request.deliveryId)].receipt;
    assert Stored(after.dir, request.deliveryId, r) && HandedIn(w, after, request.deliveryId, r);
    var k :| 0 <= k < |after.deliveries| && HandsIn(w, after.deliveries[k].input, request.deliveryId, r);
    var d := after.deliveries[k];
    assert d in after.deliveries;
    ComposedReadable(w, d.input);
  }

  /** A receipt that is stored, not held and bound to the job is released to an authorized request. */
  lemma ReleasedWhen(w: World, sys: System, input: Intake, request: Request)
    requires Decodes(w) && Stored(sys.dir, input.messageId, Compose(w, input)) && Releasable(w, input, request.tenant, request.job)
    requires request.wellFormed && request.authorized && request.deliveryId == input.messageId
    ensures Release(w, sys.dir, request).Ok? && Release(w, sys.dir, request).value.Some?
  {
    ComposedReadable(w, input);
    assert HeldAll(w, []) == [] && Unique([]) == [];
  }
}
