/**
 * The e-mail receipt store (apps/api/src/email-delivery.store.ts): concurrent deliveries over one
 * directory whose only synchronisation is exclusive creation of a file. Each delivery is a process
 * that takes one directory operation at a time; deliveries interleave in any order and any operation
 * may fail. Hashing, base64, the ports and the name patterns are abstract functions.
 */
module EmailStore {
  import opened Prelude

  const MAX_ORIGINAL_BYTES := 1_000_000
  const MAX_INCOMING_BYTES := 2_000_000
  const MAX_PART_BYTES := 100_000
  const REQUEST_TEXT := "Please fit an outside tap."

  // ----- data -----

  type Bytes = seq<int>

  datatype Reason = UnknownAlias | Oversized | Encrypted | Executable | Unreadable
  datatype Binding = Binding(tenant: string, job: string)
  datatype Part = Part(bytes: Bytes, contentType: string, filename: string, encrypted: bool)

  datatype Receipt = Receipt(deliveryId: string, aliasHash: string, binding: Option<Binding>, rawBase64: string, rawSha256: string,
                             byteLength: nat, objectVersionId: string, receivedAt: string, quarantine: seq<Reason>, text: Option<string>)

  /** Names in the store's directory; a flag names a delivery and the bytes and alias that conflicted with it. */
  datatype Name = ReceiptName(id: string) | FlagName(id: string, rawSha256: string, aliasHash: string)
  datatype File = ReceiptFile(receipt: Receipt) | FlagFile(id: string, rawSha256: string, aliasHash: string)
  type Directory = map<Name, File>

  /** What a delivery hands in, with what its ports will answer and the time it will read. */
  datatype Intake = Intake(messageId: string, alias: string, bytes: Bytes,
                           binding: Option<Binding>, parts: Option<seq<Part>>, receivedAt: string)

  /** The functions of other modules. */
  datatype World = World(hash: Bytes -> string, hashText: string -> string, encode: Bytes -> string, decode: string -> Bytes,
                         encryptedType: string -> bool, executableType: string -> bool, executableName: string -> bool)

  const MZ: Bytes := [77, 90]

  ghost predicate Decodes(w: World) {
    forall b :: w.decode(w.encode(b)) == b
  }

  // ----- composing a receipt -----

  /** What one attachment adds to the quarantine. */
  function Held(w: World, p: Part): seq<Reason> {
    (if |p.bytes| > MAX_PART_BYTES then [Oversized] else [])
    + (if p.encrypted || w.encryptedType(p.contentType) then [Encrypted] else [])
    + (if w.executableName(p.filename) || w.executableType(p.contentType) || MZ <= p.bytes then [Executable] else [])
    + [Unreadable]
  }

  function HeldAll(w: World, parts: seq<Part>): seq<Reason> {
    if parts == [] then [] else HeldAll(w, parts[..|parts| - 1]) + Held(w, parts[|parts| - 1])
  }

  /** The reasons in order of first occurrence. */
  function Unique(reasons: seq<Reason>): seq<Reason> {
    if reasons == [] then []
    else
      var front := Unique(reasons[..|reasons| - 1]);
      if reasons[|reasons| - 1] in front then front else front + [reasons[|reasons| - 1]]
  }

  function Quarantine(w: World, input: Intake): seq<Reason> {
    var first := (if input.binding.None? then [UnknownAlias] else []) + (if |input.bytes| > MAX_ORIGINAL_BYTES then [Oversized] else []);
    if first != [] then first
    else if input.parts.None? then [Unreadable]
    else HeldAll(w, input.parts.value)
  }

  function Compose(w: World, input: Intake): Receipt {
    var sha := w.hash(input.bytes);
    var quarantine := Quarantine(w, input);
    Receipt(input.messageId, w.hashText(input.alias), input.binding,
            if |input.bytes| > MAX_ORIGINAL_BYTES then "" else w.encode(input.bytes), sha, |input.bytes|,
            "sha256:" + sha, input.receivedAt, Unique(quarantine), if quarantine == [] then Some(REQUEST_TEXT) else None)
  }

  /** Whether a stored receipt can be read back: it is for its name, and its original is complete or oversized and held. */
  predicate Readable(w: World, r: Receipt, id: string) {
    && r.deliveryId == id && r.objectVersionId == "sha256:" + r.rawSha256
    && if r.byteLength > MAX_ORIGINAL_BYTES then r.rawBase64 == "" && Oversized in r.quarantine && r.text.None?
       else |w.decode(r.rawBase64)| == r.byteLength && w.hash(w.decode(r.rawBase64)) == r.rawSha256
  }

  lemma {:induction false} UniqueSame(reasons: seq<Reason>)
    ensures forall x :: x in Unique(reasons) <==> x in reasons
    ensures Distinct(Unique(reasons))
  {
    if reasons != [] {
      var n := |reasons| - 1;
      UniqueSame(reasons[..n]);
      assert forall x :: x in reasons <==> x in reasons[..n] || x == reasons[n];
    }
  }

  /** Every receipt the store composes can be read back, and its text is released exactly when nothing is held. */
  lemma ComposedReadable(w: World, input: Intake)
    requires Decodes(w)
    ensures Readable(w, Compose(w, input), input.messageId)
    ensures Compose(w, input).text.Some? <==> Compose(w, input).quarantine == []
    ensures Compose(w, input).text.Some? <==>
              input.binding.Some? && |input.bytes| <= MAX_ORIGINAL_BYTES && input.parts == Some([])
    ensures Distinct(Compose(w, input).quarantine)
  {
    UniqueSame(Quarantine(w, input));
    if input.parts.Some? && input.parts.value != [] {
      HeldNonempty(w, input.parts.value);
    }
    if Quarantine(w, input) != [] {
      assert Quarantine(w, input)[0] in Unique(Quarantine(w, input));
    }
  }

  lemma {:induction false} HeldNonempty(w: World, parts: seq<Part>)
    requires parts != []
    ensures HeldAll(w, parts) != []
  {
  }

  // ----- deliveries as processes -----

  datatype Outcome = Received(receipt: Receipt) | Conflict | TooLarge | Unavailable

  /** Where a delivery stands between two directory operations. */
  datatype Stage =
    | Looking
    | Linking(receipt: Receipt)
    | LookingAgain
    | Flagging
    | Done(outcome: Outcome)

  datatype Delivery = Delivery(input: Intake, stage: Stage)

  /** What the operation meets: nothing, a failure before it, or a failure after its effect. */
  datatype Fault = NoFault | Before | After

  /** What a delivery does once it knows a stored receipt: an identical one is its answer. */
  function Replay(w: World, input: Intake, existing: Receipt): Stage {
    if existing.rawSha256 == w.hash(input.bytes) && existing.aliasHash == w.hashText(input.alias) then Done(Received(existing)) else Flagging
  }

  /** Exclusive creation: a file that is already there stays. */
  function Created(dir: Directory, name: Name, file: File): Directory {
    if name in dir then dir else dir[name := file]
  }

  function Looked(w: World, dir: Directory, d: Delivery, absent: Stage): Stage {
    var name := ReceiptName(d.input.messageId);
    if name !in dir then absent
    else if !dir[name].ReceiptFile? || !Readable(w, dir[name].receipt, d.input.messageId) then Done(Unavailable)
    else Replay(w, d.input, dir[name].receipt)
  }

  function FlagNameOf(w: World, input: Intake): Name {
    FlagName(input.messageId, w.hash(input.bytes), w.hashText(input.alias))
  }

  /** One directory operation of a delivery, with the local work up to the next one. */
  function Advance(w: World, dir: Directory, d: Delivery, fault: Fault): (Directory, Delivery) {
    var unavailable := d.(stage := Done(Unavailable));
    match d.stage
    case Looking =>
      if |d.input.bytes| > MAX_INCOMING_BYTES then (dir, d.(stage := Done(TooLarge)))
      else if fault != NoFault then (dir, unavailable)
      else (dir, d.(stage := Looked(w, dir, d, Linking(Compose(w, d.input)))))
    case Linking(receipt) =>
      var name := ReceiptName(d.input.messageId);
      if fault == Before then (dir, unavailable)
      else if fault == After then (Created(dir, name, ReceiptFile(receipt)), unavailable)
      else (Created(dir, name, ReceiptFile(receipt)), d.(stage := if name in dir then LookingAgain else Done(Received(receipt))))
    case LookingAgain =>
      if fault != NoFault then (dir, unavailable) else (dir, d.(stage := Looked(w, dir, d, Done(Unavailable))))
    case Flagging =>
      var flag := FlagFile(d.input.messageId, w.hash(d.input.bytes), w.hashText(d.input.alias));
      if fault == Before then (dir, unavailable)
      else (Created(dir, FlagNameOf(w, d.input), flag), d.(stage := Done(if fault == After then Unavailable else Conflict)))
    case Done(_) => (dir, d)
  }

  datatype System = System(dir: Directory, deliveries: seq<Delivery>)

  datatype Move = Arrive(input: Intake) | Work(who: nat, fault: Fault)

  function Next(w: World, sys: System, move: Move): System {
    match move
    case Arrive(input) => sys.(deliveries := sys.deliveries + [Delivery(input, Looking)])
    case Work(who, fault) =>
      if who >= |sys.deliveries| then sys
      else
        var (dir, d) := Advance(w, sys.dir, sys.deliveries[who], fault);
        System(dir, sys.deliveries[who := d])
  }

  function Run(w: World, sys: System, moves: seq<Move>): System
    decreases |moves|
  {
    if moves == [] then sys else Run(w, Next(w, sys, moves[0]), moves[1..])
  }

  // ----- what holds throughout -----

  /** Whether a receipt records exactly these bytes under this alias. */
  predicate Records(w: World, input: Intake, r: Receipt) {
    r.rawSha256 == w.hash(input.bytes) && r.aliasHash == w.hashText(input.alias)
  }

  predicate Stored(dir: Directory, id: string, r: Receipt) {
    ReceiptName(id) in dir && dir[ReceiptName(id)] == ReceiptFile(r)
  }

  /** Another original, or the same one under another alias, holds the delivery's place. */
  predicate TakenByOther(w: World, dir: Directory, input: Intake) {
    && ReceiptName(input.messageId) in dir && dir[ReceiptName(input.messageId)].ReceiptFile?
    && !Records(w, input, dir[ReceiptName(input.messageId)].receipt)
  }

  /** What a delivery's stage says about the directory. */
  predicate StageSound(w: World, dir: Directory, d: Delivery) {
    match d.stage
    case Looking => true
    case Linking(receipt) => receipt == Compose(w, d.input)
    case LookingAgain => ReceiptName(d.input.messageId) in dir
    case Flagging => TakenByOther(w, dir, d.input)
    case Done(Received(receipt)) => Stored(dir, d.input.messageId, receipt) && Records(w, d.input, receipt)
    case Done(Conflict) => TakenByOther(w, dir, d.input) && FlagNameOf(w, d.input) in dir
    case Done(TooLarge) => |d.input.bytes| > MAX_INCOMING_BYTES
    case Done(Unavailable) => true
  }

  /** Every stored receipt can be read back, and every flag tells what its name tells. */
  ghost predicate DirectorySound(w: World, dir: Directory) {
    && (forall id :: ReceiptName(id) in dir ==> dir[ReceiptName(id)].ReceiptFile? && Readable(w, dir[ReceiptName(id)].receipt, id))
    && forall id, raw, alias :: FlagName(id, raw, alias) in dir ==> dir[FlagName(id, raw, alias)] == FlagFile(id, raw, alias)
  }

  ghost predicate Sound(w: World, sys: System) {
    DirectorySound(w, sys.dir) && forall d :: d in sys.deliveries ==> StageSound(w, sys.dir, d)
  }

  /** Files are only added. */
  ghost predicate Extends(dir: Directory, after: Directory) {
    forall n :: n in dir ==> n in after && after[n] == dir[n]
  }

  lemma AdvanceSound(w: World, dir: Directory, d: Delivery, fault: Fault)
    requires Decodes(w) && DirectorySound(w, dir) && StageSound(w, dir, d)
    ensures var (after, e) := Advance(w, dir, d, fault);
            DirectorySound(w, after) && Extends(dir, after) && StageSound(w, after, e) && e.input == d.input
  {
    ComposedReadable(w, d.input);
  }

  lemma StageKept(w: World, dir: Directory, after: Directory, d: Delivery)
    requires StageSound(w, dir, d) && Extends(dir, after)
    ensures StageSound(w, after, d)
  {
  }

  lemma NextSound(w: World, sys: System, move: Move)
    requires Decodes(w) && Sound(w, sys)
    ensures Sound(w, Next(w, sys, move)) && Extends(sys.dir, Next(w, sys, move).dir)
  {
    if move.Work? && move.who < |sys.deliveries| {
      AdvanceSound(w, sys.dir, sys.deliveries[move.who], move.fault);
      forall d | d in sys.deliveries
        ensures StageSound(w, Next(w, sys, move).dir, d)
      {
        StageKept(w, sys.dir, Next(w, sys, move).dir, d);
      }
    }
  }

  /** Under any interleaving and any faults, stored files never change and every stage stays true to the directory. */
  lemma {:induction false} RunSound(w: World, sys: System, moves: seq<Move>)
    requires Decodes(w) && Sound(w, sys)
    ensures Sound(w, Run(w, sys, moves)) && Extends(sys.dir, Run(w, sys, moves).dir)
    decreases |moves|
  {
    if moves != [] {
      NextSound(w, sys, moves[0]);
      RunSound(w, Next(w, sys, moves[0]), moves[1..]);
    }
  }

  // ----- without faults everyone is answered -----

  predicate Answered(d: Delivery) {
    d.stage != Done(Unavailable)
  }

  ghost predicate NoneUnavailable(sys: System) {
    forall d :: d in sys.deliveries ==> Answered(d)
  }

  predicate Healthy(move: Move) {
    move.Work? ==> move.fault == NoFault
  }

  lemma AdvanceAnswered(w: World, dir: Directory, d: Delivery)
    requires DirectorySound(w, dir) && StageSound(w, dir, d) && Answered(d)
    ensures Answered(Advance(w, dir, d, NoFault).1)
  {
  }

  /** A run without faults leaves nobody unanswered. */
  lemma {:induction false} RunAnswered(w: World, sys: System, moves: seq<Move>)
    requires Decodes(w) && Sound(w, sys) && NoneUnavailable(sys) && forall m :: m in moves ==> Healthy(m)
    ensures NoneUnavailable(Run(w, sys, moves))
    decreases |moves|
  {
    if moves != [] {
      var move := moves[0];
      assert move in moves && forall m :: m in moves[1..] ==> m in moves;
      NextSound(w, sys, move);
      if move.Work? && move.who < |sys.deliveries| {
        AdvanceAnswered(w, sys.dir, sys.deliveries[move.who]);
      }
      RunAnswered(w, Next(w, sys, move), moves[1..]);
    }
  }

  /**
   * First writer wins: whoever is answered for a message is answered with the one stored receipt, and it
   * records their own bytes and alias; only a fault leaves anyone without an answer.
   */
  lemma {:induction false} FirstWriterWins(w: World, sys: System, moves: seq<Move>, a: Delivery, b: Delivery)
    requires Decodes(w) && Sound(w, sys)
    requires a in Run(w, sys, moves).deliveries && b in Run(w, sys, moves).deliveries && a.input.messageId == b.input.messageId
    requires a.stage.Done? && a.stage.outcome.Received?
    ensures Stored(Run(w, sys, moves).dir, a.input.messageId, a.stage.outcome.receipt) && Records(w, a.input, a.stage.outcome.receipt)
    ensures Readable(w, a.stage.outcome.receipt, a.input.messageId)
    ensures b.stage.Done? ==>
              match b.stage.outcome
              case Received(receipt) => receipt == a.stage.outcome.receipt
              case Conflict => !Records(w, b.input, a.stage.outcome.receipt) && FlagNameOf(w, b.input) in Run(w, sys, moves).dir
              case TooLarge => |b.input.bytes| > MAX_INCOMING_BYTES
              case Unavailable => NoneUnavailable(sys) ==> exists m :: m in moves && !Healthy(m)
    ensures !Records(w, b.input, a.stage.outcome.receipt) ==> !(b.stage.Done? && b.stage.outcome.Received?)
  {
    RunSound(w, sys, moves);
    if NoneUnavailable(sys) && forall m :: m in moves ==> Healthy(m) {
      RunAnswered(w, sys, moves);
      assert Answered(b);
    }
    assert StageSound(w, Run(w, sys, moves).dir, a) && StageSound(w, Run(w, sys, moves).dir, b);
  }

  /** How many directory operations a delivery still has before it at most. */
  function Ahead(stage: Stage): nat {
    match stage
    case Looking => 4
    case Linking(_) => 3
    case LookingAgain => 2
    case Flagging => 1
    case Done(_) => 0
  }

  function Works(moves: seq<Move>, who: nat): nat {
    if moves == [] then 0 else (if moves[0].Work? && moves[0].who == who then 1 else 0) + Works(moves[1..], who)
  }

  /** Every operation of a delivery brings it closer to its end, whatever the others do and whatever fails. */
  lemma {:induction false} RunProgresses(w: World, sys: System, moves: seq<Move>, who: nat)
    requires who < |sys.deliveries|
    ensures var after := Run(w, sys, moves).deliveries;
            && who < |after| && after[who].input == sys.deliveries[who].input
            && (after[who].stage.Done? || Ahead(after[who].stage) + Works(moves, who) <= Ahead(sys.deliveries[who].stage))
    decreases |moves|
  {
    if moves != [] {
      var next := Next(w, sys, moves[0]);
      assert next.deliveries[who].input == sys.deliveries[who].input;
      RunProgresses(w, next, moves[1..], who);
    }
  }

  /**
   * Without faults, a delivery that has had four operations, interleaved in any way with those of
   * others, is answered: with the one stored receipt exactly if that records its own bytes and alias,
   * and with a conflict otherwise.
   */
  lemma {:induction false} RivalsConflict(w: World, sys: System, moves: seq<Move>, who: nat)
    requires Decodes(w) && Sound(w, sys) && NoneUnavailable(sys) && forall m :: m in moves ==> Healthy(m)
    requires who < |sys.deliveries| && Works(moves, who) >= 4 && |sys.deliveries[who].input.bytes| <= MAX_INCOMING_BYTES
    ensures var after, input := Run(w, sys, moves), sys.deliveries[who].input;
            && ReceiptName(input.messageId) in after.dir && after.dir[ReceiptName(input.messageId)].ReceiptFile?
            && var stored := after.dir[ReceiptName(input.messageId)].receipt;
               && Readable(w, stored, input.messageId) && who < |after.deliveries|
               && after.deliveries[who] == Delivery(input, Done(if Records(w, input, stored) then Received(stored) else Conflict))
  {
    RunSound(w, sys, moves);
    RunAnswered(w, sys, moves);
    RunProgresses(w, sys, moves, who);
    var d := Run(w, sys, moves).deliveries[who];
    assert d in Run(w, sys, moves).deliveries;
    assert StageSound(w, Run(w, sys, moves).dir, d) && Answered(d);
  }

  /** An empty directory with no deliveries is a sound start. */
  lemma StartSound(w: World)
    ensures Sound(w, System(map[], []))
  {
  }

  // ----- a delivery alone finishes with an answer -----

  /** Runs one delivery to its end without faults; four operations are enough. */
  function Finish(w: World, dir: Directory, d: Delivery, fuel: nat): (Directory, Delivery)
    decreases fuel
  {
    if fuel == 0 || d.stage.Done? then (dir, d)
    else
      var (after, e) := Advance(w, dir, d, NoFault);
      Finish(w, after, e, fuel - 1)
  }

  /** A stored file is a receipt for its name, of its own version, with its original complete or oversized and held. */
  predicate Valid(w: World, file: File, id: string) {
    && file.ReceiptFile? && file.receipt.deliveryId == id && file.receipt.objectVersionId == "sha256:" + file.receipt.rawSha256
    && (file.receipt.byteLength > 1_000_000 ==>
          file.receipt.rawBase64 == "" && Oversized in file.receipt.quarantine && file.receipt.text == None)
    && (file.receipt.byteLength <= 1_000_000 ==>
          |w.decode(file.receipt.rawBase64)| == file.receipt.byteLength && w.hash(w.decode(file.receipt.rawBase64)) == file.receipt.rawSha256)
  }

  /** What a delivery that meets nobody is answered, and what it leaves in the directory. */
  ghost predicate AnsweredAlone(w: World, dir: Directory, input: Intake, after: Directory, outcome: Outcome) {
    var name, raw, alias := ReceiptName(input.messageId), w.hash(input.bytes), w.hashText(input.alias);
    if |input.bytes| > 2_000_000 then outcome == TooLarge && after == dir
    else if name !in dir then outcome == Received(Compose(w, input)) && after == dir[name := ReceiptFile(Compose(w, input))]
    else if !Valid(w, dir[name], input.messageId) then outcome == Unavailable && after == dir
    else if dir[name].receipt.rawSha256 == raw && dir[name].receipt.aliasHash == alias then outcome == Received(dir[name].receipt) && after == dir
    else
      && outcome == Conflict
      && after == if FlagName(input.messageId, raw, alias) in dir then dir
                  else dir[FlagName(input.messageId, raw, alias) := FlagFile(input.messageId, raw, alias)]
  }

  lemma FinishStep(w: World, dir: Directory, d: Delivery, fuel: nat)
    requires !d.stage.Done? && fuel > 0
    ensures Finish(w, dir, d, fuel) == Finish(w, Advance(w, dir, d, NoFault).0, Advance(w, dir, d, NoFault).1, fuel - 1)
  {
  }

  lemma FinishDone(w: World, dir: Directory, d: Delivery, fuel: nat)
    requires d.stage.Done?
    ensures Finish(w, dir, d, fuel) == (dir, d)
  {
  }

  lemma FinishFlagged(w: World, dir: Directory, input: Intake, fuel: nat)
    requires fuel > 0
    ensures Finish(w, dir, Delivery(input, Flagging), fuel)
         == (Created(dir, FlagNameOf(w, input), FlagFile(input.messageId, w.hash(input.bytes), w.hashText(input.alias))),
             Delivery(input, Done(Conflict)))
  {
    var d := Delivery(input, Flagging);
    FinishStep(w, dir, d, fuel);
    FinishDone(w, Advance(w, dir, d, NoFault).0, Advance(w, dir, d, NoFault).1, fuel - 1);
  }

  lemma FinishLinked(w: World, dir: Directory, input: Intake, r: Receipt, fuel: nat)
    requires fuel > 0 && ReceiptName(input.messageId) !in dir
    ensures Finish(w, dir, Delivery(input, Linking(r)), fuel)
         == (dir[ReceiptName(input.messageId) := ReceiptFile(r)], Delivery(input, Done(Received(r))))
  {
    var d := Delivery(input, Linking(r));
    FinishStep(w, dir, d, fuel);
    FinishDone(w, Advance(w, dir, d, NoFault).0, Advance(w, dir, d, NoFault).1, fuel - 1);
  }

  lemma ValidExactly(w: World, file: File, id: string)
    ensures Valid(w, file, id) <==> file.ReceiptFile? && Readable(w, file.receipt, id)
  {
  }

  /** The first operation finds nothing, something that cannot be read, or a receipt to answer from. */
  lemma FirstLooks(w: World, dir: Directory, input: Intake)
    requires |input.bytes| <= MAX_INCOMING_BYTES
    ensures Finish(w, dir, Delivery(input, Looking), 4)
         == Finish(w, dir, Delivery(input, Looked(w, dir, Delivery(input, Looking), Linking(Compose(w, input)))), 3)
  {
    FinishStep(w, dir, Delivery(input, Looking), 4);
  }

  /** A delivery that meets no fault and no other delivery is answered, whatever the directory holds. */
  lemma AloneAnswers(w: World, dir: Directory, input: Intake)
    ensures Finish(w, dir, Delivery(input, Looking), 4).1.input == input && Finish(w, dir, Delivery(input, Looking), 4).1.stage.Done?
    ensures AnsweredAlone(w, dir, input, Finish(w, dir, Delivery(input, Looking), 4).0, Finish(w, dir, Delivery(input, Looking), 4).1.stage.outcome)
  {
    var name := ReceiptName(input.messageId);
    if |input.bytes| > MAX_INCOMING_BYTES {
      FinishStep(w, dir, Delivery(input, Looking), 4);
      FinishDone(w, dir, Delivery(input, Done(TooLarge)), 3);
    } else {
      FirstLooks(w, dir, input);
      if name !in dir {
        FinishLinked(w, dir, input, Compose(w, input), 3);
      } else {
        ValidExactly(w, dir[name], input.messageId);
        if !Valid(w, dir[name], input.messageId) {
          FinishDone(w, dir, Delivery(input, Done(Unavailable)), 3);
        } else if Replay(w, input, dir[name].receipt) == Flagging {
          FinishFlagged(w, dir, input, 3);
        } else {
          FinishDone(w, dir, Delivery(input, Done(Received(dir[name].receipt))), 3);
        }
      }
    }
  }

  // ----- releasing an original -----

  /** Who asks for which e-mail of which job, whether the identifiers are well formed, and what the port says of the job. */
  datatype Request = Request(tenant: string, job: string, deliveryId: string, wellFormed: bool, authorized: bool)
  datatype Original = Original(tenant: string, job: string, deliveryId: string, text: string, objectVersionId: string, sha256: string, receivedAt: string)

  function Release(w: World, dir: Directory, request: Request): Result<Option<Original>, Outcome> {
    var name := ReceiptName(request.deliveryId);
    if !request.wellFormed || !request.authorized || name !in dir then Ok(None)
    else if !dir[name].ReceiptFile? || !Readable(w, dir[name].receipt, request.deliveryId) then Err(Unavailable)
    else
      var found := dir[name].receipt;
      if found.quarantine != [] || found.text.None? || found.binding != Some(Binding(request.tenant, request.job)) then Ok(None)
      else Ok(Some(Original(request.tenant, request.job, request.deliveryId, found.text.value, found.objectVersionId + ":text",
                            w.hashText(found.text.value), found.receivedAt)))
  }

  // ----- the store as an object -----

  class EmailDeliveryStore {
    const w: World
    var directory: Directory

    constructor (w: World)
      ensures this.w == w && directory == map[]
    {
      this.w, directory := w, map[];
    }

    /** Exclusive creation under a name; false when the name is taken. */
    method Publish(name: Name, file: File) returns (created: bool)
      modifies this
      ensures directory == Created(old(directory), name, file) && created == (name !in old(directory))
    {
      if name in directory { return false; }
      directory := directory[name := file];
      return true;
    }

    method QuarantineFor(input: Intake) returns (quarantine: seq<Reason>)
      ensures quarantine == Quarantine(w, input)
    {
      quarantine := [];
      if input.binding.None? { quarantine := quarantine + [UnknownAlias]; }
      if |input.bytes| > MAX_ORIGINAL_BYTES { quarantine := quarantine + [Oversized]; }
      if quarantine != [] { return; }
      if input.parts.None? { return [Unreadable]; }
      var parts := input.parts.value;
      for i := 0 to |parts|
        invariant quarantine == HeldAll(w, parts[..i])
      {
        assert parts[..i + 1][..i] == parts[..i];
        var part := parts[i];
        ghost var before := quarantine;
        if |part.bytes| > MAX_PART_BYTES { quarantine := quarantine + [Oversized]; }
        if part.encrypted || w.encryptedType(part.contentType) { quarantine := quarantine + [Encrypted]; }
        if w.executableName(part.filename) || w.executableType(part.contentType) || MZ <= part.bytes {
          quarantine := quarantine + [Executable];
        }
        quarantine := quarantine + [Unreadable];
        assert quarantine == before + Held(w, part);
      }
      assert parts[..|parts|] == parts;
    }

    method Distinguish(reasons: seq<Reason>) returns (unique: seq<Reason>)
      ensures unique == Unique(reasons)
    {
      unique := [];
      for i := 0 to |reasons|
        invariant unique == Unique(reasons[..i])
      {
        assert reasons[..i + 1][..i] == reasons[..i];
        if reasons[i] !in unique { unique := unique + [reasons[i]]; }
      }
      assert reasons[..|reasons|] == reasons;
    }

    /** Answers from a stored receipt, flagging a delivery it does not record. */
    method ReplayOf(input: Intake, existing: Receipt, ghost steps: nat) returns (outcome: Outcome)
      requires steps >= 1
      modifies this
      ensures (directory, Delivery(input, Done(outcome))) == Finish(w, old(directory), Delivery(input, Replay(w, input, existing)), steps)
    {
      var rawSha256, aliasHash := w.hash(input.bytes), w.hashText(input.alias);
      if existing.rawSha256 == rawSha256 && existing.aliasHash == aliasHash { return Received(existing); }
      var flagged := Publish(FlagName(input.messageId, rawSha256, aliasHash), FlagFile(input.messageId, rawSha256, aliasHash));
      return Conflict;
    }

    /** One delivery that meets no fault and no other delivery runs exactly as its process does alone. */
    method Receive(input: Intake) returns (outcome: Outcome)
      modifies this
      ensures (directory, Delivery(input, Done(outcome))) == Finish(w, old(directory), Delivery(input, Looking), 4)
    {
      if |input.bytes| > MAX_INCOMING_BYTES { return TooLarge; }
      var name := ReceiptName(input.messageId);
      if name in directory {
        if !directory[name].ReceiptFile? || !Readable(w, directory[name].receipt, input.messageId) { return Unavailable; }
        outcome := ReplayOf(input, directory[name].receipt, 3);
        return;
      }
      var quarantine := QuarantineFor(input);
      var text := if quarantine == [] then Some(REQUEST_TEXT) else None;
      var unique := Distinguish(quarantine);
      var rawSha256 := w.hash(input.bytes);
      var receipt := Receipt(input.messageId, w.hashText(input.alias), input.binding,
                             if |input.bytes| > MAX_ORIGINAL_BYTES then "" else w.encode(input.bytes), rawSha256, |input.bytes|,
                             "sha256:" + rawSha256, input.receivedAt, unique, text);
      var created := Publish(name, ReceiptFile(receipt));
      assert created;
      return Received(receipt);
    }

    /** The text of an e-mail for its job, if the caller may see the job and nothing holds the e-mail back. */
    method ReadOriginal(request: Request) returns (r: Result<Option<Original>, Outcome>)
      ensures r == Release(w, directory, request)
    {
      if !request.wellFormed || !request.authorized { return Ok(None); }
      var name := ReceiptName(request.deliveryId);
      if name !in directory { return Ok(None); }
      if !directory[name].ReceiptFile? || !Readable(w, directory[name].receipt, request.deliveryId) { return Err(Unavailable); }
      var found := directory[name].receipt;
      if found.quarantine != [] || found.text.None? || found.binding != Some(Binding(request.tenant, request.job)) { return Ok(None); }
      return Ok(Some(Original(request.tenant, request.job, request.deliveryId, found.text.value, found.objectVersionId + ":text",
                              w.hashText(found.text.value), found.receivedAt)));
    }
  }
}
