/** The file-backed device registry (internal/devices/registry.go): pairing codes, paired devices and
    their tokens, in memory and on disk, through failed saves, crashes and restarts.

    Random values and clock readings come in as arguments.  A token stands for its bcrypt hash: a
    device accepts exactly the token it was issued. */
module Registry {
  import opened Util

  type Id = string
  type Code = string
  type Token = string

  datatype Device = Device(
    id: Id,
    deviceLabel: string,
    online: bool,
    capabilities: seq<string>,
    lastSeen: int,
    pairedAt: int,
    token: Token)

  datatype PairingCode = PairingCode(code: Code, hostname: string, expiresAt: int, used: bool)

  /** The registry's two maps. */
  datatype Doc = Doc(devices: map<Id, Device>, codes: map<Code, PairingCode>)

  const EMPTY: Doc := Doc(map[], map[])

  datatype Error =
    | CodeNotFound
    | CodeUsed
    | CodeExpired
    | DeviceNotFound
    | AuthFailed
    | RandomFailed
    | NoUniqueCode
    | SaveFailed

  datatype Response =
    | Crashed                                  // no answer: the process died
    | Refused(error: Error)
    | Created(code: PairingCode)
    | Approved(device: Device, token: Token)
    | Done
    | Authenticated(device: Device)

  /** How an operation's save ends. */
  datatype Fate = Saves | SaveFails | CrashesBefore | CrashesAfter

  datatype Op =
    | Create(candidates: seq<Option<Code>>, hostname: string, now: int, ttl: int, fate: Fate)
    | Approve(code: Code, checked: int, now: int, generated: Option<(Id, Token)>, fate: Fate)
    | Reject(code: Code, fate: Fate)
    | Authenticate(token: Token)
    | SetOnline(id: Id, online: bool, now: int, fate: Fate)
    | UpdateCapabilities(id: Id, capabilities: seq<string>, fate: Fate)
    | Revoke(id: Id, fate: Fate)
    | Restart

  // ---------------------------------------------------------------- what the operations do

  datatype Outcome = Outcome(mem: Doc, disk: Doc, response: Response)

  /** Saving the new state `next`; a crash is followed by a restart from the file. */
  function Commit(disk: Doc, next: Doc, fate: Fate, ack: Response): Outcome {
    match fate
    case Saves => Outcome(next, next, ack)
    case SaveFails => Outcome(next, disk, Refused(SaveFailed))
    case CrashesBefore => Outcome(disk, disk, Crashed)
    case CrashesAfter => Outcome(next, next, Crashed)
  }

  const CODE_TRIES: nat := 10

  datatype Pick = Picked(code: Code) | PickFailed(error: Error)

  /** The first of at most ten generated codes that is not taken. */
  function PickCode(candidates: seq<Option<Code>>, codes: map<Code, PairingCode>, tries: nat): Pick {
    if candidates == [] || tries == 0 then PickFailed(NoUniqueCode)
    else if candidates[0].None? then PickFailed(RandomFailed)
    else if candidates[0].value in codes then PickCode(candidates[1..], codes, tries - 1)
    else Picked(candidates[0].value)
  }

  function NewCode(code: Code, hostname: string, now: int, ttl: int): PairingCode {
    PairingCode(code, hostname, now + ttl, false)
  }

  function NewDevice(id: Id, token: Token, deviceLabel: string, now: int): Device {
    Device(id, deviceLabel, false, [], now, now, token)
  }

  function Use(mem: Doc, code: Code): Doc
    requires code in mem.codes
  {
    mem.(codes := mem.codes[code := mem.codes[code].(used := true)])
  }

  predicate Accepts(mem: Doc, id: Id, token: Token) {
    id in mem.devices && mem.devices[id].token == token
  }

  /** What an operation does up to its save. */
  datatype Attempt = Answer(response: Response) | Change(next: Doc, fate: Fate, ack: Response)

  ghost function Try(mem: Doc, op: Op): Attempt
    requires !op.Restart?
  {
    match op
    case Create(candidates, hostname, now, ttl, fate) =>
      (match PickCode(candidates, mem.codes, CODE_TRIES)
       case PickFailed(error) => Answer(Refused(error))
       case Picked(code) =>
         var pc := NewCode(code, hostname, now, ttl);
         Change(mem.(codes := mem.codes[code := pc]), fate, Created(pc)))
    case Approve(code, checked, now, generated, fate) =>
      if code !in mem.codes then Answer(Refused(CodeNotFound))
      else if mem.codes[code].used then Answer(Refused(CodeUsed))
      else if checked > mem.codes[code].expiresAt then Answer(Refused(CodeExpired))
      else if generated.None? then Answer(Refused(RandomFailed))
      else
        var (id, token) := generated.value;
        var d := NewDevice(id, token, mem.codes[code].hostname, now);
        Change(Use(mem, code).(devices := mem.devices[id := d]), fate, Approved(d, token))
    case Reject(code, fate) =>
      if code !in mem.codes then Answer(Refused(CodeNotFound))
      else if mem.codes[code].used then Answer(Refused(CodeUsed))
      else Change(Use(mem, code), fate, Done)
    case Authenticate(token) =>
      if exists id :: Accepts(mem, id, token) then
        var id :| Accepts(mem, id, token);
        Answer(Authenticated(mem.devices[id]))
      else Answer(Refused(AuthFailed))
    case SetOnline(id, online, now, fate) =>
      if id !in mem.devices then Answer(Refused(DeviceNotFound))
      else Change(mem.(devices := mem.devices[id := mem.devices[id].(online := online, lastSeen := now)]), fate, Done)
    case UpdateCapabilities(id, capabilities, fate) =>
      if id !in mem.devices then Answer(Refused(DeviceNotFound))
      else Change(mem.(devices := mem.devices[id := mem.devices[id].(capabilities := capabilities)]), fate, Done)
    case Revoke(id, fate) =>
      if id !in mem.devices then Answer(Refused(DeviceNotFound))
      else Change(mem.(devices := mem.devices - {id}), fate, Done)
  }

  ghost function Effect(mem: Doc, disk: Doc, op: Op): Outcome {
    if op.Restart? then Outcome(disk, disk, Done)
    else
      match Try(mem, op)
      case Answer(response) => Outcome(mem, disk, response)
      case Change(next, fate, ack) => Commit(disk, next, fate, ack)
  }

  /** An acknowledgement of something the operation changed. */
  predicate Acknowledges(r: Response) {
    r.Created? || r.Approved? || r.Done?
  }

  /** An operation that is acknowledged has left on disk exactly what is in memory. */
  lemma AcknowledgedIsOnDisk(mem: Doc, disk: Doc, op: Op)
    ensures var o := Effect(mem, disk, op); Acknowledges(o.response) ==> o.disk == o.mem
  {
  }

  // ---------------------------------------------------------------- runs

  /** A registry with the record of what callers were told and what was ever issued. */
  datatype State = State(
    mem: Doc,
    disk: Doc,
    tokens: map<Id, Token>,       // every id ever generated, with its token
    decided: seq<Code>,           // codes whose approval or rejection was acknowledged, in order
    paired: map<Id, Code>,        // devices whose approval was acknowledged, with the code
    approvedAt: map<Id, int>,     // and with the clock reading that the code was judged by
    revoking: set<Id>,            // devices somebody tried to revoke
    revoked: set<Id>)             // devices whose revocation was acknowledged

  const INITIAL: State := State(EMPTY, EMPTY, map[], [], map[], map[], {}, {})

  /** Generated ids and tokens are new, and an approval's second clock reading, after the token has been
      generated and hashed, is not before its first. */
  ghost predicate Enabled(s: State, op: Op) {
    op.Approve? && op.generated.Some? ==>
      op.checked <= op.now && op.generated.value.0 !in s.tokens && op.generated.value.1 !in s.tokens.Values
  }

  /** What an operation with this response adds to the record. */
  function Recorded(s: State, op: Op, r: Response): State {
    match op
    case Approve(code, checked, _, generated, _) =>
      var t := if generated.Some? then s.(tokens := s.tokens[generated.value.0 := generated.value.1]) else s;
      if r.Approved? then
        t.(decided := s.decided + [code],
           paired := s.paired[r.device.id := code],
           approvedAt := s.approvedAt[r.device.id := checked])
      else t
    case Reject(code, _) => if r.Done? then s.(decided := s.decided + [code]) else s
    case Revoke(id, _) =>
      var t := s.(revoking := s.revoking + {id});
      if r.Done? then t.(revoked := s.revoked + {id}) else t
    case _ => s
  }

  ghost function Step(s: State, op: Op): State {
    var o := Effect(s.mem, s.disk, op);
    Recorded(s, op, o.response).(mem := o.mem, disk := o.disk)
  }

  ghost predicate Legal(s: State, run: seq<Op>)
    decreases |run|
  {
    run == [] || (Enabled(s, run[0]) && Legal(Step(s, run[0]), run[1..]))
  }

  ghost function After(s: State, run: seq<Op>): State
    decreases |run|
  {
    if run == [] then s else After(Step(s, run[0]), run[1..])
  }

  // ---------------------------------------------------------------- invariants

  /** Memory knows every code that the disk knows, as it was created, and every use of one. */
  ghost predicate MemoryAhead(mem: Doc, disk: Doc) {
    forall c :: c in disk.codes ==> c in mem.codes && Continues(mem.codes[c], disk.codes[c])
  }

  predicate Continues(later: PairingCode, earlier: PairingCode) {
    (earlier.used ==> later.used) && later.hostname == earlier.hostname && later.expiresAt == earlier.expiresAt
  }

  predicate UsedOn(doc: Doc, c: Code) {
    c in doc.codes && doc.codes[c].used
  }

  ghost predicate CodesOk(s: State) {
    && MemoryAhead(s.mem, s.disk)
    && (forall i :: 0 <= i < |s.decided| ==> UsedOn(s.disk, s.decided[i]))
    && (forall i, j :: 0 <= i < j < |s.decided| ==> s.decided[i] != s.decided[j])
  }

  /** Devices carry the tokens they were issued, under their ids. */
  ghost predicate Issued(tokens: map<Id, Token>, doc: Doc) {
    forall id :: id in doc.devices ==> id in tokens && doc.devices[id].token == tokens[id]
  }

  ghost predicate TokensOk(s: State) {
    && Issued(s.tokens, s.mem) && Issued(s.tokens, s.disk)
    && OneToOne(s.tokens)
  }

  ghost predicate DevicesOk(s: State) {
    && (forall id :: id in s.revoked ==> id in s.tokens && id !in s.mem.devices && id !in s.disk.devices)
    && (forall id :: id in s.paired ==> id in s.tokens && (id in s.revoking || (id in s.mem.devices && id in s.disk.devices)))
  }

  ghost predicate PairedOk(s: State) {
    && (forall id :: id in s.paired ==> s.paired[id] in s.decided)
    && (forall id, other :: id in s.paired && other in s.paired && s.paired[id] == s.paired[other] ==> id == other)
  }

  /** Acknowledged devices carry the name their code was created for, and were stamped no earlier than
      their approval was judged. */
  ghost predicate AsApproved(paired: map<Id, Code>, approvedAt: map<Id, int>, doc: Doc) {
    forall id :: id in paired && id in doc.devices ==>
      id in approvedAt && paired[id] in doc.codes && Fits(doc.devices[id], doc.codes[paired[id]], approvedAt[id])
  }

  predicate Fits(d: Device, pc: PairingCode, approvedAt: int) {
    d.deviceLabel == pc.hostname && approvedAt <= d.pairedAt
  }

  /** Every acknowledged approval was judged before its code expired. */
  ghost predicate InTime(paired: map<Id, Code>, approvedAt: map<Id, int>, disk: Doc) {
    forall id :: id in paired ==>
      id in approvedAt && paired[id] in disk.codes && approvedAt[id] <= disk.codes[paired[id]].expiresAt
  }

  ghost predicate TimesOk(s: State) {
    && AsApproved(s.paired, s.approvedAt, s.mem) && AsApproved(s.paired, s.approvedAt, s.disk)
    && InTime(s.paired, s.approvedAt, s.disk)
  }

  ghost predicate Inv(s: State) {
    CodesOk(s) && TokensOk(s) && DevicesOk(s) && PairedOk(s) && TimesOk(s)
  }

  /** No operation forgets a code or the use of one. */
  lemma ChangeKeepsCodes(mem: Doc, op: Op)
    requires !op.Restart? && Try(mem, op).Change?
    ensures MemoryAhead(Try(mem, op).next, mem)
  {
    if op.Create? {
      PickIsNew(op.candidates, mem.codes, CODE_TRIES);
    }
  }

  /** A code is decided only while it is unused, and saving the decision uses it. */
  lemma DecidingUses(s: State, op: Op)
    ensures var t := Step(s, op);
            t.decided == s.decided ||
            ((op.Approve? || op.Reject?) && t.decided == s.decided + [op.code] &&
             !UsedOn(s.mem, op.code) && UsedOn(t.disk, op.code))
  {
  }

  /** Where the documents of a new state can come from. */
  predicate Shape(mem: Doc, disk: Doc, next: Doc, mem': Doc, disk': Doc) {
    (mem' == mem && disk' == disk) || (mem' == disk && disk' == disk) || (mem' == next && (disk' == next || disk' == disk))
  }

  /** The document an operation tries to save; the old one if it saves nothing. */
  ghost function Target(mem: Doc, op: Op): Doc {
    if !op.Restart? && Try(mem, op).Change? then Try(mem, op).next else mem
  }

  lemma StepShape(s: State, op: Op)
    ensures Shape(s.mem, s.disk, Target(s.mem, op), Step(s, op).mem, Step(s, op).disk)
  {
  }

  lemma ShapeKeepsAhead(mem: Doc, disk: Doc, next: Doc, mem': Doc, disk': Doc)
    requires Shape(mem, disk, next, mem', disk')
    requires MemoryAhead(mem, disk) && MemoryAhead(next, mem)
    ensures MemoryAhead(mem', disk') && MemoryAhead(disk', disk)
  {
  }

  lemma StepKeepsAhead(s: State, op: Op)
    requires MemoryAhead(s.mem, s.disk)
    ensures MemoryAhead(Step(s, op).mem, Step(s, op).disk) && MemoryAhead(Step(s, op).disk, s.disk)
  {
    if !op.Restart? && Try(s.mem, op).Change? {
      ChangeKeepsCodes(s.mem, op);
    }
    StepShape(s, op);
    ShapeKeepsAhead(s.mem, s.disk, Target(s.mem, op), Step(s, op).mem, Step(s, op).disk);
  }

  lemma StepKeepsCodes(s: State, op: Op)
    requires CodesOk(s)
    ensures CodesOk(Step(s, op))
  {
    StepKeepsAhead(s, op);
    DecidingUses(s, op);
  }

  lemma {:induction false} PickIsNew(candidates: seq<Option<Code>>, codes: map<Code, PairingCode>, tries: nat)
    ensures PickCode(candidates, codes, tries).Picked? ==> PickCode(candidates, codes, tries).code !in codes
  {
    if candidates != [] && tries > 0 {
      PickIsNew(candidates[1..], codes, tries - 1);
    }
  }

  /** Every device after a change was there before, with the same token, or is the new one. */
  lemma ChangeKeepsTokens(mem: Doc, op: Op, id: Id)
    requires id in Target(mem, op).devices
    ensures var d := Target(mem, op).devices[id];
            if op.Approve? && op.generated.Some? && op.generated.value.0 == id then d.token == op.generated.value.1 || Target(mem, op) == mem
            else id in mem.devices && d.token == mem.devices[id].token
  {
  }

  function NewTokens(tokens: map<Id, Token>, op: Op): map<Id, Token> {
    if op.Approve? && op.generated.Some? then tokens[op.generated.value.0 := op.generated.value.1] else tokens
  }

  lemma StepTokens(s: State, op: Op)
    ensures Step(s, op).tokens == NewTokens(s.tokens, op)
  {
    assert forall r :: Recorded(s, op, r).tokens == NewTokens(s.tokens, op);
  }

  ghost predicate OneToOne(tokens: map<Id, Token>) {
    forall id, other :: id in tokens && other in tokens && tokens[id] == tokens[other] ==> id == other
  }

  lemma NewTokensOneToOne(tokens: map<Id, Token>, id: Id, token: Token)
    requires OneToOne(tokens) && id !in tokens && token !in tokens.Values
    ensures OneToOne(tokens[id := token])
  {
    assert forall other :: other in tokens ==> tokens[other] in tokens.Values;
  }

  /** Tokens are only added, under new names, and never twice. */
  lemma StepAddsToken(s: State, op: Op)
    requires OneToOne(s.tokens) && Enabled(s, op)
    ensures var t := Step(s, op);
            && (forall id :: id in s.tokens ==> id in t.tokens && t.tokens[id] == s.tokens[id])
            && OneToOne(t.tokens)
            && (op.Approve? && op.generated.Some? ==> t.tokens == s.tokens[op.generated.value.0 := op.generated.value.1])
  {
    StepTokens(s, op);
    if op.Approve? && op.generated.Some? {
      NewTokensOneToOne(s.tokens, op.generated.value.0, op.generated.value.1);
    }
  }

  lemma StepKeepsTokens(s: State, op: Op)
    requires TokensOk(s) && Enabled(s, op)
    ensures TokensOk(Step(s, op))
  {
    var t := Step(s, op);
    StepAddsToken(s, op);
    TargetIsIssued(s, op, t.tokens);
    StepShape(s, op);
  }

  lemma TargetIsIssued(s: State, op: Op, tokens: map<Id, Token>)
    requires Issued(s.tokens, s.mem)
    requires forall id :: id in s.tokens ==> id in tokens && tokens[id] == s.tokens[id]
    requires op.Approve? && op.generated.Some? ==> tokens == s.tokens[op.generated.value.0 := op.generated.value.1]
    ensures Issued(tokens, Target(s.mem, op))
  {
    forall id | id in Target(s.mem, op).devices
      ensures id in tokens && Target(s.mem, op).devices[id].token == tokens[id]
    {
      ChangeKeepsTokens(s.mem, op, id);
    }
  }

  /** A change removes no device but the one it revokes. */
  lemma ChangeKeepsDevice(mem: Doc, op: Op, id: Id)
    requires id in mem.devices
    ensures id in Target(mem, op).devices || (op.Revoke? && op.id == id)
  {
  }

  /** What each acknowledgement adds to the record. */
  lemma StepRecords(s: State, op: Op)
    ensures var t := Step(s, op);
            && t.revoking == s.revoking + (if op.Revoke? then {op.id} else {})
            && (t.revoked == s.revoked ||
                (op.Revoke? && t.revoked == s.revoked + {op.id} && op.id in s.mem.devices &&
                 t.mem == t.disk && op.id !in t.mem.devices))
            && (t.paired == s.paired ||
                (op.Approve? && op.generated.Some? && t.paired == s.paired[op.generated.value.0 := op.code] &&
                 t.mem == t.disk && op.generated.value.0 in t.mem.devices && t.decided == s.decided + [op.code]))
  {
  }

  lemma StepKeepsDevices(s: State, op: Op)
    requires TokensOk(s) && DevicesOk(s) && Enabled(s, op)
    ensures DevicesOk(Step(s, op))
  {
    StepAddsToken(s, op);
    StepRecords(s, op);
    StepShape(s, op);
    StepKeepsRevoked(s, op);
    StepKeepsPairedOnDisk(s, op);
  }

  lemma StepKeepsRevoked(s: State, op: Op)
    requires TokensOk(s) && DevicesOk(s) && Enabled(s, op)
    ensures forall id :: id in s.revoked ==> id !in Step(s, op).mem.devices && id !in Step(s, op).disk.devices
  {
    forall id | id in s.revoked
      ensures id !in Step(s, op).mem.devices && id !in Step(s, op).disk.devices
    {
      StepShape(s, op);
      if id in Target(s.mem, op).devices {
        ChangeKeepsTokens(s.mem, op, id);
      }
    }
  }

  lemma StepKeepsPairedOnDisk(s: State, op: Op)
    requires DevicesOk(s)
    ensures forall id :: id in s.paired ==>
              id in Step(s, op).revoking || (id in Step(s, op).mem.devices && id in Step(s, op).disk.devices)
  {
    forall id | id in s.paired && id !in Step(s, op).revoking
      ensures id in Step(s, op).mem.devices && id in Step(s, op).disk.devices
    {
      StepShape(s, op);
      StepRecords(s, op);
      ChangeKeepsDevice(s.mem, op, id);
    }
  }

  lemma StepKeepsPaired(s: State, op: Op)
    requires CodesOk(s) && DevicesOk(s) && PairedOk(s)
    ensures PairedOk(Step(s, op))
  {
    var t := Step(s, op);
    DecidingUses(s, op);
    StepRecords(s, op);
    if t.paired != s.paired {
      assert t.decided == s.decided + [op.code];
      assert op.code !in s.decided;
      assert t.decided[|s.decided|] == op.code;
    }
    assert forall c :: c in s.decided ==> c in t.decided;
  }

  /** A device keeps its name and pairing time through every change, and a new one fits its code. */
  lemma ChangeKeepsTimes(mem: Doc, op: Op, id: Id)
    requires id in Target(mem, op).devices
    ensures var next := Target(mem, op);
            if op.Approve? && op.generated.Some? && op.generated.value.0 == id && next != mem then
              op.code in next.codes && (op.checked <= op.now ==> Fits(next.devices[id], next.codes[op.code], op.checked))
            else
              id in mem.devices && next.devices[id].deviceLabel == mem.devices[id].deviceLabel &&
              next.devices[id].pairedAt == mem.devices[id].pairedAt
  {
  }

  lemma TargetAhead(mem: Doc, op: Op)
    ensures MemoryAhead(Target(mem, op), mem)
  {
    if !op.Restart? && Try(mem, op).Change? {
      ChangeKeepsCodes(mem, op);
    }
  }

  /** What an acknowledged approval adds to the record of times. */
  lemma StepRecordsTimes(s: State, op: Op)
    ensures var t := Step(s, op);
            || (t.paired == s.paired && t.approvedAt == s.approvedAt)
            || (op.Approve? && op.generated.Some? && op.code in t.disk.codes
                && t.paired == s.paired[op.generated.value.0 := op.code]
                && t.approvedAt == s.approvedAt[op.generated.value.0 := op.checked]
                && op.checked <= t.disk.codes[op.code].expiresAt && Target(s.mem, op) != s.mem)
  {
    if op.Approve? && op.code in s.mem.codes && !s.mem.codes[op.code].used {
      assert UsedOn(Use(s.mem, op.code), op.code);
    }
  }

  lemma TargetAsApproved(s: State, op: Op)
    requires TimesOk(s) && TokensOk(s) && DevicesOk(s) && Enabled(s, op)
    ensures AsApproved(Step(s, op).paired, Step(s, op).approvedAt, Target(s.mem, op))
  {
    StepRecordsTimes(s, op);
    TargetAhead(s.mem, op);
    var t, next := Step(s, op), Target(s.mem, op);
    forall id | id in t.paired && id in next.devices
      ensures id in t.approvedAt && t.paired[id] in next.codes && Fits(next.devices[id], next.codes[t.paired[id]], t.approvedAt[id])
    {
      ChangeKeepsTimes(s.mem, op, id);
      if id in s.paired {
        assert id in s.tokens;
      }
    }
  }

  lemma StepKeepsAsApproved(s: State, op: Op)
    requires TimesOk(s) && TokensOk(s) && DevicesOk(s) && Enabled(s, op)
    ensures var t := Step(s, op); AsApproved(t.paired, t.approvedAt, t.mem) && AsApproved(t.paired, t.approvedAt, t.disk)
  {
    TargetAsApproved(s, op);
    StepShape(s, op);
    StepRecordsTimes(s, op);
    StepRecords(s, op);
  }

  lemma StepKeepsInTime(s: State, op: Op)
    requires TimesOk(s) && MemoryAhead(s.mem, s.disk)
    ensures var t := Step(s, op); InTime(t.paired, t.approvedAt, t.disk)
  {
    StepRecordsTimes(s, op);
    StepKeepsAhead(s, op);
  }

  lemma StepKeepsTimes(s: State, op: Op)
    requires TimesOk(s) && CodesOk(s) && TokensOk(s) && DevicesOk(s) && Enabled(s, op)
    ensures TimesOk(Step(s, op))
  {
    StepKeepsAsApproved(s, op);
    StepKeepsInTime(s, op);
  }

  lemma StepKeepsInv(s: State, op: Op)
    requires Inv(s) && Enabled(s, op)
    ensures Inv(Step(s, op))
  {
    StepKeepsCodes(s, op);
    StepKeepsTokens(s, op);
    StepKeepsDevices(s, op);
    StepKeepsPaired(s, op);
    StepKeepsTimes(s, op);
  }

  lemma {:induction false} RunKeepsInv(s: State, run: seq<Op>)
    requires Inv(s) && Legal(s, run)
    ensures Inv(After(s, run))
    decreases |run|
  {
    if run != [] {
      StepKeepsInv(s, run[0]);
      RunKeepsInv(Step(s, run[0]), run[1..]);
    }
  }

  // ---------------------------------------------------------------- what a run guarantees

  /** Across any run of operations, failed saves, crashes and restarts: each code is approved or
      rejected with an acknowledgement at most once, and from then on the disk says it is used. */
  lemma CodesAreSingleUse(run: seq<Op>)
    requires Legal(INITIAL, run)
    ensures var s := After(INITIAL, run);
            && (forall i, j :: 0 <= i < j < |s.decided| ==> s.decided[i] != s.decided[j])
            && (forall i :: 0 <= i < |s.decided| ==> UsedOn(s.disk, s.decided[i]) && UsedOn(s.mem, s.decided[i]))
  {
    RunKeepsInv(INITIAL, run);
  }

  /** Across any run the disk forgets no code and no use of one, so an approval or rejection that was
      saved stays in force through every later crash, failed save and restart. */
  lemma {:induction false} DiskNeverForgets(s: State, run: seq<Op>)
    requires MemoryAhead(s.mem, s.disk)
    ensures var t := After(s, run); MemoryAhead(t.disk, s.disk) && MemoryAhead(t.mem, s.disk)
    decreases |run|
  {
    if run != [] {
      StepKeepsAhead(s, run[0]);
      DiskNeverForgets(Step(s, run[0]), run[1..]);
    }
  }

  /** The operation replaces the file. */
  ghost predicate Writes(s: State, op: Op) {
    !op.Restart? && Try(s.mem, op).Change? && (Try(s.mem, op).fate.Saves? || Try(s.mem, op).fate.CrashesAfter?)
  }

  ghost predicate NothingWritten(s: State, run: seq<Op>)
    decreases |run|
  {
    run == [] || (!Writes(s, run[0]) && NothingWritten(Step(s, run[0]), run[1..]))
  }

  /** The file changes only when it is replaced, and then to what the operation meant to save. */
  lemma FileAfter(s: State, op: Op)
    ensures Step(s, op).disk == if Writes(s, op) then Target(s.mem, op) else s.disk
  {
  }

  lemma {:induction false} UnwrittenFileStays(s: State, run: seq<Op>)
    requires NothingWritten(s, run)
    ensures After(s, run).disk == s.disk
    decreases |run|
  {
    if run != [] {
      FileAfter(s, run[0]);
      UnwrittenFileStays(Step(s, run[0]), run[1..]);
    }
  }

  /** What was acknowledged is durable: after any further run of refused operations, failed saves,
      crashes and restarts, starting up again gives exactly the state that was acknowledged, until
      another change is saved. */
  lemma AcknowledgedSurvives(s: State, op: Op, run: seq<Op>)
    requires Acknowledges(Effect(s.mem, s.disk, op).response)
    requires NothingWritten(Step(s, op), run)
    ensures var t := Step(s, op);
            var u := Step(After(t, run), Restart);
            u.mem == t.mem && u.disk == t.mem
  {
    AcknowledgedIsOnDisk(s.mem, s.disk, op);
    UnwrittenFileStays(Step(s, op), run);
  }

  /** Across any run a code yields at most one acknowledged device. */
  lemma OneDevicePerCode(run: seq<Op>, id: Id, other: Id)
    requires Legal(INITIAL, run)
    requires id in After(INITIAL, run).paired && other in After(INITIAL, run).paired
    requires After(INITIAL, run).paired[id] == After(INITIAL, run).paired[other]
    ensures id == other
  {
    RunKeepsInv(INITIAL, run);
  }

  /** Across any run an acknowledged approval was judged before its code expired, and the disk still says
      so; and a device that nobody tried to revoke is labelled with the name that its code was created
      for and stamped no earlier than it was judged. */
  lemma PairedInTime(run: seq<Op>, id: Id)
    requires Legal(INITIAL, run) && id in After(INITIAL, run).paired
    ensures var s := After(INITIAL, run); var code := s.paired[id];
            && id in s.approvedAt && UsedOn(s.disk, code)
            && s.approvedAt[id] <= s.disk.codes[code].expiresAt
            && (id !in s.revoking ==>
                  id in s.disk.devices && Fits(s.disk.devices[id], s.disk.codes[code], s.approvedAt[id]))
  {
    RunKeepsInv(INITIAL, run);
    var s := After(INITIAL, run);
    var i :| 0 <= i < |s.decided| && s.decided[i] == s.paired[id];
  }

  /** The stamp itself can be later than the expiry, since it comes from a second reading of the clock,
      made when the token has been generated and hashed: an approval judged in time is stamped in time
      exactly if that reading is in time too. */
  lemma StampedInTimeIff(s: State, code: Code, checked: int, now: int, id: Id, token: Token)
    requires code in s.mem.codes && !s.mem.codes[code].used && checked <= s.mem.codes[code].expiresAt
    ensures var r := Effect(s.mem, s.disk, Approve(code, checked, now, Some((id, token)), Saves)).response;
            r.Approved? && (r.device.pairedAt <= s.mem.codes[code].expiresAt <==> now <= s.mem.codes[code].expiresAt)
  {
  }

  /** A run in which it is later: a code is approved at the last moment of its time. */
  lemma StampedLate(code: Code, hostname: string, start: int, ttl: nat, id: Id, token: Token)
    ensures var run := [Create([Some(code)], hostname, start, ttl, Saves),
                        Approve(code, start + ttl, start + ttl + 1, Some((id, token)), Saves)];
            && Legal(INITIAL, run)
            && var s := After(INITIAL, run);
               id in s.paired && id in s.disk.devices && code in s.disk.codes &&
               s.disk.devices[id].pairedAt > s.disk.codes[code].expiresAt
  {
    var create := Create([Some(code)], hostname, start, ttl, Saves);
    var approve := Approve(code, start + ttl, start + ttl + 1, Some((id, token)), Saves);
    var run := [create, approve];
    assert PickCode([Some(code)], map[], CODE_TRIES) == Picked(code);
    var s := Step(INITIAL, create);
    assert s.mem.codes == map[code := NewCode(code, hostname, start, ttl)];
    var t := Step(s, approve);
    AfterOne(s, approve);
    assert run[1..] == [approve];
  }

  lemma AfterOne(s: State, op: Op)
    requires Enabled(s, op)
    ensures Legal(s, [op]) && After(s, [op]) == Step(s, op)
  {
    assert [op][1..] == [] && [op][0] == op;
    assert After(Step(s, op), []) == Step(s, op);
  }

  /** Across any run an acknowledged device stays on disk and in memory, with its token, and that
      token authenticates it and no other, until somebody tries to revoke it. */
  lemma PairedDevicesLast(run: seq<Op>, id: Id)
    requires Legal(INITIAL, run)
    requires id in After(INITIAL, run).paired && id !in After(INITIAL, run).revoking
    ensures var s := After(INITIAL, run);
            && id in s.tokens && Accepts(s.mem, id, s.tokens[id]) && Accepts(s.disk, id, s.tokens[id])
            && Effect(s.mem, s.disk, Authenticate(s.tokens[id])).response == Authenticated(s.mem.devices[id])
  {
    RunKeepsInv(INITIAL, run);
    AuthenticateFinds(After(INITIAL, run), id);
  }

  lemma AuthenticateFinds(s: State, id: Id)
    requires TokensOk(s) && id in s.mem.devices
    ensures Effect(s.mem, s.disk, Authenticate(s.tokens[id])).response == Authenticated(s.mem.devices[id])
  {
    assert Accepts(s.mem, id, s.tokens[id]);
  }

  /** Across any run, after an acknowledged revocation the device's token authenticates nobody, not
      even after a restart. */
  lemma RevokedTokensFail(run: seq<Op>, id: Id)
    requires Legal(INITIAL, run) && id in After(INITIAL, run).revoked
    ensures var s := After(INITIAL, run);
            && id in s.tokens
            && Effect(s.mem, s.disk, Authenticate(s.tokens[id])).response == Refused(AuthFailed)
            && Effect(s.disk, s.disk, Authenticate(s.tokens[id])).response == Refused(AuthFailed)
  {
    RunKeepsInv(INITIAL, run);
    RevokedIsUnknown(After(INITIAL, run), id);
  }

  lemma RevokedIsUnknown(s: State, id: Id)
    requires TokensOk(s) && DevicesOk(s) && id in s.revoked
    ensures id in s.tokens
    ensures Effect(s.mem, s.disk, Authenticate(s.tokens[id])).response == Refused(AuthFailed)
    ensures Effect(s.disk, s.disk, Authenticate(s.tokens[id])).response == Refused(AuthFailed)
  {
    NobodyAccepts(s.tokens, s.mem, s.disk, id);
    NobodyAccepts(s.tokens, s.disk, s.disk, id);
  }

  lemma NobodyAccepts(tokens: map<Id, Token>, mem: Doc, disk: Doc, id: Id)
    requires Issued(tokens, mem) && OneToOne(tokens) && id in tokens && id !in mem.devices
    ensures Effect(mem, disk, Authenticate(tokens[id])).response == Refused(AuthFailed)
  {
    forall other ensures !Accepts(mem, other, tokens[id]) {
      if other in mem.devices {
        assert tokens[other] == mem.devices[other].token;
      }
    }
  }

  /** A revocation that could not be saved is not one: asking again is answered "not found", and yet
      the device is still on disk, so a restart brings it back and its token works again. */
  lemma UnsavedRevocationReturns(s: State, id: Id)
    requires Inv(s) && id in s.mem.devices && id in s.disk.devices
    ensures var t := Step(s, Revoke(id, SaveFails));
            && Effect(s.mem, s.disk, Revoke(id, SaveFails)).response == Refused(SaveFailed)
            && Effect(t.mem, t.disk, Revoke(id, Saves)).response == Refused(DeviceNotFound)
            && var u := Step(Step(t, Revoke(id, Saves)), Restart);
               Effect(u.mem, u.disk, Authenticate(s.tokens[id])).response == Authenticated(s.disk.devices[id])
  {
    var t := Step(s, Revoke(id, SaveFails));
    var u := Step(Step(t, Revoke(id, Saves)), Restart);
    assert u.mem == s.disk && u.disk == s.disk && u.tokens == s.tokens;
    AuthenticateFinds(u, id);
  }

  /** So a revocation followed by a restart undoes itself exactly if the save failed or the process died
      before it. */
  lemma RevocationUndoneIff(s: State, id: Id, fate: Fate)
    requires id in s.mem.devices && id in s.disk.devices
    ensures var t := Step(Step(s, Revoke(id, fate)), Restart);
            && (id in t.mem.devices <==> fate.SaveFails? || fate.CrashesBefore?)
            && (id in t.mem.devices ==> t.mem.devices[id] == s.disk.devices[id])
  {
  }

  predicate Survives(op: Op) {
    !op.Restart? && (op.Authenticate? || op.fate.Saves? || op.fate.SaveFails?)
  }

  /** A run of operations of one process, none of which crashes. */
  ghost predicate OneLife(run: seq<Op>) {
    forall i :: 0 <= i < |run| ==> Survives(run[i])
  }

  ghost predicate Saved(s: State, op: Op) {
    !op.Restart? && Try(s.mem, op).Change? && Try(s.mem, op).fate.Saves?
  }

  ghost predicate SomethingSaved(s: State, run: seq<Op>)
    decreases |run|
  {
    run != [] && (Saved(s, run[0]) || SomethingSaved(Step(s, run[0]), run[1..]))
  }

  /** After a revocation that could not be saved, the device comes back at the next restart exactly if
      nothing at all has been saved in between: any other saved change completes the revocation. */
  lemma {:induction false} UnsavedRevocationReturnsIff(s: State, id: Id, run: seq<Op>)
    requires id in s.tokens && id !in s.mem.devices && id in s.disk.devices
    requires Legal(s, run) && OneLife(run)
    ensures id in Step(After(s, run), Restart).mem.devices <==> !SomethingSaved(s, run)
    decreases |run|
  {
    if run != [] {
      assert forall i :: 0 <= i < |run[1..]| ==> run[1..][i] == run[i + 1];
      UnsavedStep(s, run[0], id);
      if Saved(s, run[0]) {
        StaysRevoked(Step(s, run[0]), id, run[1..]);
      } else {
        UnsavedRevocationReturnsIff(Step(s, run[0]), id, run[1..]);
      }
    }
  }

  lemma UnsavedStep(s: State, op: Op, id: Id)
    requires id in s.tokens && id !in s.mem.devices && Enabled(s, op) && OneLife([op])
    ensures var t := Step(s, op);
            && id in t.tokens && id !in t.mem.devices
            && (id in t.disk.devices <==> id in s.disk.devices && !Saved(s, op))
  {
    assert [op][0] == op;
    if id in Target(s.mem, op).devices {
      ChangeKeepsTokens(s.mem, op, id);
    }
  }

  lemma {:induction false} StaysRevoked(s: State, id: Id, run: seq<Op>)
    requires id in s.tokens && id !in s.mem.devices && id !in s.disk.devices
    requires Legal(s, run) && OneLife(run)
    ensures id !in After(s, run).disk.devices
    decreases |run|
  {
    if run != [] {
      assert forall i :: 0 <= i < |run[1..]| ==> run[1..][i] == run[i + 1];
      UnsavedStep(s, run[0], id);
      StaysRevoked(Step(s, run[0]), id, run[1..]);
    }
  }

  // ---------------------------------------------------------------- the file

  datatype File = File(devices: seq<Device>, codes: seq<PairingCode>)

  function DeviceMap(devices: seq<Device>): map<Id, Device> {
    if devices == [] then map[]
    else DeviceMap(devices[..|devices| - 1])[devices[|devices| - 1].id := devices[|devices| - 1]]
  }

  function CodeMap(codes: seq<PairingCode>): map<Code, PairingCode> {
    if codes == [] then map[]
    else CodeMap(codes[..|codes| - 1])[codes[|codes| - 1].code := codes[|codes| - 1]]
  }

  /** What loading a file yields; there may be none yet. */
  function DocOf(file: Option<File>): Doc {
    if file.None? then EMPTY else Doc(DeviceMap(file.value.devices), CodeMap(file.value.codes))
  }

  /** The first of at most ten candidates that is not taken, if generating it and all before it worked. */
  predicate FirstFree(candidates: seq<Option<Code>>, codes: map<Code, PairingCode>, i: int) {
    0 <= i < |candidates| && i < 10 && candidates[i].Some? && candidates[i].value !in codes && AllTaken(candidates, codes, i)
  }

  predicate AllTaken(candidates: seq<Option<Code>>, codes: map<Code, PairingCode>, n: int) {
    forall j :: 0 <= j < n && j < |candidates| ==> candidates[j].Some? && candidates[j].value in codes
  }

  lemma {:induction false} LastDeviceWins(list: seq<Device>, id: Id)
    ensures id in DeviceMap(list) <==> exists i :: LastDevice(list, id, i)
    ensures forall i :: LastDevice(list, id, i) ==> id in DeviceMap(list) && DeviceMap(list)[id] == list[i]
  {
    if list != [] {
      var n := |list| - 1;
      LastDeviceWins(list[..n], id);
      if list[n].id == id {
        assert LastDevice(list, id, n);
      } else {
        forall i ensures LastDevice(list, id, i) <==> LastDevice(list[..n], id, i) {
        }
      }
    }
  }

  predicate LastDevice(list: seq<Device>, id: Id, i: int) {
    0 <= i < |list| && list[i].id == id && forall j :: i < j < |list| ==> list[j].id != id
  }

  lemma {:induction false} LastCodeWins(list: seq<PairingCode>, code: Code)
    ensures code in CodeMap(list) <==> exists i :: LastCode(list, code, i)
    ensures forall i :: LastCode(list, code, i) ==> code in CodeMap(list) && CodeMap(list)[code] == list[i]
  {
    if list != [] {
      var n := |list| - 1;
      LastCodeWins(list[..n], code);
      if list[n].code == code {
        assert LastCode(list, code, n);
      } else {
        forall i ensures LastCode(list, code, i) <==> LastCode(list[..n], code, i) {
        }
      }
    }
  }

  predicate LastCode(list: seq<PairingCode>, code: Code, i: int) {
    0 <= i < |list| && list[i].code == code && forall j :: i < j < |list| ==> list[j].code != code
  }

  class Disk {
    var file: Option<File>

    constructor ()
      ensures file == None
    {
      file := None;
    }
  }

  /** Records are kept under their own names. */
  ghost predicate Keyed(doc: Doc) {
    && (forall id :: id in doc.devices ==> doc.devices[id].id == id)
    && (forall c :: c in doc.codes ==> doc.codes[c].code == c)
  }

  class FileRegistry {
    const disk: Disk
    const ttl: int
    var devices: map<Id, Device>
    var codes: map<Code, PairingCode>

    function Mem(): Doc
      reads this
    {
      Doc(devices, codes)
    }

    function OnDisk(): Doc
      reads this, disk
    {
      DocOf(disk.file)
    }

    ghost predicate Valid()
      reads this
    {
      Keyed(Mem())
    }

    /** The effect of one operation whose save succeeds or fails. */
    twostate predicate Did(op: Op, response: Response)
      reads this, disk
    {
      Outcome(Mem(), OnDisk(), response) == Effect(old(Mem()), old(OnDisk()), op)
    }

    /** The file holds what is in memory if the change was saved, and is as it was otherwise. */
    ghost predicate SavedIff(saved: bool, before: Doc)
      reads this, disk
    {
      OnDisk() == if saved then Mem() else before
    }

    /** Starting up: what the file holds is what is in memory. */
    constructor (disk: Disk, ttl: int)
      ensures this.disk == disk && this.ttl == ttl
      ensures Valid() && Mem() == OnDisk()
      ensures disk.file == None ==> devices == map[] && codes == map[]
    {
      this.disk, this.ttl := disk, ttl;
      devices, codes := map[], map[];
      new;
      if disk.file.Some? {
        LoadDevices(disk.file.value.devices);
        LoadCodes(disk.file.value.codes);
      }
    }

    method LoadDevices(list: seq<Device>)
      requires devices == map[]
      modifies this`devices
      ensures devices == DeviceMap(list) && forall id :: id in devices ==> devices[id].id == id
    {
      for i := 0 to |list|
        invariant devices == DeviceMap(list[..i])
        invariant forall id :: id in devices ==> devices[id].id == id
      {
        assert list[..i + 1][..i] == list[..i];
        devices := devices[list[i].id := list[i]];
      }
      assert list[..|list|] == list;
    }

    method LoadCodes(list: seq<PairingCode>)
      requires codes == map[]
      modifies this`codes
      ensures codes == CodeMap(list) && forall c :: c in codes ==> codes[c].code == c
    {
      for i := 0 to |list|
        invariant codes == CodeMap(list[..i])
        invariant forall c :: c in codes ==> codes[c].code == c
      {
        assert list[..i + 1][..i] == list[..i];
        codes := codes[list[i].code := list[i]];
      }
      assert list[..|list|] == list;
    }

    /** Writes both maps out, in whatever order, and swaps the file in; loading it gives them back. */
    method Save(ok: bool) returns (saved: bool)
      requires Valid()
      modifies disk
      ensures saved == ok
      ensures OnDisk() == if ok then Mem() else old(OnDisk())
    {
      var ds := ListDevices();
      var cs := ListCodes();
      if !ok {
        return false;
      }
      disk.file := Some(File(ds, cs));
      saved := true;
    }

    method ListDevices() returns (list: seq<Device>)
      requires Valid()
      ensures DeviceMap(list) == devices
    {
      list := [];
      var left := devices.Keys;
      while left != {}
        invariant left <= devices.Keys
        invariant DeviceMap(list) == devices - left
        decreases left
      {
        var id :| id in left;
        assert (list + [devices[id]])[..|list|] == list;
        list := list + [devices[id]];
        assert devices - (left - {id}) == (devices - left)[id := devices[id]];
        left := left - {id};
      }
    }

    method ListCodes() returns (list: seq<PairingCode>)
      requires Valid()
      ensures CodeMap(list) == codes
    {
      list := [];
      var left := codes.Keys;
      while left != {}
        invariant left <= codes.Keys
        invariant CodeMap(list) == codes - left
        decreases left
      {
        var c :| c in left;
        assert (list + [codes[c]])[..|list|] == list;
        list := list + [codes[c]];
        assert codes - (left - {c}) == (codes - left)[c := codes[c]];
        left := left - {c};
      }
    }

    method Generate(candidates: seq<Option<Code>>) returns (p: Pick)
      ensures p == PickCode(candidates, codes, CODE_TRIES)
      ensures forall i :: FirstFree(candidates, codes, i) ==> p == Picked(candidates[i].value)
      ensures (forall i :: !FirstFree(candidates, codes, i)) ==> p == PickFailed(RandomFailed) || p == PickFailed(NoUniqueCode)
      ensures p == PickFailed(RandomFailed) <==>
                exists i :: 0 <= i < |candidates| && i < 10 && candidates[i].None? && AllTaken(candidates, codes, i)
    {
      var i := 0;
      while i < CODE_TRIES && i < |candidates|
        invariant i <= CODE_TRIES && i <= |candidates|
        invariant AllTaken(candidates, codes, i)
        invariant PickCode(candidates, codes, CODE_TRIES) == PickCode(candidates[i..], codes, CODE_TRIES - i)
      {
        if candidates[i].None? {
          return PickFailed(RandomFailed);
        }
        if candidates[i].value !in codes {
          assert FirstFree(candidates, codes, i);
          return Picked(candidates[i].value);
        }
        assert candidates[i..][1..] == candidates[i + 1..];
        i := i + 1;
      }
      p := PickFailed(NoUniqueCode);
    }

    method CreatePairingCode(candidates: seq<Option<Code>>, hostname: string, now: int, saves: bool) returns (r: Response)
      requires Valid()
      modifies this`codes, disk
      ensures Valid() && Did(Create(candidates, hostname, now, ttl, if saves then Saves else SaveFails), r)
      ensures devices == old(devices)
      ensures forall i :: FirstFree(candidates, old(codes), i) ==>
                var pc := PairingCode(candidates[i].value, hostname, now + ttl, false);
                codes == old(codes)[candidates[i].value := pc] && r == if saves then Created(pc) else Refused(SaveFailed)
      ensures (forall i :: !FirstFree(candidates, old(codes), i)) ==>
                codes == old(codes) && r.Refused? && (r.error == RandomFailed || r.error == NoUniqueCode)
      ensures SavedIff(r.Created?, old(OnDisk()))
    {
      var p := Generate(candidates);
      if p.PickFailed? {
        return Refused(p.error);
      }
      var pc := NewCode(p.code, hostname, now, ttl);
      codes := codes[p.code := pc];
      var saved := Save(saves);
      r := if saved then Created(pc) else Refused(SaveFailed);
    }

    method ApprovePairing(code: Code, checked: int, now: int, generated: Option<(Id, Token)>, saves: bool) returns (r: Response)
      requires Valid()
      modifies this, disk
      ensures Valid() && Did(Approve(code, checked, now, generated, if saves then Saves else SaveFails), r)
      ensures var known := code in old(codes) && !old(codes)[code].used;
              var usable := known && checked <= old(codes)[code].expiresAt && generated.Some?;
              && (r.Approved? <==> usable && saves)
              && (code !in old(codes) ==> r == Refused(CodeNotFound))
              && (code in old(codes) && old(codes)[code].used ==> r == Refused(CodeUsed))
              && (known && checked > old(codes)[code].expiresAt ==> r == Refused(CodeExpired))
              && (known && checked <= old(codes)[code].expiresAt && generated.None? ==> r == Refused(RandomFailed))
              && (usable && !saves ==> r == Refused(SaveFailed))
              && (!usable ==> codes == old(codes) && devices == old(devices))
              && (usable ==>
                    var (id, token) := generated.value;
                    var d := Device(id, old(codes)[code].hostname, false, [], now, now, token);
                    && codes == old(codes)[code := old(codes)[code].(used := true)]
                    && devices == old(devices)[id := d]
                    && (saves ==> r == Approved(d, token)))
              && SavedIff(usable && saves, old(OnDisk()))
    {
      if code !in codes {
        return Refused(CodeNotFound);
      }
      var pc := codes[code];
      if pc.used {
        return Refused(CodeUsed);
      }
      if checked > pc.expiresAt {
        return Refused(CodeExpired);
      }
      if generated.None? {
        return Refused(RandomFailed);
      }
      var (id, token) := generated.value;
      var d := NewDevice(id, token, pc.hostname, now);
      codes := codes[code := pc.(used := true)];
      devices := devices[id := d];
      var saved := Save(saves);
      r := if saved then Approved(d, token) else Refused(SaveFailed);
    }

    method RejectPairing(code: Code, saves: bool) returns (r: Response)
      requires Valid()
      modifies this`codes, disk
      ensures Valid() && Did(Reject(code, if saves then Saves else SaveFails), r)
      ensures var usable := code in old(codes) && !old(codes)[code].used;
              && (r == Done <==> usable && saves)
              && (code !in old(codes) ==> r == Refused(CodeNotFound))
              && (code in old(codes) && old(codes)[code].used ==> r == Refused(CodeUsed))
              && (usable && !saves ==> r == Refused(SaveFailed))
              && devices == old(devices)
              && codes == (if usable then old(codes)[code := old(codes)[code].(used := true)] else old(codes))
              && SavedIff(usable && saves, old(OnDisk()))
    {
      if code !in codes {
        return Refused(CodeNotFound);
      }
      if codes[code].used {
        return Refused(CodeUsed);
      }
      codes := codes[code := codes[code].(used := true)];
      var saved := Save(saves);
      r := if saved then Done else Refused(SaveFailed);
    }

    /** Tries the devices in whatever order until one accepts the token. */
    method AuthenticateToken(token: Token) returns (r: Response)
      requires Valid()
      ensures r.Authenticated? ==> Accepts(Mem(), r.device.id, token) && r.device == devices[r.device.id]
      ensures !r.Authenticated? ==> r == Refused(AuthFailed) && forall id :: !Accepts(Mem(), id, token)
    {
      var left := devices.Keys;
      while left != {}
        invariant left <= devices.Keys
        invariant forall id :: id in devices && id !in left ==> devices[id].token != token
        decreases left
      {
        var id :| id in left;
        if devices[id].token == token {
          return Authenticated(devices[id]);
        }
        left := left - {id};
      }
      r := Refused(AuthFailed);
    }

    method SetDeviceOnline(id: Id, online: bool, now: int, saves: bool) returns (r: Response)
      requires Valid()
      modifies this`devices, disk
      ensures Valid() && Did(SetOnline(id, online, now, if saves then Saves else SaveFails), r)
      ensures r == if id !in old(devices) then Refused(DeviceNotFound) else if saves then Done else Refused(SaveFailed)
      ensures codes == old(codes)
      ensures id !in old(devices) ==> devices == old(devices)
      ensures id in old(devices) ==> devices == old(devices)[id := old(devices)[id].(online := online, lastSeen := now)]
      ensures SavedIff(r == Done, old(OnDisk()))
    {
      if id !in devices {
        return Refused(DeviceNotFound);
      }
      devices := devices[id := devices[id].(online := online, lastSeen := now)];
      var saved := Save(saves);
      r := if saved then Done else Refused(SaveFailed);
    }

    method SetCapabilities(id: Id, capabilities: seq<string>, saves: bool) returns (r: Response)
      requires Valid()
      modifies this`devices, disk
      ensures Valid() && Did(UpdateCapabilities(id, capabilities, if saves then Saves else SaveFails), r)
      ensures r == if id !in old(devices) then Refused(DeviceNotFound) else if saves then Done else Refused(SaveFailed)
      ensures codes == old(codes)
      ensures id !in old(devices) ==> devices == old(devices)
      ensures id in old(devices) ==> devices == old(devices)[id := old(devices)[id].(capabilities := capabilities)]
      ensures SavedIff(r == Done, old(OnDisk()))
    {
      if id !in devices {
        return Refused(DeviceNotFound);
      }
      devices := devices[id := devices[id].(capabilities := capabilities)];
      var saved := Save(saves);
      r := if saved then Done else Refused(SaveFailed);
    }

    method RevokeDevice(id: Id, saves: bool) returns (r: Response)
      requires Valid()
      modifies this`devices, disk
      ensures Valid() && Did(Revoke(id, if saves then Saves else SaveFails), r)
      ensures r == if id !in old(devices) then Refused(DeviceNotFound) else if saves then Done else Refused(SaveFailed)
      ensures codes == old(codes) && devices == old(devices) - {id}
      ensures SavedIff(r == Done, old(OnDisk()))
    {
      if id !in devices {
        return Refused(DeviceNotFound);
      }
      devices := devices - {id};
      var saved := Save(saves);
      r := if saved then Done else Refused(SaveFailed);
    }
  }
}
