/**
 * tool_tracing_callback: the phase correlator that times an API call from its
 * ENTER record to its other record, the typed extraction for five HIP
 * operations, the one-line description of the record with its arguments,
 * and the single append of that description to the call-stack vector.
 */
module Tracing {
  import opened Util
  import opened Defines
  import opened CallStack
  import opened RocprofilerHost
  import opened ArgExtraction

  /** The `__FILE__` recorded by the client's records and messages. */
  const CLIENT_FILE: string := "rocm_callback.cpp"

  /** Conversion to uint64_t: the one value in [0, 2^64) congruent to `x` modulo 2^64. */
  function ToU64(x: int): (r: nat)
    ensures r < U64_MODULUS
    ensures (x - r) % U64_MODULUS == 0
    ensures 0 <= x < U64_MODULUS ==> r == x
  {
    x % U64_MODULUS
  }

  /** The user-data word after the callback, and the elapsed time it reports. */
  datatype Correlation = Correlation(stored: nat, dt: nat)

  /**
   * ENTER stores the clock in the user-data word and reports 0; any other
   * phase leaves the word alone and reports the unsigned 64-bit difference
   * between the clock and the stored value, which wraps when the clock is
   * behind the stored value.
   */
  function Correlate(phase: nat, stored: nat, now: int): (c: Correlation)
    ensures c.dt < U64_MODULUS
    ensures phase == PHASE_ENTER ==> c.dt == 0 && c.stored == ToU64(now)
    ensures phase != PHASE_ENTER ==> c.stored == stored
    ensures phase != PHASE_ENTER && stored <= now < U64_MODULUS ==> c.dt == now - stored
    ensures phase != PHASE_ENTER && now < stored <= now + U64_MODULUS ==> c.dt == now - stored + U64_MODULUS
  {
    if phase == PHASE_ENTER then Correlation(ToU64(now), 0)
    else Correlation(stored, ToU64(now - stored))
  }

  /** An ENTER at t0 followed by an EXIT at t1 >= t0 reports t1 - t0 on the EXIT. */
  lemma EnterExitElapsed(initial: nat, t0: int, t1: int)
    requires 0 <= t0 <= t1 < U64_MODULUS
    ensures Correlate(PHASE_EXIT, Correlate(PHASE_ENTER, initial, t0).stored, t1).dt == t1 - t0
  {
  }

  /** An EXIT that arrives with no ENTER before it, while the word still holds its initial 0, reports the clock itself. */
  lemma ExitWithoutEnter(stored: nat, now: int)
    requires stored == 0 && 0 <= now < U64_MODULUS
    ensures Correlate(PHASE_EXIT, stored, now).dt == now
  {
  }

  /**
   * The fixed part of the description: thread, correlation id (width 3),
   * kind, operation (width 3), phase and elapsed time (width 6), all
   * left-justified.
   */
  const TID_LABEL: string := "tid="
  const CID_LABEL: string := ", cid="
  const KIND_LABEL: string := ", kind="
  const OPERATION_LABEL: string := ", operation="
  const PHASE_LABEL: string := ", phase="
  const DT_LABEL: string := ", dt_nsec="

  function InfoHeader(record: CallbackRecord, dt: nat): string {
    TID_LABEL + NatToString(record.threadId)
      + CID_LABEL + PadRight(NatToString(record.correlationId), 3)
      + KIND_LABEL + NatToString(record.kind)
      + OPERATION_LABEL + PadRight(NatToString(record.operation), 3)
      + PHASE_LABEL + NatToString(record.phase)
      + DT_LABEL + PadRight(NatToString(dt), 6)
  }

  /** The header from a given field on, for reading it back field by field. */
  function CidOnward(record: CallbackRecord, dt: nat): string {
    CID_LABEL + (PadRight(NatToString(record.correlationId), 3) + KindOnward(record, dt))
  }

  function KindOnward(record: CallbackRecord, dt: nat): string {
    KIND_LABEL + (NatToString(record.kind) + OperationOnward(record, dt))
  }

  function OperationOnward(record: CallbackRecord, dt: nat): string {
    OPERATION_LABEL + (PadRight(NatToString(record.operation), 3) + PhaseOnward(record.phase, dt))
  }

  function PhaseOnward(phase: nat, dt: nat): string {
    PHASE_LABEL + (NatToString(phase) + DtField(dt))
  }

  function DtField(dt: nat): string {
    DT_LABEL + PadRight(NatToString(dt), 6)
  }

  /** The header regrouped as its first field followed by the rest. */
  lemma InfoHeaderSplit(record: CallbackRecord, dt: nat)
    ensures InfoHeader(record, dt) == TID_LABEL + (NatToString(record.threadId) + CidOnward(record, dt))
  {
    var n1, p2, n3 := NatToString(record.threadId), PadRight(NatToString(record.correlationId), 3), NatToString(record.kind);
    var p4, n5, p6 := PadRight(NatToString(record.operation), 3), NatToString(record.phase), PadRight(NatToString(dt), 6);
    var g2 := TID_LABEL + n1;
    var g3 := g2 + CID_LABEL + p2;
    var g4 := g3 + KIND_LABEL + n3;
    var g5 := g4 + OPERATION_LABEL + p4;
    RegroupField(g5 + PHASE_LABEL, n5, DT_LABEL, p6);
    RegroupField(g5, PHASE_LABEL, n5, DtField(dt));
    RegroupField(g4, OPERATION_LABEL, p4, PhaseOnward(record.phase, dt));
    RegroupField(g3, KIND_LABEL, n3, OperationOnward(record, dt));
    RegroupField(g2, CID_LABEL, p2, KindOnward(record, dt));
    AppendAssoc(TID_LABEL, n1, CidOnward(record, dt));
  }

  /** The header opens with the thread id and closes with the elapsed time, left-justified to width 6. */
  lemma InfoHeaderLayout(record: CallbackRecord, dt: nat)
    ensures StartsWith(InfoHeader(record, dt), TID_LABEL + NatToString(record.threadId) + CID_LABEL)
    ensures EndsWith(InfoHeader(record, dt), DT_LABEL + PadRight(NatToString(dt), 6))
  {
    InfoHeaderOpens(record, dt);
    InfoHeaderCloses(record, dt);
  }

  lemma InfoHeaderOpens(record: CallbackRecord, dt: nat)
    ensures StartsWith(InfoHeader(record, dt), TID_LABEL + NatToString(record.threadId) + CID_LABEL)
  {
    var n1, p2 := NatToString(record.threadId), PadRight(NatToString(record.correlationId), 3);
    InfoHeaderSplit(record, dt);
    RegroupField([], TID_LABEL, n1, CidOnward(record, dt));
    RegroupField(TID_LABEL + n1, CID_LABEL, p2, KindOnward(record, dt));
    StartsWithConcat(TID_LABEL + n1 + CID_LABEL, p2 + KindOnward(record, dt));
  }

  lemma InfoHeaderCloses(record: CallbackRecord, dt: nat)
    ensures EndsWith(InfoHeader(record, dt), DT_LABEL + PadRight(NatToString(dt), 6))
  {
    var h := TID_LABEL + NatToString(record.threadId) + CID_LABEL + PadRight(NatToString(record.correlationId), 3)
      + KIND_LABEL + NatToString(record.kind) + OPERATION_LABEL
      + PadRight(NatToString(record.operation), 3) + PHASE_LABEL + NatToString(record.phase);
    AppendAssoc(h, DT_LABEL, PadRight(NatToString(dt), 6));
    EndsWithConcat(h, DT_LABEL + PadRight(NatToString(dt), 6));
  }

  /** Two records described with the same header agree on every field the header shows. */
  lemma InfoHeaderInjective(r1: CallbackRecord, dt1: nat, r2: CallbackRecord, dt2: nat)
    requires InfoHeader(r1, dt1) == InfoHeader(r2, dt2)
    ensures r1.threadId == r2.threadId && r1.correlationId == r2.correlationId
    ensures r1.kind == r2.kind && r1.operation == r2.operation && r1.phase == r2.phase
    ensures dt1 == dt2
  {
    InfoHeaderSplit(r1, dt1);
    InfoHeaderSplit(r2, dt2);
    assert CidOnward(r1, dt1)[0] == ',' && CidOnward(r2, dt2)[0] == ',';
    LabelledNatUnique(TID_LABEL, r1.threadId, r2.threadId, CidOnward(r1, dt1), CidOnward(r2, dt2));
    CidOnwardInjective(r1, dt1, r2, dt2);
  }

  lemma CidOnwardInjective(r1: CallbackRecord, dt1: nat, r2: CallbackRecord, dt2: nat)
    requires CidOnward(r1, dt1) == CidOnward(r2, dt2)
    ensures r1.correlationId == r2.correlationId
    ensures r1.kind == r2.kind && r1.operation == r2.operation && r1.phase == r2.phase
    ensures dt1 == dt2
  {
    assert KindOnward(r1, dt1)[0] == ',' && KindOnward(r2, dt2)[0] == ',';
    LabelledPaddedUnique(CID_LABEL, r1.correlationId, r2.correlationId, 3, KindOnward(r1, dt1), KindOnward(r2, dt2));
    KindOnwardInjective(r1, dt1, r2, dt2);
  }

  lemma KindOnwardInjective(r1: CallbackRecord, dt1: nat, r2: CallbackRecord, dt2: nat)
    requires KindOnward(r1, dt1) == KindOnward(r2, dt2)
    ensures r1.kind == r2.kind && r1.operation == r2.operation && r1.phase == r2.phase
    ensures dt1 == dt2
  {
    assert OperationOnward(r1, dt1)[0] == ',' && OperationOnward(r2, dt2)[0] == ',';
    LabelledNatUnique(KIND_LABEL, r1.kind, r2.kind, OperationOnward(r1, dt1), OperationOnward(r2, dt2));
    OperationOnwardInjective(r1, dt1, r2, dt2);
  }

  lemma OperationOnwardInjective(r1: CallbackRecord, dt1: nat, r2: CallbackRecord, dt2: nat)
    requires OperationOnward(r1, dt1) == OperationOnward(r2, dt2)
    ensures r1.operation == r2.operation && r1.phase == r2.phase
    ensures dt1 == dt2
  {
    assert PhaseOnward(r1.phase, dt1)[0] == ',' && PhaseOnward(r2.phase, dt2)[0] == ',';
    LabelledPaddedUnique(OPERATION_LABEL, r1.operation, r2.operation, 3,
                         PhaseOnward(r1.phase, dt1), PhaseOnward(r2.phase, dt2));
    PhaseOnwardInjective(r1.phase, dt1, r2.phase, dt2);
  }

  lemma PhaseOnwardInjective(ph1: nat, dt1: nat, ph2: nat, dt2: nat)
    requires PhaseOnward(ph1, dt1) == PhaseOnward(ph2, dt2)
    ensures ph1 == ph2 && dt1 == dt2
  {
    assert DtField(dt1)[0] == ',' && DtField(dt2)[0] == ',';
    LabelledNatUnique(PHASE_LABEL, ph1, ph2, DtField(dt1), DtField(dt2));
    assert DtField(dt1) == DT_LABEL + (PadRight(NatToString(dt1), 6) + []);
    assert DtField(dt2) == DT_LABEL + (PadRight(NatToString(dt2), 6) + []);
    LabelledPaddedUnique(DT_LABEL, dt1, dt2, 6, [], []);
  }

  /** What the visitor writes for one argument: "(" before argument 0, ", " before any other. */
  function ArgPiece(v: ArgView): string {
    Separator(v.argNum) + (NatToString(v.argNum) + ": " + v.name + ("=" + v.valueStr))
  }

  /** A piece opens with its separator and ends with "=" and the value's rendering. */
  lemma ArgPieceShape(v: ArgView)
    ensures StartsWith(ArgPiece(v), Separator(v.argNum))
    ensures EndsWith(ArgPiece(v), "=" + v.valueStr)
  {
    var body := NatToString(v.argNum) + ": " + v.name;
    StartsWithConcat(Separator(v.argNum), body + ("=" + v.valueStr));
    EndsWithConcat(Separator(v.argNum) + body, "=" + v.valueStr);
    assert ArgPiece(v) == (Separator(v.argNum) + body) + ("=" + v.valueStr);
  }

  function Separator(argNum: nat): string {
    if argNum == 0 then "(" else ", "
  }

  /** The argument string: the visitor's pieces in stream order. */
  function ArgString(views: seq<ArgView>): (s: string)
    ensures s == "" <==> views == []
  {
    ConcatMap(views, ArgPiece)
  }

  /** Walking two runs of arguments writes the first run's string, then the second's. */
  lemma ArgStringConcat(a: seq<ArgView>, b: seq<ArgView>)
    ensures ArgString(a + b) == ArgString(a) + ArgString(b)
  {
    ConcatMapAppend(a, b, ArgPiece);
  }

  /** The argument string opens with the first argument's piece, so with "(" when that is argument 0. */
  lemma ArgStringOpens(views: seq<ArgView>)
    requires views != []
    ensures StartsWith(ArgString(views), ArgPiece(views[0]))
    ensures views[0].argNum == 0 ==> StartsWith(ArgString(views), "(")
  {
    assert views == [views[0]] + views[1..];
    ArgStringConcat([views[0]], views[1..]);
    assert [views[0]][..0] == [];
    assert ConcatMap([views[0]], ArgPiece) == ConcatMap([], ArgPiece) + ArgPiece(views[0]);
    StartsWithConcat(ArgPiece(views[0]), ArgString(views[1..]));
    ArgPieceShape(views[0]);
    assert ArgPiece(views[0])[..|Separator(views[0].argNum)|] == Separator(views[0].argNum);
  }

  /** The description: the header, and " <args>)" only when the argument string is not empty. */
  function InfoLine(header: string, args: string): (line: string)
    ensures StartsWith(line, header)
    ensures |line| == if args == "" then |header| else |header| + |args| + 2
    ensures args != "" ==> EndsWith(line, " " + args + ")")
  {
    if args != "" then
      StartsWithConcat(header, " " + args + ")");
      EndsWithConcat(header, " " + args + ")");
      header + (" " + args + ")")
    else header
  }

  /** Argument values are rendered one pointer level deep on ENTER and two levels deep otherwise. */
  function MaxDeref(phase: nat): (d: int)
    ensures d == 1 <==> phase == PHASE_ENTER
    ensures d == 1 || d == 2
  {
    if phase == PHASE_ENTER then 1 else 2
  }

  /** The record the callback appends for `record` when the elapsed time is `dt`. */
  function TracingEntry(record: CallbackRecord, dt: nat): SourceLocation {
    SourceLocation("tool_tracing_callback", CLIENT_FILE, 321,
      InfoLine(InfoHeader(record, dt), ArgString(ArgsAt(record.args, MaxDeref(record.phase)))))
  }

  /** The argument walk that builds the argument string, one visitor call per argument. */
  method BuildArgString(views: seq<ArgView>) returns (s: string)
    ensures s == ArgString(views)
  {
    s := "";
    var i := 0;
    while i < |views|
      invariant 0 <= i <= |views|
      invariant s == ArgString(views[..i])
    {
      assert views[..i + 1][..i] == views[..i];
      s := s + ArgPiece(views[i]);
      i := i + 1;
    }
    assert views[..|views|] == views;
  }

  /** What a typed visitor leaves behind: the operation and its filled slots. */
  datatype Extraction = Extraction(op: HipOp, slots: map<string, ArgValue>)

  /** The message a refused typed walk is reported with. */
  function TypedWalkFailure(o: HipOp): string {
    "failed to iterate " + HipOpName(o) + " arguments"
  }

  /** The message a refused description walk is reported with. */
  const INFO_WALK_FAILURE: string := "Failure iterating trace operation args"

  /** The line of the ROCPROFILER_CALL around each typed walk. */
  function HipWalkLine(o: HipOp): nat {
    match o
    case HipMalloc => 123
    case HipFree => 150
    case HipMemcpy => 188
    case HipMemset => 226
    case HipLaunchKernel => 271
  }

  /** The typed walk's argument list, as the macro stringifies it. */
  function HipWalkExpr(o: HipOp): string {
    "rocprofiler_iterate_callback_tracing_kind_operation_args(record, cb, 1, "
      + (if o == HipFree then "&ptr" else "&out") + ")"
  }

  const INFO_WALK_EXPR: string :=
    "rocprofiler_iterate_callback_tracing_kind_operation_args( record, info_data_cb, max_deref, static_cast<void*>(&info_data))"

  /** How many argument walks the callback makes for a record: the typed one, if any, and the description's. */
  function WalkCount(record: CallbackRecord): nat {
    if Dispatch(record.kind, record.operation).Some? then 2 else 1
  }

  /**
   * tool_tracing_callback. The user-data word is updated first, whatever
   * happens next. A HIP runtime record of one of the five operations is then
   * walked at depth 1 into its slots; every record is walked at the depth its
   * phase calls for to build the description, and the description is
   * appended to the vector as exactly one record. The first refused walk
   * raises, and then nothing is appended: a refused typed walk stops the
   * callback before the description walk, and the description walk can be
   * refused after the typed walk was accepted.
   */
  method TracingCallback(host: Host, record: CallbackRecord, userData: UserData, stack: CallStackVec, now: int)
    returns (r: Outcome, extracted: Option<Extraction>)
    requires host.Valid()
    modifies host, userData, stack
    ensures host.Valid() && host.contexts == old(host.contexts)
    ensures userData.value == Correlate(record.phase, old(userData.value), now).stored
    ensures StopsAtFirstRefusal(host.refused, old(host.calls), host.calls, r.Pass?)
    ensures host.calls <= old(host.calls) + WalkCount(record)
    ensures r.Pass? ==> host.calls == old(host.calls) + WalkCount(record)
    ensures r.Pass? ==>
      stack.records == old(stack.records) + [TracingEntry(record, Correlate(record.phase, old(userData.value), now).dt)]
    ensures r.Fail? ==> stack.records == old(stack.records)
    ensures r.Fail? && host.calls < old(host.calls) + WalkCount(record) ==>
      EndsWith(r.message, CallSuffix(TypedWalkFailure(Dispatch(record.kind, record.operation).value), host.errorStatus))
    ensures r.Fail? && host.calls == old(host.calls) + WalkCount(record) ==>
      EndsWith(r.message, CallSuffix(INFO_WALK_FAILURE, host.errorStatus))
    ensures extracted.Some? <==> r.Pass? && Dispatch(record.kind, record.operation).Some?
    ensures extracted.Some? ==>
      var o := Dispatch(record.kind, record.operation).value;
      extracted.value == Extraction(o, Extract(InitialSlots(o), ArgsAt(record.args, 1)))
  {
    var dt := UpdateUserData(record.phase, userData, now);
    r, extracted := TraceRecord(host, record, dt, stack);
  }

  /** The part of the callback after the user-data update: the walks and the append, for elapsed time `dt`. */
  method TraceRecord(host: Host, record: CallbackRecord, dt: nat, stack: CallStackVec)
    returns (r: Outcome, extracted: Option<Extraction>)
    requires host.Valid()
    modifies host, stack
    ensures host.Valid() && host.contexts == old(host.contexts)
    ensures StopsAtFirstRefusal(host.refused, old(host.calls), host.calls, r.Pass?)
    ensures host.calls <= old(host.calls) + WalkCount(record)
    ensures r.Pass? ==> host.calls == old(host.calls) + WalkCount(record)
    ensures r.Pass? ==> stack.records == old(stack.records) + [TracingEntry(record, dt)]
    ensures r.Fail? ==> stack.records == old(stack.records)
    ensures r.Fail? && host.calls < old(host.calls) + WalkCount(record) ==>
      EndsWith(r.message, CallSuffix(TypedWalkFailure(Dispatch(record.kind, record.operation).value), host.errorStatus))
    ensures r.Fail? && host.calls == old(host.calls) + WalkCount(record) ==>
      EndsWith(r.message, CallSuffix(INFO_WALK_FAILURE, host.errorStatus))
    ensures extracted.Some? <==> r.Pass? && Dispatch(record.kind, record.operation).Some?
    ensures extracted.Some? ==>
      var o := Dispatch(record.kind, record.operation).value;
      extracted.value == Extraction(o, Extract(InitialSlots(o), ArgsAt(record.args, 1)))
  {
    var op := Dispatch(record.kind, record.operation);
    if op.Some? {
      r, extracted := TypedThenDescribe(host, record, op.value, dt, stack);
    } else {
      r := Describe(host, record, dt, stack);
      extracted := None;
    }
  }

  /** The two walks of a HIP runtime record of a visited operation: the typed walk, then the description. */
  method TypedThenDescribe(host: Host, record: CallbackRecord, o: HipOp, dt: nat, stack: CallStackVec)
    returns (r: Outcome, extracted: Option<Extraction>)
    requires host.Valid()
    modifies host, stack
    ensures host.Valid() && host.contexts == old(host.contexts)
    ensures StopsAtFirstRefusal(host.refused, old(host.calls), host.calls, r.Pass?)
    ensures host.calls <= old(host.calls) + 2 && (r.Pass? ==> host.calls == old(host.calls) + 2)
    ensures r.Pass? ==> stack.records == old(stack.records) + [TracingEntry(record, dt)]
    ensures r.Fail? ==> stack.records == old(stack.records)
    ensures r.Fail? && host.calls == old(host.calls) + 1 ==> EndsWith(r.message, CallSuffix(TypedWalkFailure(o), host.errorStatus))
    ensures r.Fail? && host.calls == old(host.calls) + 2 ==> EndsWith(r.message, CallSuffix(INFO_WALK_FAILURE, host.errorStatus))
    ensures extracted.Some? <==> r.Pass?
    ensures extracted.Some? ==> extracted.value == Extraction(o, Extract(InitialSlots(o), ArgsAt(record.args, 1)))
  {
    var slots;
    extracted := None;
    r, slots := TypedWalk(host, record, o);
    if r.Fail? {
      return;
    }
    r := Describe(host, record, dt, stack);
    if r.Pass? {
      extracted := Some(Extraction(o, slots));
    }
  }

  /** The start of the callback: ENTER stores the clock in the user-data word, any other phase measures from it. */
  method UpdateUserData(phase: nat, userData: UserData, now: int) returns (dt: nat)
    modifies userData
    ensures userData.value == Correlate(phase, old(userData.value), now).stored
    ensures dt == Correlate(phase, old(userData.value), now).dt
  {
    dt := 0;
    if phase == PHASE_ENTER {
      userData.value := ToU64(now);
    } else {
      dt := ToU64(now - userData.value);
    }
  }

  /** The typed walk of a HIP runtime record at depth 1, filling the operation's slots. */
  method TypedWalk(host: Host, record: CallbackRecord, o: HipOp) returns (r: Outcome, slots: map<string, ArgValue>)
    requires host.Valid()
    modifies host
    ensures host.Valid() && host.contexts == old(host.contexts) && host.calls == old(host.calls) + 1
    ensures r.Pass? <==> host.Accepts(old(host.calls))
    ensures r.Pass? ==> slots == Extract(InitialSlots(o), ArgsAt(record.args, 1))
    ensures r.Fail? ==> EndsWith(r.message, CallSuffix(TypedWalkFailure(o), host.errorStatus))
  {
    var st, views := host.IterateArgs(record, 1);
    r := Call(st, HipWalkExpr(o), Site(CLIENT_FILE, HipWalkLine(o)), TypedWalkFailure(o));
    slots := map[];
    if r.Pass? {
      slots := ExtractArgs(o, views);
    }
  }

  /** The description walk at the phase's depth, and the one record it appends. */
  method Describe(host: Host, record: CallbackRecord, dt: nat, stack: CallStackVec) returns (r: Outcome)
    requires host.Valid()
    modifies host, stack
    ensures host.Valid() && host.contexts == old(host.contexts) && host.calls == old(host.calls) + 1
    ensures r.Pass? <==> host.Accepts(old(host.calls))
    ensures r.Pass? ==> stack.records == old(stack.records) + [TracingEntry(record, dt)]
    ensures r.Fail? ==> stack.records == old(stack.records)
    ensures r.Fail? ==> EndsWith(r.message, CallSuffix(INFO_WALK_FAILURE, host.errorStatus))
  {
    var header := InfoHeader(record, dt);
    var maxDeref := MaxDeref(record.phase);
    var st, views := host.IterateArgs(record, maxDeref);
    r := Call(st, INFO_WALK_EXPR, Site(CLIENT_FILE, 311), INFO_WALK_FAILURE);
    if r.Fail? {
      return;
    }
    var args := BuildArgString(views);
    stack.Append(SourceLocation("tool_tracing_callback", CLIENT_FILE, 321, InfoLine(header, args)));
  }
}
