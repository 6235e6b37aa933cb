/**
 * The client's session: rocprofiler_configure (client name, version banner
 * and check, configuration data made once), tool_init (name-table records,
 * the primary context with its seven tracing kinds, the control context,
 * the validity check), tool_fini (last record and the report), and the
 * start, stop and shutdown entry points. The globals client_id,
 * client_fini_func and client_ctx and the static configuration result are
 * the fields of one Session object.
 */
module ClientSession {
  import opened Util
  import opened Defines
  import opened CallStack
  import opened RocprofilerHost
  import opened Tracing
  import opened ControlGate

  /** rocprofiler_client_id_t: the identity record the host hands the client to fill in. */
  class ClientId {
    var name: string

    constructor (name: string)
      ensures this.name == name
    {
      this.name := name;
    }
  }

  /** A rocprofiler_client_finalize_t: a handle on the host's finalizer for this client. */
  type FiniFunc = nat

  /**
   * rocprofiler_tool_configure_result_t: its size and the tool_init and
   * tool_fini pointers are fixed; the tool data is the call-stack vector.
   */
  datatype ConfigResult = ConfigResult(toolData: CallStackVec)

  /** What shutdown does. */
  datatype ShutdownAction =
    | NoFinalize                   // rocprofiler_configure never ran
    | Finalize(fini: FiniFunc)     // the host's finalizer is called on the client id
    | NullFinalize                 // a null finalizer is called: tool_init never ran

  const CLIENT_NAME: string := "ExampleTool"

  /** The report's default output name. */
  const REPORT_NAME: string := "api_callback_trace.log"

  /** The HSA kinds tool_init's loop configures on the primary context, in loop order. */
  const HSA_KINDS: seq<nat> := [KIND_HSA_CORE_API, KIND_HSA_AMD_EXT_API, KIND_HSA_IMAGE_EXT_API, KIND_HSA_FINALIZE_EXT_API]

  /** Every kind tool_init configures on the primary context, in the order it configures them. */
  const TRACED_KINDS: seq<nat> := HSA_KINDS + [KIND_HIP_RUNTIME_API, KIND_MARKER_CORE_API, KIND_MARKER_NAME_API]

  /** The tracing callback, with the call-stack vector as its data, configured for each of `kinds` in turn. */
  function ServicesFor(kinds: seq<nat>, stack: CallStackVec): map<nat, Callback> {
    if kinds == [] then map[]
    else ServicesFor(kinds[..|kinds| - 1], stack)[kinds[|kinds| - 1] := ToolTracing(stack)]
  }

  /** Configuring `kinds` in turn hands exactly those kinds, and only those, to the tracing callback. */
  lemma {:induction false} ServicesForDomain(kinds: seq<nat>, stack: CallStackVec)
    ensures forall k :: k in ServicesFor(kinds, stack) <==> k in kinds
    ensures forall k :: k in ServicesFor(kinds, stack) ==> ServicesFor(kinds, stack)[k] == ToolTracing(stack)
  {
    if kinds != [] {
      var init := kinds[..|kinds| - 1];
      ServicesForDomain(init, stack);
      assert kinds == init + [kinds[|kinds| - 1]];
    }
  }

  /** Configuring one more kind of a list adds that kind to what the earlier ones configured. */
  lemma ServicesForStep(kinds: seq<nat>, i: nat, stack: CallStackVec)
    requires i < |kinds|
    ensures ServicesFor(kinds[..i + 1], stack) == ServicesFor(kinds[..i], stack)[kinds[i] := ToolTracing(stack)]
  {
    assert kinds[..i + 1][..i] == kinds[..i];
  }

  /** The seven traced kinds are distinct, so none of them is configured before its own turn. */
  lemma TracedKindFresh(i: nat, stack: CallStackVec)
    requires i < |TRACED_KINDS|
    ensures TRACED_KINDS[i] !in ServicesFor(TRACED_KINDS[..i], stack)
  {
    ServicesForDomain(TRACED_KINDS[..i], stack);
    assert TRACED_KINDS == [1, 2, 3, 4, 5, 7, 9];
  }

  /**
   * The primary context is configured for exactly seven kinds, the four HSA
   * kinds, HIP runtime, marker core and marker name, and not for the
   * marker-control kind the gate context owns, so the two contexts never
   * hand the same kind to different callbacks.
   */
  lemma PrimaryKindsDisjointFromControl(stack: CallStackVec, primary: ContextId)
    ensures PrimaryServices(stack).Keys == {1, 2, 3, 4, 5, 7, 9}
    ensures forall k :: k in PrimaryServices(stack) ==> PrimaryServices(stack)[k] == ToolTracing(stack)
    ensures KIND_MARKER_CONTROL_API !in PrimaryServices(stack)
    ensures PrimaryServices(stack).Keys !! ControlContext(primary).services.Keys
  {
    ServicesForDomain(TRACED_KINDS, stack);
    assert TRACED_KINDS == [1, 2, 3, 4, 5, 7, 9];
  }

  /** The primary context's services: the HSA kinds in turn, then HIP runtime, marker core and marker name. */
  function PrimaryServices(stack: CallStackVec): map<nat, Callback> {
    ServicesFor(TRACED_KINDS, stack)
  }

  /** " [" and the number right-justified to width 3 and "]", as the name-table records carry it. */
  function IndexTag(n: nat): string {
    " [" + PadLeft(NatToString(n), 3) + "]"
  }

  /** Two index tags are equal only for equal indices. */
  lemma IndexTagInjective(m: nat, n: nat)
    requires IndexTag(m) == IndexTag(n)
    ensures m == n
  {
    var pm, pn := PadLeft(NatToString(m), 3), PadLeft(NatToString(n), 3);
    AppendAssoc(" [", pm, "]");
    AppendAssoc(" [", pn, "]");
    DropCommonPrefix(" [", pm + "]", pn + "]");
    DropCommonSuffix(pm, pn, "]");
    PadLeftInjective(m, n, 3);
  }

  /** The function-field texts of the name-table records; the first is blank-padded to the second's length. */
  const KIND_NAMES_FUNCTION: string := "rocprofiler_callback_tracing_kind_names          "
  const OPERATION_NAMES_FUNCTION: string := "rocprofiler_callback_tracing_kind_operation_names"

  /** The record for one kind of the name table: its value in the function field, its name as context. */
  function KindEntry(k: KindNames): SourceLocation {
    SourceLocation(KIND_NAMES_FUNCTION + IndexTag(k.value), CLIENT_FILE, 367, k.name)
  }

  /** The record for one operation of a kind: its index in the function field, "- " and its name as context. */
  function OperationEntry(o: OperationName): SourceLocation {
    SourceLocation(OPERATION_NAMES_FUNCTION + IndexTag(o.index), CLIENT_FILE, 377, "- " + o.name)
  }

  /** A kind's record gives back the kind's value and name. */
  lemma KindEntryInjective(k1: KindNames, k2: KindNames)
    requires KindEntry(k1) == KindEntry(k2)
    ensures k1.value == k2.value && k1.name == k2.name
  {
    DropCommonPrefix(KIND_NAMES_FUNCTION, IndexTag(k1.value), IndexTag(k2.value));
    IndexTagInjective(k1.value, k2.value);
  }

  /** An operation's record gives back the operation's index and name. */
  lemma OperationEntryInjective(o1: OperationName, o2: OperationName)
    requires OperationEntry(o1) == OperationEntry(o2)
    ensures o1 == o2
  {
    DropCommonPrefix(OPERATION_NAMES_FUNCTION, IndexTag(o1.index), IndexTag(o2.index));
    IndexTagInjective(o1.index, o2.index);
    DropCommonPrefix("- ", o1.name, o2.name);
  }

  function OperationEntries(ops: seq<OperationName>): (r: seq<SourceLocation>)
    ensures |r| == |ops|
  {
    if ops == [] then [] else OperationEntries(ops[..|ops| - 1]) + [OperationEntry(ops[|ops| - 1])]
  }

  /** A kind's records: the kind, then each of its operations in table order. */
  function KindBlock(k: KindNames): seq<SourceLocation> {
    [KindEntry(k)] + OperationEntries(k.operations)
  }

  /** The records tool_init makes for the name tables, kind by kind. */
  function NameEntries(names: seq<KindNames>): seq<SourceLocation> {
    if names == [] then [] else NameEntries(names[..|names| - 1]) + KindBlock(names[|names| - 1])
  }

  /** One record per kind plus one per operation. */
  function EntryCount(names: seq<KindNames>): nat {
    if names == [] then 0 else EntryCount(names[..|names| - 1]) + 1 + |names[|names| - 1].operations|
  }

  lemma {:induction false} NameEntriesCount(names: seq<KindNames>)
    ensures |NameEntries(names)| == EntryCount(names)
  {
    if names != [] {
      NameEntriesCount(names[..|names| - 1]);
    }
  }

  /** Operation `j` of a kind is recorded as entry `j` after the kind's own record. */
  lemma {:induction false} OperationEntryAt(ops: seq<OperationName>, j: nat)
    requires j < |ops|
    ensures OperationEntries(ops)[j] == OperationEntry(ops[j])
  {
    if j < |ops| - 1 {
      OperationEntryAt(ops[..|ops| - 1], j);
    }
  }

  /** The first record of tool_init, made before anything else. */
  const INIT_ENTRY: SourceLocation := SourceLocation("tool_init", CLIENT_FILE, 356, "")
  /** The record tool_fini adds before the report. */
  const FINI_ENTRY: SourceLocation := SourceLocation("tool_fini", CLIENT_FILE, 449, "")

  lemma NameEntriesStep(names: seq<KindNames>, i: nat)
    requires i < |names|
    ensures NameEntries(names[..i + 1]) == NameEntries(names[..i]) + KindBlock(names[i])
  {
    assert names[..i + 1][..i] == names[..i];
  }

  lemma OperationEntriesStep(ops: seq<OperationName>, j: nat)
    requires j < |ops|
    ensures OperationEntries(ops[..j + 1]) == OperationEntries(ops[..j]) + [OperationEntry(ops[j])]
  {
    assert ops[..j + 1][..j] == ops[..j];
  }

  /** The outer loop of tool_init over the name tables: one block of records per kind. */
  method RecordNames(names: seq<KindNames>, stack: CallStackVec)
    modifies stack
    ensures stack.records == old(stack.records) + NameEntries(names)
  {
    var i := 0;
    while i < |names|
      invariant 0 <= i <= |names|
      invariant stack.records == old(stack.records) + NameEntries(names[..i])
    {
      NameEntriesStep(names, i);
      AppendAssoc(old(stack.records), NameEntries(names[..i]), KindBlock(names[i]));
      RecordKind(names[i], stack);
      i := i + 1;
    }
    assert names[..|names|] == names;
  }

  /** The body of that loop: the kind's record, then the inner loop over its operations. */
  method RecordKind(k: KindNames, stack: CallStackVec)
    modifies stack
    ensures stack.records == old(stack.records) + KindBlock(k)
  {
    stack.Append(KindEntry(k));
    var j := 0;
    while j < |k.operations|
      invariant 0 <= j <= |k.operations|
      invariant stack.records == old(stack.records) + ([KindEntry(k)] + OperationEntries(k.operations[..j]))
    {
      OperationEntriesStep(k.operations, j);
      AppendAssoc(old(stack.records), [KindEntry(k)], OperationEntries(k.operations[..j]));
      AppendAssoc([KindEntry(k)], OperationEntries(k.operations[..j]), [OperationEntry(k.operations[j])]);
      AppendAssoc(old(stack.records), [KindEntry(k)] + OperationEntries(k.operations[..j]), [OperationEntry(k.operations[j])]);
      stack.Append(OperationEntry(k.operations[j]));
      j := j + 1;
    }
    assert k.operations[..|k.operations|] == k.operations;
  }

  const CONFIGURE_HSA_EXPR: string :=
    "rocprofiler_configure_callback_tracing_service( client_ctx, itr, nullptr, 0, tool_tracing_callback, tool_data)"
  const CONFIGURE_HIP_EXPR: string :=
    "rocprofiler_configure_callback_tracing_service(client_ctx, ROCPROFILER_CALLBACK_TRACING_HIP_RUNTIME_API, nullptr, 0, tool_tracing_callback, tool_data)"
  const CONFIGURE_MARKER_CORE_EXPR: string :=
    "rocprofiler_configure_callback_tracing_service(client_ctx, ROCPROFILER_CALLBACK_TRACING_MARKER_CORE_API, nullptr, 0, tool_tracing_callback, tool_data)"
  const CONFIGURE_MARKER_NAME_EXPR: string :=
    "rocprofiler_configure_callback_tracing_service(client_ctx, ROCPROFILER_CALLBACK_TRACING_MARKER_NAME_API, nullptr, 0, tool_tracing_callback, tool_data)"
  const CONFIGURE_FAILED: string := "callback tracing service failed to configure"

  /** The other ROCPROFILER_CALLs of the session, as the macro stringifies them, and their messages. */
  const CREATE_CLIENT_EXPR: string := "rocprofiler_create_context(&client_ctx)"
  const CREATE_FAILED: string := "context creation failed"
  const VALIDITY_EXPR: string := "rocprofiler_context_is_valid(client_ctx, &valid_ctx)"
  const VALIDITY_FAILED: string := "failure checking context validity"
  const START_EXPR: string := "rocprofiler_start_context(client_ctx)"
  const START_FAILED: string := "rocprofiler context start failed"
  const IS_INITIALIZED_EXPR: string := "rocprofiler_is_initialized(&status)"
  const IS_INITIALIZED_FAILED: string := "failed to retrieve init status"
  const STOP_EXPR: string := "rocprofiler_stop_context(client_ctx)"
  const STOP_FAILED: string := "rocprofiler context stop failed"
  const GET_VERSION_EXPR: string := "rocprofiler_get_version(&version_info.at(0), &version_info.at(1), &version_info.at(2))"
  const GET_VERSION_FAILED: string := "failed to get version info"
  const VERSION_MISMATCH: string := "version info mismatch"

  /** The primary context's services once the first `n` of its kinds are configured. */
  function ServicesUpTo(n: nat, stack: CallStackVec): map<nat, Callback> {
    ServicesFor(TRACED_KINDS[..if n < |TRACED_KINDS| then n else |TRACED_KINDS|], stack)
  }

  /** The primary context with the services of its first `n` kinds and the given active flag. */
  function WithServicesUpTo(contexts: map<ContextId, Context>, ctx: ContextId, n: nat, stack: CallStackVec): map<ContextId, Context>
    requires ctx in contexts
  {
    contexts[ctx := contexts[ctx].(services := ServicesUpTo(n, stack))]
  }

  /**
   * One ROCPROFILER_CALL around rocprofiler_configure_callback_tracing_service
   * in tool_init: every operation of the `i`-th traced kind goes to the
   * tracing callback with the call-stack vector as its data.
   */
  method ConfigureTracing(host: Host, ctx: ContextId, i: nat, stack: CallStackVec, expr: string, line: nat)
    returns (r: Outcome)
    requires host.Valid() && ctx in host.contexts && i < |TRACED_KINDS|
    requires host.contexts[ctx].services == ServicesUpTo(i, stack)
    modifies host
    ensures host.Valid() && host.calls == old(host.calls) + 1
    ensures r.Pass? <==> host.Accepts(old(host.calls))
    ensures r.Pass? ==> host.contexts == WithServicesUpTo(old(host.contexts), ctx, i + 1, stack)
    ensures r.Fail? ==> host.contexts == old(host.contexts)
    ensures r.Fail? ==> EndsWith(r.message, CallSuffix(CONFIGURE_FAILED, host.errorStatus))
  {
    TracedKindFresh(i, stack);
    ServicesForStep(TRACED_KINDS, i, stack);
    var st := host.ConfigureService(ctx, TRACED_KINDS[i], ToolTracing(stack));
    r := Call(st, expr, Site(CLIENT_FILE, line), CONFIGURE_FAILED);
  }

  /**
   * The loop of tool_init over the four HSA kinds. The first refusal raises
   * and ends the loop; the kinds configured before it stay configured.
   */
  method ConfigureHsaKinds(host: Host, ctx: ContextId, stack: CallStackVec) returns (r: Outcome)
    requires host.Valid()
    requires ctx in host.contexts && host.contexts[ctx].services == map[]
    modifies host
    ensures host.Valid()
    ensures StopsAtFirstRefusal(host.refused, old(host.calls), host.calls, r.Pass?)
    ensures host.calls <= old(host.calls) + 4 && (r.Pass? ==> host.calls == old(host.calls) + 4)
    ensures host.contexts == WithServicesUpTo(old(host.contexts), ctx, AcceptedCalls(old(host.calls), host.calls, r.Pass?), stack)
    ensures r.Fail? ==> EndsWith(r.message, CallSuffix(CONFIGURE_FAILED, host.errorStatus))
  {
    var i := 0;
    r := Pass;
    assert ServicesUpTo(0, stack) == map[];
    while i < |HSA_KINDS|
      invariant 0 <= i <= |HSA_KINDS|
      invariant host.Valid() && r.Pass?
      invariant host.calls == old(host.calls) + i
      invariant forall j :: old(host.calls) <= j < host.calls ==> j !in host.refused
      invariant host.contexts == WithServicesUpTo(old(host.contexts), ctx, i, stack)
    {
      r := ConfigureTracing(host, ctx, i, stack, CONFIGURE_HSA_EXPR, 394);
      if r.Fail? {
        return;
      }
      i := i + 1;
    }
  }

  /**
   * The configuration of the primary context in tool_init: the loop over the
   * HSA kinds, then HIP runtime, marker core and marker name. The first
   * refusal raises and stops the rest; the kinds configured before it stay
   * configured.
   */
  method ConfigurePrimary(host: Host, ctx: ContextId, stack: CallStackVec) returns (r: Outcome)
    requires host.Valid()
    requires ctx in host.contexts && host.contexts[ctx].services == map[]
    modifies host
    ensures host.Valid()
    ensures StopsAtFirstRefusal(host.refused, old(host.calls), host.calls, r.Pass?)
    ensures host.calls <= old(host.calls) + 7 && (r.Pass? ==> host.calls == old(host.calls) + 7)
    ensures host.contexts == WithServicesUpTo(old(host.contexts), ctx, AcceptedCalls(old(host.calls), host.calls, r.Pass?), stack)
    ensures r.Fail? ==> EndsWith(r.message, CallSuffix(CONFIGURE_FAILED, host.errorStatus))
  {
    r := ConfigureHsaKinds(host, ctx, stack);
    if r.Fail? {
      return;
    }
    ghost var base, orig := old(host.calls), old(host.contexts);
    r := ConfigureOne(host, ctx, 4, stack, CONFIGURE_HIP_EXPR, 399, base, orig);
    if r.Fail? {
      return;
    }
    r := ConfigureOne(host, ctx, 5, stack, CONFIGURE_MARKER_CORE_EXPR, 408, base, orig);
    if r.Fail? {
      return;
    }
    r := ConfigureOne(host, ctx, 6, stack, CONFIGURE_MARKER_NAME_EXPR, 417, base, orig);
  }

  /**
   * ConfigureTracing of the `i`-th kind after the first `i` were configured
   * by a run of calls the host all accepted, stated for that run from its
   * first call `base` and for the contexts `orig` before it.
   */
  method ConfigureOne(host: Host, ctx: ContextId, i: nat, stack: CallStackVec, expr: string, line: nat,
                      ghost base: nat, ghost orig: map<ContextId, Context>)
    returns (r: Outcome)
    requires host.Valid() && ctx in orig && i < |TRACED_KINDS| && host.calls == base + i
    requires host.contexts == WithServicesUpTo(orig, ctx, i, stack)
    requires forall j :: base <= j < host.calls ==> j !in host.refused
    modifies host
    ensures host.Valid()
    ensures StopsAtFirstRefusal(host.refused, base, host.calls, r.Pass?)
    ensures host.calls == base + i + 1
    ensures AcceptedCalls(base, host.calls, r.Pass?) == if r.Pass? then i + 1 else i
    ensures host.contexts == WithServicesUpTo(orig, ctx, if r.Pass? then i + 1 else i, stack)
    ensures r.Fail? ==> EndsWith(r.message, CallSuffix(CONFIGURE_FAILED, host.errorStatus))
  {
    r := ConfigureTracing(host, ctx, i, stack, expr, line);
  }

  /** decode of rocprofiler_configure's version number: major*10000 + minor*100 + patch. */
  function DecodeVersion(v: nat): (t: VersionTriple)
    ensures t.minor < 100 && t.patch < 100
    ensures t.major * 10000 + t.minor * 100 + t.patch == v
  {
    VersionTriple(v / 10000, (v % 10000) / 100, v % 100)
  }

  /** Decoding an encoded triple gives the triple back, whenever minor and patch are below 100. */
  lemma DecodeEncode(t: VersionTriple)
    requires t.minor < 100 && t.patch < 100
    ensures DecodeVersion(t.major * 10000 + t.minor * 100 + t.patch) == t
  {
    var v := t.major * 10000 + t.minor * 100 + t.patch;
    var d := DecodeVersion(v);
    assert t.minor * 100 + t.patch < 10000;
    assert d.major * 10000 + (d.minor * 100 + d.patch) == t.major * 10000 + (t.minor * 100 + t.patch);
    assert d.minor * 100 + d.patch < 10000;
    assert d.major == t.major;
    assert d.minor * 100 + d.patch == t.minor * 100 + t.patch;
  }

  /** Two version numbers decode to the same triple only when they are equal. */
  lemma DecodeInjective(v: nat, w: nat)
    requires DecodeVersion(v) == DecodeVersion(w)
    ensures v == w
  {
  }

  const PRIORITY_LABEL: string := " (priority="
  const USING_LABEL: string := ") is using rocprofiler-sdk v"
  const VERSION_DOT: string := "."
  const RUNTIME_OPEN: string := " ("
  const RUNTIME_CLOSE: string := ")"

  /** The line written to the log when the client is configured. */
  function Banner(name: string, priority: nat, t: VersionTriple, runtimeVersion: string): string {
    name + PRIORITY_LABEL + NatToString(priority) + USING_LABEL
      + NatToString(t.major) + VERSION_DOT + NatToString(t.minor) + VERSION_DOT + NatToString(t.patch)
      + RUNTIME_OPEN + runtimeVersion + RUNTIME_CLOSE
  }

  /** The banner from a given field on, for reading it back field by field. */
  function PriorityOnward(priority: nat, t: VersionTriple, runtimeVersion: string): string {
    PRIORITY_LABEL + (NatToString(priority) + MajorOnward(t, runtimeVersion))
  }

  function MajorOnward(t: VersionTriple, runtimeVersion: string): string {
    USING_LABEL + (NatToString(t.major) + MinorOnward(t, runtimeVersion))
  }

  function MinorOnward(t: VersionTriple, runtimeVersion: string): string {
    VERSION_DOT + (NatToString(t.minor) + PatchOnward(t.patch, runtimeVersion))
  }

  function PatchOnward(patch: nat, runtimeVersion: string): string {
    VERSION_DOT + (NatToString(patch) + RuntimeField(runtimeVersion))
  }

  function RuntimeField(runtimeVersion: string): string {
    RUNTIME_OPEN + (runtimeVersion + RUNTIME_CLOSE)
  }

  /** The banner regrouped as the client name followed by the rest. */
  lemma BannerSplit(name: string, priority: nat, t: VersionTriple, runtimeVersion: string)
    ensures Banner(name, priority, t, runtimeVersion) == name + PriorityOnward(priority, t, runtimeVersion)
  {
    var np, n1, n2, n3 := NatToString(priority), NatToString(t.major), NatToString(t.minor), NatToString(t.patch);
    var g2 := name + PRIORITY_LABEL + np;
    var g4 := g2 + USING_LABEL + n1;
    var g6 := g4 + VERSION_DOT + n2;
    var g8 := g6 + VERSION_DOT + n3;
    RegroupField(g8, RUNTIME_OPEN, runtimeVersion, RUNTIME_CLOSE);
    RegroupField(g6, VERSION_DOT, n3, RuntimeField(runtimeVersion));
    RegroupField(g4, VERSION_DOT, n2, PatchOnward(t.patch, runtimeVersion));
    RegroupField(g2, USING_LABEL, n1, MinorOnward(t, runtimeVersion));
    RegroupField(name, PRIORITY_LABEL, np, MajorOnward(t, runtimeVersion));
  }

  /**
   * The banner reads back: two banners of the same client that are equal
   * show the same priority, the same version triple and the same runtime
   * version.
   */
  lemma BannerInjective(name: string, p1: nat, t1: VersionTriple, rv1: string, p2: nat, t2: VersionTriple, rv2: string)
    requires Banner(name, p1, t1, rv1) == Banner(name, p2, t2, rv2)
    ensures p1 == p2 && t1 == t2 && rv1 == rv2
  {
    BannerSplit(name, p1, t1, rv1);
    BannerSplit(name, p2, t2, rv2);
    DropCommonPrefix(name, PriorityOnward(p1, t1, rv1), PriorityOnward(p2, t2, rv2));
    assert MajorOnward(t1, rv1)[0] == ')' && MajorOnward(t2, rv2)[0] == ')';
    LabelledNatUnique(PRIORITY_LABEL, p1, p2, MajorOnward(t1, rv1), MajorOnward(t2, rv2));
    assert MinorOnward(t1, rv1)[0] == '.' && MinorOnward(t2, rv2)[0] == '.';
    LabelledNatUnique(USING_LABEL, t1.major, t2.major, MinorOnward(t1, rv1), MinorOnward(t2, rv2));
    assert PatchOnward(t1.patch, rv1)[0] == '.' && PatchOnward(t2.patch, rv2)[0] == '.';
    LabelledNatUnique(VERSION_DOT, t1.minor, t2.minor, PatchOnward(t1.patch, rv1), PatchOnward(t2.patch, rv2));
    assert RuntimeField(rv1)[0] == ' ' && RuntimeField(rv2)[0] == ' ';
    LabelledNatUnique(VERSION_DOT, t1.patch, t2.patch, RuntimeField(rv1), RuntimeField(rv2));
    DropCommonPrefix(RUNTIME_OPEN, rv1 + RUNTIME_CLOSE, rv2 + RUNTIME_CLOSE);
    DropCommonSuffix(rv1, rv2, RUNTIME_CLOSE);
  }

  /** Two clients configured with different version numbers write different banners. */
  lemma BannerShowsVersion(name: string, p1: nat, v1: nat, rv1: string, p2: nat, v2: nat, rv2: string)
    requires Banner(name, p1, DecodeVersion(v1), rv1) == Banner(name, p2, DecodeVersion(v2), rv2)
    ensures v1 == v2
  {
    BannerInjective(name, p1, DecodeVersion(v1), rv1, p2, DecodeVersion(v2), rv2);
    DecodeInjective(v1, v2);
  }

  /** The first record of the vector made by rocprofiler_configure, which carries the banner. */
  function ConfigureEntry(banner: string): SourceLocation {
    SourceLocation("rocprofiler_configure", CLIENT_FILE, 527, banner)
  }

  /**
   * tool_fini: add its own record, then write the report of every record
   * to the destination print_call_stack chooses for the default name
   * "api_callback_trace.log". Returns the destination, the announcement on
   * stdout and the report's lines.
   */
  method ToolFini(stack: CallStackVec, env: Option<string>, opens: bool)
    returns (dest: Destination, banner: string, lines: seq<string>)
    modifies stack
    ensures stack.records == old(stack.records) + [FINI_ENTRY]
    ensures dest == SelectDestination(OutputName(REPORT_NAME, env), opens)
    ensures banner == "Outputting collected data to " + dest.name + "...\n"
    ensures lines == Lines(stack.records, |stack.records|)
    ensures |lines| == |old(stack.records)| + 1
    ensures lines[|old(stack.records)|] == LineAt(stack.records, |old(stack.records)|)
    ensures stack.records[|old(stack.records)|] == FINI_ENTRY
  {
    stack.Append(FINI_ENTRY);
    dest, banner, lines := PrintCallStack(REPORT_NAME, stack.records, env, opens);
    LinesNumbered(stack.records, |stack.records|, |stack.records| - 1);
  }

  /**
   * The primary context once `n` of the calls made on it after its creation
   * were accepted: the first seven configure its kinds in turn, the eighth
   * checks its validity, the ninth starts it.
   */
  function PrimaryAfter(stack: CallStackVec, n: nat): Context {
    Context(ServicesUpTo(n, stack), n >= 9)
  }

  /**
   * The contexts once the primary context exists and the host accepted `m`
   * of the calls after its creation: the first three set up the control
   * context, the next nine configure, check and start the primary context.
   */
  function ContextsAfterSetUp(contexts: map<ContextId, Context>, primary: ContextId, control: ContextId,
                              stack: CallStackVec, m: nat): map<ContextId, Context> {
    if m == 0 then contexts
    else if m <= 3 then contexts[control := ControlAfter(primary, m)]
    else contexts[control := ControlAfter(primary, 3)][primary := PrimaryAfter(stack, m - 3)]
  }

  /** The contexts after tool_init's context calls, when the host accepted `n` of them. */
  function ContextsAfterInit(contexts: map<ContextId, Context>, primary: ContextId, control: ContextId,
                             stack: CallStackVec, n: nat): map<ContextId, Context> {
    if n == 0 then contexts
    else ContextsAfterSetUp(contexts[primary := PrimaryAfter(stack, 0)], primary, control, stack, n - 1)
  }

  /**
   * What tool_init leaves behind when it stops after `n` accepted calls:
   * every earlier context untouched; from the first accepted call on, the
   * primary context, holding the kinds configured before the refusal,
   * started only when all thirteen calls were accepted; from the second on,
   * the control context, started once its own three calls were accepted.
   */
  lemma ContextsAfterInitShape(contexts: map<ContextId, Context>, primary: ContextId, control: ContextId,
                               stack: CallStackVec, n: nat)
    requires primary !in contexts && control !in contexts && primary != control
    ensures var after := ContextsAfterInit(contexts, primary, control, stack, n);
      && (forall id :: id in contexts ==> id in after && after[id] == contexts[id])
      && (primary in after <==> n >= 1)
      && (control in after <==> n >= 2)
      && (n >= 1 ==> after[primary].services == ServicesUpTo(if n < 4 then 0 else n - 4, stack))
      && (n >= 1 ==> (after[primary].active <==> n >= 13))
      && (n >= 2 ==> after[control] == ControlAfter(primary, n - 1))
      && (n >= 4 ==> after[control] == ControlContext(primary))
  {
  }

  /**
   * When the host accepts all of tool_init's context calls, the primary
   * context holds exactly the seven traced kinds and is started, and the
   * control context is the started marker-control context; when it accepts
   * all but the start, which the rejected validity check skips, the primary
   * context holds the same kinds and is left stopped.
   */
  lemma InitAllAccepted(contexts: map<ContextId, Context>, primary: ContextId, control: ContextId, stack: CallStackVec)
    requires primary != control
    ensures ContextsAfterInit(contexts, primary, control, stack, 13)
      == contexts[primary := Context(PrimaryServices(stack), true)][control := ControlContext(primary)]
    ensures ContextsAfterInit(contexts, primary, control, stack, 12)
      == contexts[primary := Context(PrimaryServices(stack), false)][control := ControlContext(primary)]
  {
    assert TRACED_KINDS[..|TRACED_KINDS|] == TRACED_KINDS;
    assert ServicesUpTo(9, stack) == PrimaryServices(stack);
    assert ServicesUpTo(8, stack) == PrimaryServices(stack);
  }

  /** The message the primary context's setup raises with when the host refuses its call after accepting `n`. */
  function PrimaryFailure(n: nat): string {
    if n < 7 then CONFIGURE_FAILED else if n == 7 then VALIDITY_FAILED else START_FAILED
  }

  /** The message tool_init raises with when the host refuses its context call after accepting `n`. */
  function InitFailure(n: nat): string {
    if n == 0 then CREATE_FAILED
    else if n <= 3 then ControlFailure(n - 1)
    else PrimaryFailure(n - 4)
  }

  /**
   * The context part of tool_init: create the primary context (`created`
   * says whether client_ctx was assigned), set up the control context,
   * configure the primary context, check its validity (-1 when rejected) and
   * start it (0). The first refused call raises and stops the rest; what was
   * set up before it stays.
   */
  method InitContexts(host: Host, stack: CallStackVec)
    returns (r: Outcome, code: int, created: bool, primary: ContextId, ghost control: ContextId)
    requires host.Valid()
    modifies host
    ensures host.Valid()
    ensures StopsAtFirstRefusal(host.refused, old(host.calls), host.calls, r.Pass?)
    ensures host.calls <= old(host.calls) + 13
    ensures created <==> AcceptedCalls(old(host.calls), host.calls, r.Pass?) >= 1
    ensures created ==> primary !in old(host.contexts)
    ensures AcceptedCalls(old(host.calls), host.calls, r.Pass?) >= 2 ==> control !in old(host.contexts) && control != primary
    ensures host.contexts == ContextsAfterInit(old(host.contexts), primary, control, stack, AcceptedCalls(old(host.calls), host.calls, r.Pass?))
    ensures r.Pass? ==> (code == 0 <==> host.acceptsContexts) && (code == -1 <==> !host.acceptsContexts)
    ensures r.Pass? ==> host.calls == old(host.calls) + (if code == 0 then 13 else 12)
    ensures r.Fail? ==> EndsWith(r.message, CallSuffix(InitFailure(AcceptedCalls(old(host.calls), host.calls, r.Pass?)), host.errorStatus))
  {
    code := 0;
    control := 0;
    created := false;
    var st;
    st, primary := host.CreateContext();
    r := Call(st, CREATE_CLIENT_EXPR, Site(CLIENT_FILE, 384), InitFailure(0));
    if r.Fail? {
      return;
    }
    created := true;
    assert ServicesUpTo(0, stack) == map[];
    ghost var setUpStart := host.calls;
    r, code, control := SetUpContexts(host, primary, stack);
    StopsAtFirstRefusalThen(host.refused, old(host.calls), setUpStart, host.calls, r.Pass?);
  }

  /** tool_init after the primary context's creation: the control context, then the primary context's setup. */
  method SetUpContexts(host: Host, primary: ContextId, stack: CallStackVec) returns (r: Outcome, code: int, ghost control: ContextId)
    requires host.Valid() && primary in host.contexts && host.contexts[primary] == PrimaryAfter(stack, 0)
    modifies host
    ensures host.Valid()
    ensures StopsAtFirstRefusal(host.refused, old(host.calls), host.calls, r.Pass?)
    ensures host.calls <= old(host.calls) + 12
    ensures AcceptedCalls(old(host.calls), host.calls, r.Pass?) >= 1 ==> control !in old(host.contexts)
    ensures host.contexts == ContextsAfterSetUp(old(host.contexts), primary, control, stack, AcceptedCalls(old(host.calls), host.calls, r.Pass?))
    ensures r.Pass? ==> (code == 0 <==> host.acceptsContexts) && (code == -1 <==> !host.acceptsContexts)
    ensures r.Pass? ==> host.calls == old(host.calls) + (if code == 0 then 12 else 11)
    ensures r.Fail? ==> EndsWith(r.message, CallSuffix(InitFailure(1 + AcceptedCalls(old(host.calls), host.calls, r.Pass?)), host.errorStatus))
  {
    code := 0;
    r, control := ControlInit(host, primary);
    if r.Fail? {
      return;
    }
    ghost var primaryStart := host.calls;
    r, code := ConfigureAndStart(host, primary, stack);
    StopsAtFirstRefusalThen(host.refused, old(host.calls), primaryStart, host.calls, r.Pass?);
  }

  /**
   * The primary context's kinds, its validity check and its start, in
   * tool_init's order; the first refused call raises and stops the rest.
   */
  method ConfigureAndStart(host: Host, primary: ContextId, stack: CallStackVec) returns (r: Outcome, code: int)
    requires host.Valid() && primary in host.contexts
    requires host.contexts[primary] == PrimaryAfter(stack, 0)
    modifies host
    ensures host.Valid()
    ensures StopsAtFirstRefusal(host.refused, old(host.calls), host.calls, r.Pass?)
    ensures host.calls <= old(host.calls) + 9
    ensures host.contexts == old(host.contexts)[primary := PrimaryAfter(stack, AcceptedCalls(old(host.calls), host.calls, r.Pass?))]
    ensures r.Pass? ==> (code == 0 <==> host.acceptsContexts) && (code == -1 <==> !host.acceptsContexts)
    ensures r.Pass? ==> host.calls == old(host.calls) + (if code == 0 then 9 else 8)
    ensures r.Fail? ==> EndsWith(r.message, CallSuffix(PrimaryFailure(AcceptedCalls(old(host.calls), host.calls, r.Pass?)), host.errorStatus))
  {
    code := 0;
    r := ConfigurePrimary(host, primary, stack);
    if r.Fail? {
      return;
    }
    r, code := ValidateAndStart(host, primary);
  }


  /**
   * The end of tool_init: the validity check, then, when the host accepts
   * the context, its start; a refused check or a refused start raises.
   */
  method ValidateAndStart(host: Host, primary: ContextId) returns (r: Outcome, code: int)
    requires host.Valid() && primary in host.contexts
    modifies host
    ensures host.Valid()
    ensures StopsAtFirstRefusal(host.refused, old(host.calls), host.calls, r.Pass?)
    ensures host.calls <= old(host.calls) + 2
    ensures host.calls == old(host.calls) + 2 <==> host.Accepts(old(host.calls)) && host.acceptsContexts
    ensures r.Pass? ==> (code == 0 <==> host.acceptsContexts) && (code == -1 <==> !host.acceptsContexts)
    ensures r.Pass? && code == 0 ==> host.contexts == WithActive(old(host.contexts), primary, true)
    ensures !(r.Pass? && code == 0) ==> host.contexts == old(host.contexts)
    ensures r.Fail? && host.calls == old(host.calls) + 1 ==>
      EndsWith(r.message, CallSuffix(VALIDITY_FAILED, host.errorStatus))
    ensures r.Fail? && host.calls == old(host.calls) + 2 ==>
      EndsWith(r.message, CallSuffix(START_FAILED, host.errorStatus))
  {
    code := 0;
    var st, valid := host.ContextIsValid(primary);
    r := Call(st, VALIDITY_EXPR, Site(CLIENT_FILE, 427), VALIDITY_FAILED);
    if r.Fail? {
      return;
    }
    if valid == 0 {
      code := -1;
      return;
    }
    st := host.StartContext(primary);
    r := Call(st, START_EXPR, Site(CLIENT_FILE, 437), START_FAILED);
  }

  /** The globals of the client: rocprofiler_configure and tool_init fill them in. */
  class Session {
    var clientId: ClientId?
    var finiFunc: Option<FiniFunc>
    var clientCtx: ContextId
    var configData: Option<ConfigResult>

    /** Before rocprofiler_configure: no client id, no finalizer, context handle 0, no configuration. */
    constructor ()
      ensures clientId == null && finiFunc == None && clientCtx == 0 && configData == None
    {
      clientId := null;
      finiFunc := None;
      clientCtx := 0;
      configData := None;
    }

    /**
     * tool_init: the first record, the name-table records, the finalizer,
     * the primary context, the control context, the primary context's seven
     * kinds, the validity check (-1 without starting anything when the host
     * rejects the context), and the start of the primary context.
     */
    method ToolInit(host: Host, fini: FiniFunc, stack: CallStackVec) returns (r: Outcome, code: int, ghost control: ContextId)
      requires host.Valid()
      modifies this, host, stack
      ensures host.Valid()
      ensures stack.records == old(stack.records) + [INIT_ENTRY] + NameEntries(host.names)
      ensures finiFunc == Some(fini) && clientId == old(clientId) && configData == old(configData)
      ensures StopsAtFirstRefusal(host.refused, old(host.calls), host.calls, r.Pass?)
      ensures host.calls <= old(host.calls) + 13
      ensures AcceptedCalls(old(host.calls), host.calls, r.Pass?) == 0 ==> clientCtx == old(clientCtx)
      ensures AcceptedCalls(old(host.calls), host.calls, r.Pass?) >= 1 ==> clientCtx !in old(host.contexts)
      ensures AcceptedCalls(old(host.calls), host.calls, r.Pass?) >= 2 ==> control !in old(host.contexts) && control != clientCtx
      ensures host.contexts == ContextsAfterInit(old(host.contexts), clientCtx, control, stack, AcceptedCalls(old(host.calls), host.calls, r.Pass?))
      ensures r.Pass? ==> (code == 0 <==> host.acceptsContexts) && (code == -1 <==> !host.acceptsContexts)
      ensures r.Pass? ==> host.calls == old(host.calls) + (if code == 0 then 13 else 12)
      ensures r.Fail? ==> EndsWith(r.message, CallSuffix(InitFailure(AcceptedCalls(old(host.calls), host.calls, r.Pass?)), host.errorStatus))
    {
      stack.Append(INIT_ENTRY);
      RecordNames(host.names, stack);
      finiFunc := Some(fini);
      var created, ctx;
      r, code, created, ctx, control := InitContexts(host, stack);
      if created {
        clientCtx := ctx;
      }
    }

    /**
     * shutdown: when rocprofiler_configure has recorded a client id, call the
     * finalizer tool_init recorded on it (a null one if tool_init never ran).
     */
    method Shutdown() returns (action: ShutdownAction)
      ensures action == NoFinalize <==> clientId == null
      ensures action == NullFinalize <==> clientId != null && finiFunc.None?
      ensures action.Finalize? <==> clientId != null && finiFunc.Some?
      ensures action.Finalize? ==> action.fini == finiFunc.value
    {
      if clientId == null {
        action := NoFinalize;
      } else if finiFunc.None? {
        action := NullFinalize;
      } else {
        action := Finalize(finiFunc.value);
      }
    }

    /** start: start the primary context; raises when the host refuses. */
    method Start(host: Host) returns (r: Outcome)
      requires host.Valid()
      modifies host
      ensures host.Valid()
      ensures host.calls == old(host.calls) + 1
      ensures r.Pass? <==> host.Accepts(old(host.calls)) && clientCtx in old(host.contexts)
      ensures r.Pass? ==> host.contexts == WithActive(old(host.contexts), clientCtx, true)
      ensures r.Fail? ==> host.contexts == old(host.contexts)
      ensures r.Fail? ==> EndsWith(r.message, CallSuffix(START_FAILED, host.errorStatus))
    {
      var st := host.StartContext(clientCtx);
      r := Call(st, START_EXPR, Site(CLIENT_FILE, 470), START_FAILED);
    }

    /**
     * stop: ask the host whether it is initialized, and stop the primary
     * context only when it is; an uninitialized host is left alone.
     */
    method Stop(host: Host) returns (r: Outcome)
      requires host.Valid()
      modifies host
      ensures host.Valid()
      ensures !host.initialized ==> host.contexts == old(host.contexts)
      ensures host.calls == old(host.calls) + (if host.Accepts(old(host.calls)) && host.initialized then 2 else 1)
      ensures r.Pass? <==>
        host.Accepts(old(host.calls))
        && (host.initialized ==> host.Accepts(old(host.calls) + 1) && clientCtx in old(host.contexts))
      ensures r.Pass? && host.initialized ==> host.contexts == WithActive(old(host.contexts), clientCtx, false)
      ensures r.Fail? ==> host.contexts == old(host.contexts)
      ensures !host.Accepts(old(host.calls)) ==>
        r == Call(host.errorStatus, IS_INITIALIZED_EXPR, Site(CLIENT_FILE, 477), IS_INITIALIZED_FAILED)
      ensures r.Fail? && host.Accepts(old(host.calls)) ==>
        host.initialized && r == Call(host.errorStatus, STOP_EXPR, Site(CLIENT_FILE, 480), STOP_FAILED)
    {
      var st, status := host.IsInitialized();
      r := Call(st, IS_INITIALIZED_EXPR, Site(CLIENT_FILE, 477), IS_INITIALIZED_FAILED);
      if r.Fail? {
        return;
      }
      if status != 0 {
        st := host.StopContext(clientCtx);
        r := Call(st, STOP_EXPR, Site(CLIENT_FILE, 480), STOP_FAILED);
      }
    }

    /**
     * rocprofiler_configure: name the client "ExampleTool", remember its id,
     * decode the version number and build the banner (returned: it is written
     * to the log), check the decoded triple against the host's version
     * (raising VERSION_MISMATCH when they differ), make a fresh vector
     * holding the configure record, and hand back the configuration result,
     * which is built on the first call only and returned unchanged after.
     */
    method Configure(host: Host, version: nat, runtimeVersion: string, priority: nat, id: ClientId)
      returns (r: Outcome, banner: string, result: Option<ConfigResult>)
      requires host.Valid()
      modifies this, id, host
      ensures host.Valid() && host.contexts == old(host.contexts) && host.calls == old(host.calls) + 1
      ensures id.name == CLIENT_NAME && clientId == id
      ensures banner == Banner(CLIENT_NAME, priority, DecodeVersion(version), runtimeVersion)
      ensures finiFunc == old(finiFunc) && clientCtx == old(clientCtx)
      ensures r.Pass? <==> host.Accepts(old(host.calls)) && DecodeVersion(version) == host.version
      ensures r.Fail? && host.Accepts(old(host.calls)) ==> r.message == VERSION_MISMATCH
      ensures !host.Accepts(old(host.calls)) ==>
        r == Call(host.errorStatus, GET_VERSION_EXPR, Site(CLIENT_FILE, 512), GET_VERSION_FAILED)
      ensures r.Fail? ==> result.None? && configData == old(configData)
      ensures r.Pass? ==> result.Some? && configData == result
      ensures r.Pass? && old(configData).Some? ==> configData == old(configData)
      ensures r.Pass? && old(configData).None? ==>
        fresh(result.value.toolData) && result.value.toolData.records == [ConfigureEntry(banner)]
    {
      id.name := CLIENT_NAME;
      clientId := id;
      var triple := DecodeVersion(version);
      banner := Banner(id.name, priority, triple, runtimeVersion);
      result := None;

      var st, reported := host.GetVersion();
      r := Call(st, GET_VERSION_EXPR,
                Site(CLIENT_FILE, 512), GET_VERSION_FAILED);
      if r.Fail? {
        return;
      }
      if triple != reported {
        r := Fail(VERSION_MISMATCH);
        return;
      }

      var data := new CallStackVec([ConfigureEntry(banner)]);
      if configData.None? {
        configData := Some(ConfigResult(data));
      }
      result := configData;
    }
  }
}
