/**
 * The typed argument extraction of the tracing callback: for five HIP runtime
 * operations the client walks the record's arguments (dereference depth 1)
 * with a visitor that copies a value into an output slot whenever the
 * argument's name is the slot's field name. The slots are the callback's
 * locals, each starting at its initial value.
 */
module ArgExtraction {
  import opened Util
  import opened RocprofilerHost

  /** The HIP runtime operations that get a typed visitor. */
  datatype HipOp = HipMalloc | HipFree | HipMemcpy | HipMemset | HipLaunchKernel

  /**
   * The operation's ROCPROFILER_HIP_RUNTIME_API_ID_* value. The numbers are
   * placeholders: only their being distinct matters to the client.
   */
  function HipOperationId(o: HipOp): nat {
    match o
    case HipMalloc => 1
    case HipFree => 2
    case HipMemcpy => 3
    case HipMemset => 4
    case HipLaunchKernel => 5
  }

  /** The name the client uses for the operation in its failure message. */
  function HipOpName(o: HipOp): string {
    match o
    case HipMalloc => "hipMalloc"
    case HipFree => "hipFree"
    case HipMemcpy => "hipMemcpy"
    case HipMemset => "hipMemset"
    case HipLaunchKernel => "hipLaunchKernel"
  }

  /**
   * Which typed visitor, if any, a record gets: only HIP runtime records of
   * the five operations; every other kind and operation goes straight to the
   * generic path.
   */
  function Dispatch(kind: nat, operation: nat): (r: Option<HipOp>)
    ensures r.Some? <==> kind == KIND_HIP_RUNTIME_API && operation in {1, 2, 3, 4, 5}
    ensures r.Some? ==> HipOperationId(r.value) == operation
  {
    if kind != KIND_HIP_RUNTIME_API then None
    else if operation == HipOperationId(HipMalloc) then Some(HipMalloc)
    else if operation == HipOperationId(HipFree) then Some(HipFree)
    else if operation == HipOperationId(HipMemcpy) then Some(HipMemcpy)
    else if operation == HipOperationId(HipMemset) then Some(HipMemset)
    else if operation == HipOperationId(HipLaunchKernel) then Some(HipLaunchKernel)
    else None
  }

  /** Every operation is dispatched to its own visitor. */
  lemma DispatchHipOp(o: HipOp)
    ensures Dispatch(KIND_HIP_RUNTIME_API, HipOperationId(o)) == Some(o)
  {
  }

  /** A null pointer, zero integers, and `dim3{}`, whose components default to 1. */
  const NULL: ArgValue := Pointer(0)
  const ZERO_U: ArgValue := Unsigned(0)
  const UNIT_DIM3: ArgValue := Dim3(1, 1, 1)

  /**
   * The output slots of each visitor, keyed by the argument name the visitor
   * looks for, at their initial values. hipMemset's pointer slot is filled
   * from the argument named "dst".
   */
  function InitialSlots(o: HipOp): (slots: map<string, ArgValue>)
    ensures o == HipMalloc ==> slots.Keys == {"ptr", "size"}
    ensures o == HipFree ==> slots.Keys == {"ptr"}
    ensures o == HipMemcpy ==> slots.Keys == {"dst", "src", "size"}
    ensures o == HipMemset ==> slots.Keys == {"dst", "value", "size"}
    ensures o == HipLaunchKernel ==> slots.Keys == {"func", "gridDim", "blockDim", "sharedMemBytes", "stream"}
  {
    match o
    case HipMalloc => map["ptr" := NULL, "size" := ZERO_U]
    case HipFree => map["ptr" := NULL]
    case HipMemcpy => map["dst" := NULL, "src" := NULL, "size" := ZERO_U]
    case HipMemset => map["dst" := NULL, "value" := Signed(0), "size" := ZERO_U]
    case HipLaunchKernel =>
      map["func" := NULL, "gridDim" := UNIT_DIM3, "blockDim" := UNIT_DIM3,
          "sharedMemBytes" := ZERO_U, "stream" := NULL]
  }

  /** One visitor call: the argument's value goes to the slot of that name, if there is one. */
  function Visit(slots: map<string, ArgValue>, v: ArgView): (r: map<string, ArgValue>)
    ensures r.Keys == slots.Keys
    ensures forall k :: k in slots && k != v.name ==> r[k] == slots[k]
    ensures v.name in slots ==> r[v.name] == v.value
  {
    if v.name in slots then slots[v.name := v.value] else slots
  }

  /** The slots after the visitor has seen the arguments in stream order. */
  function Extract(slots: map<string, ArgValue>, views: seq<ArgView>): (r: map<string, ArgValue>)
    ensures r.Keys == slots.Keys
  {
    if views == [] then slots
    else Visit(Extract(slots, views[..|views| - 1]), views[|views| - 1])
  }

  /** The position of the last argument called `name`, if any. */
  function LastNamed(views: seq<ArgView>, name: string): (r: Option<nat>)
    ensures r.None? ==> forall j :: 0 <= j < |views| ==> views[j].name != name
    ensures r.Some? ==> r.value < |views| && views[r.value].name == name
    ensures r.Some? ==> forall j :: r.value < j < |views| ==> views[j].name != name
  {
    if views == [] then None
    else if views[|views| - 1].name == name then Some(|views| - 1)
    else LastNamed(views[..|views| - 1], name)
  }

  /**
   * What a slot ends up holding: the value of the last argument with the
   * slot's name, or the initial value when no argument has that name.
   */
  lemma {:induction false} ExtractSlot(slots: map<string, ArgValue>, views: seq<ArgView>, k: string)
    requires k in slots
    ensures LastNamed(views, k).None? ==> Extract(slots, views)[k] == slots[k]
    ensures LastNamed(views, k).Some? ==> Extract(slots, views)[k] == views[LastNamed(views, k).value].value
  {
    if views != [] {
      var init := views[..|views| - 1];
      ExtractSlot(slots, init, k);
      if views[|views| - 1].name != k {
        assert LastNamed(views, k) == LastNamed(init, k);
      }
    }
  }

  /** A slot whose name no argument carries keeps its initial value. */
  lemma ExtractUntouched(slots: map<string, ArgValue>, views: seq<ArgView>, k: string)
    requires k in slots
    requires forall j :: 0 <= j < |views| ==> views[j].name != k
    ensures Extract(slots, views)[k] == slots[k]
  {
    ExtractSlot(slots, views, k);
  }

  /** With a repeated name, the last argument of that name wins. */
  lemma ExtractLastWins(slots: map<string, ArgValue>, views: seq<ArgView>, k: string, i: nat)
    requires k in slots && i < |views| && views[i].name == k
    requires forall j :: i < j < |views| ==> views[j].name != k
    ensures Extract(slots, views)[k] == views[i].value
  {
    ExtractSlot(slots, views, k);
    assert LastNamed(views, k).Some?;
  }

  /** A slot changes only to the value of an argument bearing its name. */
  lemma ExtractOnlyNamed(slots: map<string, ArgValue>, views: seq<ArgView>, k: string)
    requires k in slots && Extract(slots, views)[k] != slots[k]
    ensures exists j :: 0 <= j < |views| && views[j].name == k && Extract(slots, views)[k] == views[j].value
  {
    ExtractSlot(slots, views, k);
    var r := LastNamed(views, k);
    assert views[r.value].name == k;
  }

  /** hipMemset's pointer is the last "dst" argument; an argument named "ptr" is ignored. */
  lemma MemsetPointerFromDst(views: seq<ArgView>, i: nat)
    requires i < |views| && views[i].name == "dst"
    requires forall j :: i < j < |views| ==> views[j].name != "dst"
    ensures Extract(InitialSlots(HipMemset), views)["dst"] == views[i].value
    ensures "ptr" !in Extract(InitialSlots(HipMemset), views)
  {
    ExtractLastWins(InitialSlots(HipMemset), views, "dst", i);
  }

  /** hipMalloc's pointer is the last "ptr" argument, and stays null when there is none. */
  lemma MallocPointerFromPtr(views: seq<ArgView>)
    ensures LastNamed(views, "ptr").Some? ==>
      Extract(InitialSlots(HipMalloc), views)["ptr"] == views[LastNamed(views, "ptr").value].value
    ensures LastNamed(views, "ptr").None? ==> Extract(InitialSlots(HipMalloc), views)["ptr"] == NULL
  {
    ExtractSlot(InitialSlots(HipMalloc), views, "ptr");
  }

  /**
   * The visitor loop: the host hands each argument to the visitor in stream
   * order, and the visitor writes the slot of the argument's name.
   */
  method ExtractArgs(o: HipOp, views: seq<ArgView>) returns (slots: map<string, ArgValue>)
    ensures slots == Extract(InitialSlots(o), views)
    ensures slots.Keys == InitialSlots(o).Keys
  {
    slots := InitialSlots(o);
    var i := 0;
    while i < |views|
      invariant 0 <= i <= |views|
      invariant slots == Extract(InitialSlots(o), views[..i])
    {
      assert views[..i + 1][..i] == views[..i];
      if views[i].name in slots {
        slots := slots[views[i].name := views[i].value];
      }
      i := i + 1;
    }
    assert views[..|views|] == views;
  }
}
