/**
 * torch/amd_rocm_torch.cpp: the PyTorch memory-reporting hook. Reports for
 * CUDA or HIP devices become a malloc event when the size is positive and a
 * free event otherwise; each event is a line printed to stdout. The hook is
 * installed once per process, on library load.
 */
module TorchMemory {
  import opened Util

  /** c10::DeviceType enumerators. */
  const DEVICE_CPU: nat := 0
  const DEVICE_CUDA: nat := 1
  const DEVICE_HIP: nat := 6

  /** c10::Device: a device type and an index. */
  datatype Device = Device(deviceType: nat, index: int)

  /** is_cuda_or_hip. */
  function IsCudaOrHip(d: Device): (r: bool)
    ensures r <==> d.deviceType == DEVICE_CUDA || d.deviceType == DEVICE_HIP
    ensures d.deviceType == DEVICE_CPU ==> !r
  {
    d.deviceType == DEVICE_CUDA || d.deviceType == DEVICE_HIP
  }

  datatype EventKind = Malloc | Free

  /** The arguments of tensor_malloc_callback / tensor_free_callback. */
  datatype TensorEvent = TensorEvent(kind: EventKind, ptr: nat, bytes: int, totalAllocated: int, totalReserved: int, deviceId: int)

  /** The (int64_t) cast of an unsigned value: two's-complement wrap into [-2^63, 2^63). */
  function AsInt64(x: int): (r: int)
    ensures -INT64_LIMIT <= r < INT64_LIMIT
    ensures -INT64_LIMIT <= x < INT64_LIMIT ==> r == x
    ensures (x - r) % U64_MODULUS == 0
  {
    var m := x % U64_MODULUS;
    if m < INT64_LIMIT then m else m - U64_MODULUS
  }

  /**
   * reportMemoryUsage for PyTorch 2.x, whose totals are size_t: nothing for
   * other devices; a positive size is a malloc, any other size a free; the
   * totals go through the (int64_t) cast.
   */
  function ReportMemoryUsageV2(ptr: nat, allocSize: int, totalAllocated: nat, totalReserved: nat, device: Device)
    : (e: Option<TensorEvent>)
    ensures e.Some? <==> IsCudaOrHip(device)
    ensures e.Some? ==> (e.value.kind == Malloc <==> allocSize > 0)
    ensures e.Some? ==> e.value.ptr == ptr && e.value.bytes == allocSize && e.value.deviceId == device.index
    ensures e.Some? ==> e.value.totalAllocated == AsInt64(totalAllocated) && e.value.totalReserved == AsInt64(totalReserved)
  {
    if !IsCudaOrHip(device) then None
    else if allocSize > 0 then
      Some(TensorEvent(Malloc, ptr, allocSize, AsInt64(totalAllocated), AsInt64(totalReserved), device.index))
    else
      Some(TensorEvent(Free, ptr, allocSize, AsInt64(totalAllocated), AsInt64(totalReserved), device.index))
  }

  /** reportMemoryUsage for PyTorch 1.x, whose totals are already int64_t. */
  function ReportMemoryUsageV1(ptr: nat, allocSize: int, totalAllocated: int, totalReserved: int, device: Device)
    : (e: Option<TensorEvent>)
    ensures e.Some? <==> IsCudaOrHip(device)
    ensures e.Some? ==> (e.value.kind == Malloc <==> allocSize > 0)
    ensures e.Some? ==> e.value.ptr == ptr && e.value.bytes == allocSize && e.value.deviceId == device.index
    ensures e.Some? ==> e.value.totalAllocated == totalAllocated && e.value.totalReserved == totalReserved
  {
    if !IsCudaOrHip(device) then None
    else if allocSize > 0 then
      Some(TensorEvent(Malloc, ptr, allocSize, totalAllocated, totalReserved, device.index))
    else
      Some(TensorEvent(Free, ptr, allocSize, totalAllocated, totalReserved, device.index))
  }

  /** The two overloads route alike whenever the totals fit in int64_t. */
  lemma SameRouting(ptr: nat, allocSize: int, totalAllocated: nat, totalReserved: nat, device: Device)
    requires totalAllocated < INT64_LIMIT && totalReserved < INT64_LIMIT
    ensures ReportMemoryUsageV2(ptr, allocSize, totalAllocated, totalReserved, device)
         == ReportMemoryUsageV1(ptr, allocSize, totalAllocated, totalReserved, device)
  {
  }

  /** A total of 2^63 bytes or more reaches the callback as a negative number under PyTorch 2.x. */
  lemma HugeTotalWrapsNegative(ptr: nat, allocSize: int, totalAllocated: nat, totalReserved: nat, device: Device)
    requires IsCudaOrHip(device)
    requires INT64_LIMIT <= totalAllocated < U64_MODULUS
    ensures ReportMemoryUsageV2(ptr, allocSize, totalAllocated, totalReserved, device).value.totalAllocated < 0
  {
  }

  /** memoryProfilingEnabled: always on. */
  function MemoryProfilingEnabled(): (r: bool)
    ensures r
  {
    true
  }

  /** A signed decimal, as printf's %ld and %d print it. */
  function IntToString(i: int): (s: string)
    ensures |s| >= 1
  {
    if i < 0 then "-" + NatToString(-i) else NatToString(i)
  }

  /** A signed decimal opens with '-' exactly when it is negative. */
  lemma IntToStringSign(i: int)
    ensures IntToString(i)[0] == '-' <==> i < 0
  {
  }

  /** A signed decimal followed by text that does not open with a digit reads back unambiguously. */
  lemma IntPrefixUnique(a: int, b: int, x: string, y: string)
    requires IntToString(a) + x == IntToString(b) + y
    requires x != [] && !IsDigit(x[0]) && y != [] && !IsDigit(y[0])
    ensures a == b && x == y
  {
    IntPrefixSameSign(a, b, x, y);
    if a < 0 {
      AppendAssoc("-", NatToString(-a), x);
      AppendAssoc("-", NatToString(-b), y);
      LabelledNatUnique("-", -a, -b, x, y);
    } else {
      NatPrefixUnique(a, b, x, y);
    }
  }

  /** Two signed decimals that open equal texts have the same sign. */
  lemma IntPrefixSameSign(a: int, b: int, x: string, y: string)
    requires IntToString(a) + x == IntToString(b) + y
    ensures a < 0 <==> b < 0
  {
    IntToStringSign(a);
    IntToStringSign(b);
    assert (IntToString(a) + x)[0] == IntToString(a)[0];
    assert (IntToString(b) + y)[0] == IntToString(b)[0];
  }

  const MALLOC_HEAD: string := "Malloc tensor "
  const FREE_HEAD: string := "Free tensor "

  /**
   * The line tensor_malloc_callback or tensor_free_callback prints for an
   * event: the kind's opening, the pointer, then size, allocated and
   * reserved totals and device, each after its label.
   */
  function EventLine(e: TensorEvent): (line: string)
    ensures e.kind == Malloc ==> StartsWith(line, MALLOC_HEAD)
    ensures e.kind == Free ==> StartsWith(line, FREE_HEAD)
  {
    var head := if e.kind == Malloc then MALLOC_HEAD else FREE_HEAD;
    StartsWithConcat(head, EventFields(e));
    head + EventFields(e)
  }

  /** Everything after the opening, nested so that each field is followed by the rest of the line. */
  function EventFields(e: TensorEvent): string {
    NatToString(e.ptr) + (" with size " + (IntToString(e.bytes)
      + (", allocated " + (IntToString(e.totalAllocated)
      + (", reserved " + (IntToString(e.totalReserved)
      + (" on device " + (IntToString(e.deviceId) + "\n"))))))))
  }

  /** A printed line tells the two kinds of event apart. */
  lemma EventLineKind(e: TensorEvent)
    ensures StartsWith(EventLine(e), MALLOC_HEAD) <==> e.kind == Malloc
  {
    if e.kind == Free {
      assert EventLine(e)[0] == 'F';
    }
  }

  /**
   * The printed line determines the event: kind, pointer, size, both totals
   * and the device can all be read back from it.
   */
  lemma EventLineInjective(e1: TensorEvent, e2: TensorEvent)
    requires EventLine(e1) == EventLine(e2)
    ensures e1 == e2
  {
    EventLineKind(e1);
    EventLineKind(e2);
    var head := if e1.kind == Malloc then MALLOC_HEAD else FREE_HEAD;
    DropCommonPrefix(head, EventFields(e1), EventFields(e2));
    NatPrefixUnique(e1.ptr, e2.ptr,
      " with size " + (IntToString(e1.bytes) + (", allocated " + (IntToString(e1.totalAllocated)
        + (", reserved " + (IntToString(e1.totalReserved) + (" on device " + (IntToString(e1.deviceId) + "\n"))))))),
      " with size " + (IntToString(e2.bytes) + (", allocated " + (IntToString(e2.totalAllocated)
        + (", reserved " + (IntToString(e2.totalReserved) + (" on device " + (IntToString(e2.deviceId) + "\n"))))))));
    DropCommonPrefix(" with size ",
      IntToString(e1.bytes) + (", allocated " + (IntToString(e1.totalAllocated)
        + (", reserved " + (IntToString(e1.totalReserved) + (" on device " + (IntToString(e1.deviceId) + "\n")))))),
      IntToString(e2.bytes) + (", allocated " + (IntToString(e2.totalAllocated)
        + (", reserved " + (IntToString(e2.totalReserved) + (" on device " + (IntToString(e2.deviceId) + "\n")))))));
    IntPrefixUnique(e1.bytes, e2.bytes,
      ", allocated " + (IntToString(e1.totalAllocated) + (", reserved " + (IntToString(e1.totalReserved) + (" on device " + (IntToString(e1.deviceId) + "\n"))))),
      ", allocated " + (IntToString(e2.totalAllocated) + (", reserved " + (IntToString(e2.totalReserved) + (" on device " + (IntToString(e2.deviceId) + "\n"))))));
    DropCommonPrefix(", allocated ",
      IntToString(e1.totalAllocated) + (", reserved " + (IntToString(e1.totalReserved) + (" on device " + (IntToString(e1.deviceId) + "\n")))),
      IntToString(e2.totalAllocated) + (", reserved " + (IntToString(e2.totalReserved) + (" on device " + (IntToString(e2.deviceId) + "\n")))));
    IntPrefixUnique(e1.totalAllocated, e2.totalAllocated,
      ", reserved " + (IntToString(e1.totalReserved) + (" on device " + (IntToString(e1.deviceId) + "\n"))),
      ", reserved " + (IntToString(e2.totalReserved) + (" on device " + (IntToString(e2.deviceId) + "\n"))));
    DropCommonPrefix(", reserved ",
      IntToString(e1.totalReserved) + (" on device " + (IntToString(e1.deviceId) + "\n")),
      IntToString(e2.totalReserved) + (" on device " + (IntToString(e2.deviceId) + "\n")));
    IntPrefixUnique(e1.totalReserved, e2.totalReserved,
      " on device " + (IntToString(e1.deviceId) + "\n"),
      " on device " + (IntToString(e2.deviceId) + "\n"));
    DropCommonPrefix(" on device ", IntToString(e1.deviceId) + "\n", IntToString(e2.deviceId) + "\n");
    IntPrefixUnique(e1.deviceId, e2.deviceId, "\n", "\n");
  }

  /**
   * The load-time installer: the `installed` flag, the global holding the
   * profiler (g_prof), and how many times the profiler has been pushed as
   * the thread's profiler state.
   */
  class ProfilerInstaller {
    var installed: bool
    var profilerSet: bool
    var pushes: nat

    ghost predicate Valid()
      reads this
    {
      profilerSet == installed && pushes == (if installed then 1 else 0)
    }

    constructor ()
      ensures Valid() && !installed
    {
      installed := false;
      profilerSet := false;
      pushes := 0;
    }

    /**
     * tensor_scope_on_load: the first call sets the flag, stores the
     * profiler and pushes it; any later call returns at once and changes
     * nothing, so the profiler is pushed at most once.
     */
    method OnLoad()
      requires Valid()
      modifies this
      ensures Valid() && installed && pushes == 1
      ensures old(installed) ==> profilerSet == old(profilerSet) && pushes == old(pushes)
      ensures !old(installed) ==> pushes == old(pushes) + 1
    {
      var was := installed;
      installed := true;
      if was {
        return;
      }
      profilerSet := true;
      pushes := pushes + 1;
    }
  }
}
