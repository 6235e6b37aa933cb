/**
 * The status-check macros of common/defines.hpp. A host call yields a status;
 * ROCPROFILER_CALL and ROCPROFILER_CHECK turn a failing status into a thrown
 * std::runtime_error (here: an Outcome that is Fail), ROCPROFILER_WARN only
 * writes a warning to the error stream and carries on.
 */
module Defines {
  import opened Util

  /** A rocprofiler_status_t: success (enumerator 0), or an error enumerator with the host's status string for it. */
  datatype Status = Success | Failure(code: nat, name: string)

  /** The enumerator's numeric value, as `operator<<` prints it. */
  function StatusCode(st: Status): nat {
    match st
    case Success => 0
    case Failure(code, _) => code
  }

  /** What rocprofiler_get_status_string answers for the status. */
  function StatusString(st: Status): string {
    match st
    case Success => "ROCPROFILER_STATUS_SUCCESS"
    case Failure(_, name) => name
  }

  /** Whether a step completed or threw a std::runtime_error carrying `message`. */
  datatype Outcome = Pass | Fail(message: string)

  /** The `__FILE__` and `__LINE__` of a macro's expansion. */
  datatype Site = Site(file: string, line: nat)

  /**
   * ROCPROFILER_CALL(result, msg): nothing happens on success; otherwise it
   * throws "[<result>][<file>:<line>] <msg> failure (<status string>)".
   */
  function Call(st: Status, expr: string, site: Site, msg: string): (r: Outcome)
    ensures r.Pass? <==> st.Success?
    ensures r.Fail? ==> StartsWith(r.message, "[" + expr + "][" + site.file + ":")
    ensures r.Fail? ==> EndsWith(r.message, CallSuffix(msg, st))
  {
    if st.Success? then Pass
    else
      var head := "[" + expr + "][" + site.file + ":";
      var tail := CallSuffix(msg, st);
      StartsWithConcat(head, NatToString(site.line) + tail);
      EndsWithConcat(head + NatToString(site.line), tail);
      Fail(head + (NatToString(site.line) + tail))
  }

  /** How a ROCPROFILER_CALL failure message ends: the caller's message and the status string. */
  function CallSuffix(msg: string, st: Status): string {
    "] " + msg + " failure (" + StatusString(st) + ")"
  }

  /**
   * ROCPROFILER_CHECK(result): nothing happens on success; otherwise it throws
   * "[<file>:<line>] <result> failed with error code <code> :: <status string>".
   */
  function Check(st: Status, expr: string, site: Site): (r: Outcome)
    ensures r.Pass? <==> st.Success?
    ensures r.Fail? ==> StartsWith(r.message, "[" + site.file + ":")
    ensures r.Fail? ==> EndsWith(r.message, " failed with error code " + NatToString(StatusCode(st)) + " :: " + StatusString(st))
  {
    if st.Success? then Pass
    else
      var head := "[" + site.file + ":";
      var tail := " failed with error code " + NatToString(StatusCode(st)) + " :: " + StatusString(st);
      var middle := NatToString(site.line) + "] " + expr;
      StartsWithConcat(head, middle + tail);
      EndsWithConcat(head + middle, tail);
      Fail(head + (middle + tail))
  }

  /**
   * ROCPROFILER_WARN(result): never throws, whatever the status; the result is
   * the line it writes to the error stream, which is empty exactly on success.
   */
  function Warn(st: Status, expr: string, site: Site): (line: string)
    ensures line == "" <==> st.Success?
    ensures !st.Success? ==> EndsWith(line, ": " + StatusString(st) + ". This is just a warning!\n")
  {
    if st.Success? then ""
    else
      var head := "[" + site.file + ":" + NatToString(site.line) + "] " + expr
        + " returned error code " + NatToString(StatusCode(st));
      var tail := ": " + StatusString(st) + ". This is just a warning!\n";
      EndsWithConcat(head, tail);
      head + tail
  }

  /** The pinned-host allocator and deallocator of HIP_HOST_ALLOC_FUNC and HIP_HOST_FREE_FUNC. */
  datatype HostMemoryFuncs = HostMemoryFuncs(alloc: string, free: string)

  /** Both sides of the HIP 6.3 version test define the same pair of names. */
  function HostMemoryFunctions(hipVersion: nat): (f: HostMemoryFuncs)
    ensures f.alloc == "hipHostMalloc" && f.free == "hipHostFree"
  {
    if hipVersion >= 60300000 then HostMemoryFuncs("hipHostMalloc", "hipHostFree")
    else HostMemoryFuncs("hipHostMalloc", "hipHostFree")
  }
}
