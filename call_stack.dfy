/**
 * common/call_stack.hpp: the record type kept by the client (source_location),
 * the vector the client appends to (call_stack_t), and print_call_stack, which
 * chooses where the report goes and renders one numbered line per record.
 * Writing to the chosen stream is I/O; the model returns the text instead.
 */
module CallStack {
  import opened Util

  /** source_location: where a record was made and a free-form description. */
  datatype SourceLocation = SourceLocation(func: string, file: string, line: nat, context: string)

  /** call_stack_t: the vector of records shared by every callback of a session. */
  class CallStackVec {
    var records: seq<SourceLocation>

    constructor (initial: seq<SourceLocation>)
      ensures records == initial
    {
      records := initial;
    }

    /** emplace_back: one record at the end, nothing else changes. */
    method Append(loc: SourceLocation)
      modifies this
      ensures records == old(records) + [loc]
    {
      records := records + [loc];
    }
  }

  /** The stream the report goes to. */
  datatype Stream = Stdout | Stderr | OutFile(path: string)

  /** The stream chosen, the name announced for it, and the complaint written to stderr (empty if none). */
  datatype Destination = Destination(stream: Stream, name: string, complaint: string)

  /** The environment variable that overrides the caller's output name. */
  const OUTPUT_ENV_VARIABLE: string := "ROCPROFILER_SAMPLE_OUTPUT_FILE"

  /** The announced name is the one that designates the stream actually used. */
  predicate Designates(s: Stream, name: string) {
    match s
    case Stdout => name == "stdout"
    case Stderr => name == "stderr"
    case OutFile(path) => name == path && name != "stdout" && name != "stderr"
  }

  /**
   * The value of the environment variable, when it is set (even to the empty
   * string), replaces the caller's name.
   */
  function OutputName(defaultName: string, env: Option<string>): (name: string)
    ensures env.Some? ==> name == env.value
    ensures env.None? ==> name == defaultName
  {
    match env
    case Some(v) => v
    case None => defaultName
  }

  /**
   * "stdout" and "stderr" select the standard streams; any other name is
   * opened as a file, and when that fails (`opens` is false) the report goes
   * to stderr under the name "stderr", after a complaint on stderr.
   */
  function SelectDestination(name: string, opens: bool): (d: Destination)
    ensures Designates(d.stream, d.name)
    ensures name == "stdout" ==> d.stream == Stdout
    ensures name == "stderr" ==> d.stream == Stderr
    ensures name != "stdout" && name != "stderr" && opens ==> d.stream == OutFile(name)
    ensures name != "stdout" && name != "stderr" && !opens ==>
      d.stream == Stderr && d.complaint == "Error outputting to " + name + ". Redirecting to stderr...\n"
    ensures d.complaint != "" <==> name != "stdout" && name != "stderr" && !opens
  {
    if name == "stdout" then Destination(Stdout, name, "")
    else if name == "stderr" then Destination(Stderr, name, "")
    else if opens then Destination(OutFile(name), name, "")
    else Destination(Stderr, "stderr", "Error outputting to " + name + ". Redirecting to stderr...\n")
  }

  /**
   * The fixed part of the line for the `n`-th of `total` records:
   * `n/total [file:line] function`, where the number and the total are
   * left-justified to width 2, the file is the quoted last path component and
   * the function is left-justified to width 20.
   */
  function LineHead(n: nat, total: nat, loc: SourceLocation): string {
    PadRight(NatToString(n), 2) + LineSite(total, loc)
  }

  /** What follows the record number: `/total [file:line] function`. */
  function LineSite(total: nat, loc: SourceLocation): string {
    "/" + PadRight(NatToString(total), 2)
      + " [" + Quoted(Filename(loc.file)) + ":" + NatToString(loc.line) + "] "
      + PadRight(loc.func, 20)
  }

  /** The text after the fixed part of a line: " :: context" when the context is not empty. */
  function ContextSuffix(context: string): string {
    if context != "" then " :: " + context else ""
  }

  /** One line of the report: the fixed part, " :: context" when there is a context, a newline. */
  function RenderLine(n: nat, total: nat, loc: SourceLocation): string {
    LineHead(n, total, loc) + ContextSuffix(loc.context) + "\n"
  }

  /**
   * A rendered line starts with the record's number, in digits that read back
   * as that number and are followed by a blank or by '/'.
   */
  lemma RenderLineNumber(n: nat, total: nat, loc: SourceLocation)
    ensures var line := RenderLine(n, total, loc);
      var digits := NatToString(n);
      && StartsWith(line, digits)
      && (line[|digits|] == ' ' || line[|digits|] == '/')
      && DecimalValue(digits) == n
  {
    var digits := NatToString(n);
    var pad := PadRight(digits, 2);
    var site := LineSite(total, loc);
    var tail := ContextSuffix(loc.context) + "\n";
    var line := RenderLine(n, total, loc);
    assert line == pad + site + tail;
    assert |digits| <= |pad|;
    assert line[..|digits|] == pad[..|digits|] == digits;
    if |digits| < 2 {
      assert line[|digits|] == pad[|digits|] == ' ';
    } else {
      assert |pad| == |digits| && site[0] == '/';
      assert line[|digits|] == site[0];
    }
    DecimalRoundTrip(n);
  }

  /**
   * Lemma-only regroupings of a line, one field onward at a time, each
   * opening with a character no earlier field can run into: what follows the
   * record number ('/'), the total (' '), the file name ('"'), the line
   * number (']').
   */
  function SiteOnward(total: nat, file: string, line: nat, func: string, context: string): string {
    "/" + (PadRight(NatToString(total), 2) + FileOnward(file, line, func, context))
  }

  function FileOnward(file: string, line: nat, func: string, context: string): string {
    " [" + ("\"" + (file + ("\"" + LineOnward(line, func, context))))
  }

  function LineOnward(line: nat, func: string, context: string): string {
    ":" + (NatToString(line) + FuncOnward(func, context))
  }

  function FuncOnward(func: string, context: string): string {
    "] " + (PadRight(func, 20) + (ContextSuffix(context) + "\n"))
  }

  /** For a file name with nothing to escape, a line is its number left-justified to width 2, then SiteOnward. */
  lemma RenderLineSplit(n: nat, total: nat, loc: SourceLocation)
    requires forall i :: 0 <= i < |Filename(loc.file)| ==> !NeedsEscape(Filename(loc.file)[i])
    ensures RenderLine(n, total, loc) ==
      PadRight(NatToString(n), 2) + SiteOnward(total, Filename(loc.file), loc.line, loc.func, loc.context)
  {
    var f := Filename(loc.file);
    QuotedPlain(f);
    var p1, p2, nl, p3 := PadRight(NatToString(n), 2), PadRight(NatToString(total), 2), NatToString(loc.line), PadRight(loc.func, 20);
    var cs := ContextSuffix(loc.context);
    var site := LineSite(total, loc);
    assert site == "/" + p2 + " [" + ("\"" + f + "\"") + ":" + nl + "] " + p3;
    AppendAssoc(p1 + site, cs, "\n");
    AppendAssoc(p1, site, cs + "\n");
    RegroupSite(p2, f, nl, p3, cs + "\n");
  }

  /** The fields of LineSite followed by `t`, regrouped from the right. */
  lemma RegroupSite(p2: string, f: string, nl: string, p3: string, t: string)
    ensures ("/" + p2 + " [" + ("\"" + f + "\"") + ":" + nl + "] " + p3) + t
      == "/" + (p2 + (" [" + ("\"" + (f + ("\"" + (":" + (nl + ("] " + (p3 + t)))))))))
  {
    var x2 := "/" + p2 + " [";
    var x4 := x2 + ("\"" + f + "\"") + ":";
    var lo := ":" + (nl + ("] " + (p3 + t)));
    RegroupField(x4 + nl, "] ", p3, t);
    AppendAssoc(x4, nl, "] " + (p3 + t));
    AppendAssoc(x2 + ("\"" + f + "\""), ":", nl + ("] " + (p3 + t)));
    AppendAssoc(x2, "\"" + f + "\"", lo);
    RegroupField([], "\"", f, "\"" + lo);
    AppendAssoc("\"" + f, "\"", lo);
    assert [] + "\"" + f == "\"" + f;
    RegroupField([], "/", p2, " [" + ("\"" + (f + ("\"" + lo))));
    AppendAssoc("/" + p2, " [", "\"" + (f + ("\"" + lo)));
    assert [] + "/" + p2 == "/" + p2;
  }

  /**
   * A file name with no double quote, followed by a double quote, reads back
   * unambiguously: the name ends at the first double quote.
   */
  lemma QuotedNameUnique(f1: string, f2: string, x: string, y: string)
    requires forall i :: 0 <= i < |f1| ==> !NeedsEscape(f1[i])
    requires forall i :: 0 <= i < |f2| ==> !NeedsEscape(f2[i])
    requires f1 + ("\"" + x) == f2 + ("\"" + y)
    ensures f1 == f2 && x == y
  {
    var s1, s2 := f1 + ("\"" + x), f2 + ("\"" + y);
    QuoteEndsName(f1, f2, x, y);
    QuoteEndsName(f2, f1, y, x);
    if |f1| != |f2| {
      assert false;
    }
    assert f1 == s1[..|f1|] && f2 == s2[..|f2|];
    DropCommonPrefix(f1, "\"" + x, "\"" + y);
    DropCommonPrefix("\"", x, y);
  }

  /** Where the shorter name ends, the longer one would have to hold a double quote. */
  lemma QuoteEndsName(f1: string, f2: string, x: string, y: string)
    ensures |f1| < |f2| && f1 + ("\"" + x) == f2 + ("\"" + y) ==> f2[|f1|] == '"'
  {
    if |f1| < |f2| && f1 + ("\"" + x) == f2 + ("\"" + y) {
      assert (f1 + ("\"" + x))[|f1|] == '"';
      assert (f2 + ("\"" + y))[|f1|] == f2[|f1|];
    }
  }

  /**
   * Two lines of the report with the same function field (and file names
   * with nothing to escape) agree on every other field: the record number,
   * the total, the file name, the line number and the context all read back
   * from the line.
   */
  lemma RenderLineInjective(n1: nat, t1: nat, l1: SourceLocation, n2: nat, t2: nat, l2: SourceLocation)
    requires forall i :: 0 <= i < |Filename(l1.file)| ==> !NeedsEscape(Filename(l1.file)[i])
    requires forall i :: 0 <= i < |Filename(l2.file)| ==> !NeedsEscape(Filename(l2.file)[i])
    requires l1.func == l2.func
    requires RenderLine(n1, t1, l1) == RenderLine(n2, t2, l2)
    ensures n1 == n2 && t1 == t2
    ensures Filename(l1.file) == Filename(l2.file) && l1.line == l2.line && l1.context == l2.context
  {
    var f1, f2 := Filename(l1.file), Filename(l2.file);
    var s1, s2 := SiteOnward(t1, f1, l1.line, l1.func, l1.context), SiteOnward(t2, f2, l2.line, l2.func, l2.context);
    RenderLineSplit(n1, t1, l1);
    RenderLineSplit(n2, t2, l2);
    assert s1[0] == '/' && s2[0] == '/';
    PaddedPrefixUnique(n1, n2, 2, s1, s2);
    FileOnwardInjective(t1, f1, l1, t2, f2, l2);
  }

  lemma FileOnwardInjective(t1: nat, f1: string, l1: SourceLocation, t2: nat, f2: string, l2: SourceLocation)
    requires forall i :: 0 <= i < |f1| ==> !NeedsEscape(f1[i])
    requires forall i :: 0 <= i < |f2| ==> !NeedsEscape(f2[i])
    requires l1.func == l2.func
    requires SiteOnward(t1, f1, l1.line, l1.func, l1.context) == SiteOnward(t2, f2, l2.line, l2.func, l2.context)
    ensures t1 == t2 && f1 == f2 && l1.line == l2.line && l1.context == l2.context
  {
    var g1, g2 := FileOnward(f1, l1.line, l1.func, l1.context), FileOnward(f2, l2.line, l2.func, l2.context);
    var lo1, lo2 := LineOnward(l1.line, l1.func, l1.context), LineOnward(l2.line, l2.func, l2.context);
    assert g1[0] == ' ' && g2[0] == ' ';
    LabelledPaddedUnique("/", t1, t2, 2, g1, g2);
    DropCommonPrefix(" [", "\"" + (f1 + ("\"" + lo1)), "\"" + (f2 + ("\"" + lo2)));
    DropCommonPrefix("\"", f1 + ("\"" + lo1), f2 + ("\"" + lo2));
    QuotedNameUnique(f1, f2, lo1, lo2);
    LineOnwardInjective(l1, l2);
  }

  lemma LineOnwardInjective(l1: SourceLocation, l2: SourceLocation)
    requires l1.func == l2.func
    requires LineOnward(l1.line, l1.func, l1.context) == LineOnward(l2.line, l2.func, l2.context)
    ensures l1.line == l2.line && l1.context == l2.context
  {
    var fo1, fo2 := FuncOnward(l1.func, l1.context), FuncOnward(l2.func, l2.context);
    assert fo1[0] == ']' && fo2[0] == ']';
    LabelledNatUnique(":", l1.line, l2.line, fo1, fo2);
    var p := PadRight(l1.func, 20);
    DropCommonPrefix("] ", p + (ContextSuffix(l1.context) + "\n"), p + (ContextSuffix(l2.context) + "\n"));
    DropCommonPrefix(p, ContextSuffix(l1.context) + "\n", ContextSuffix(l2.context) + "\n");
    DropCommonSuffix(ContextSuffix(l1.context), ContextSuffix(l2.context), "\n");
    if l1.context != "" && l2.context != "" {
      DropCommonPrefix(" :: ", l1.context, l2.context);
    }
  }

  /** " :: context" is appended to the fixed part exactly when the context is not empty. */
  lemma RenderLineContext(n: nat, total: nat, loc: SourceLocation)
    ensures loc.context != "" ==> RenderLine(n, total, loc) == LineHead(n, total, loc) + " :: " + loc.context + "\n"
    ensures loc.context == "" ==> RenderLine(n, total, loc) == LineHead(n, total, loc) + "\n"
    ensures loc.context != "" ==> EndsWith(RenderLine(n, total, loc), " :: " + loc.context + "\n")
  {
    if loc.context != "" {
      EndsWithConcat(LineHead(n, total, loc), " :: " + loc.context + "\n");
    }
  }

  /** The line for record `i` (from 0) of the stack: number i + 1 of |stack|. */
  function LineAt(stack: seq<SourceLocation>, i: nat): string
    requires i < |stack|
  {
    RenderLine(i + 1, |stack|, stack[i])
  }

  /** The values of `f` at 0, 1, ..., k - 1, in that order. */
  function Tabulate<T>(k: nat, f: nat -> T): (r: seq<T>)
    ensures |r| == k
  {
    if k == 0 then [] else Tabulate(k - 1, f) + [f(k - 1)]
  }

  lemma {:induction false} TabulateAt<T>(k: nat, f: nat -> T, i: nat)
    requires i < k
    ensures Tabulate(k, f)[i] == f(i)
  {
    if i < k - 1 {
      TabulateAt(k - 1, f, i);
    }
  }

  /** LineAt as a total function of the position; past the end it is never used. */
  function LineOf(stack: seq<SourceLocation>): nat -> string {
    (i: nat) => if i < |stack| then LineAt(stack, i) else ""
  }

  /** The report's first `k` lines, in vector order. */
  function Lines(stack: seq<SourceLocation>, k: nat): (lines: seq<string>)
    requires k <= |stack|
  {
    Tabulate(k, LineOf(stack))
  }

  /** One line per record, in vector order: line i renders record i as number i + 1 of |stack|. */
  lemma LinesNumbered(stack: seq<SourceLocation>, k: nat, i: nat)
    requires i < k <= |stack|
    ensures |Lines(stack, k)| == k
    ensures Lines(stack, k)[i] == LineAt(stack, i)
  {
    TabulateAt(k, LineOf(stack), i);
  }

  /**
   * print_call_stack: resolve the output name, choose the stream, announce it
   * on stdout, then render the records in vector order with the counter `n`.
   * `env` is the environment variable's value and `opens` whether the file
   * could be opened; the returned lines are what is written to the stream.
   */
  method PrintCallStack(ofname: string, stack: seq<SourceLocation>, env: Option<string>, opens: bool)
    returns (dest: Destination, banner: string, lines: seq<string>)
    ensures dest == SelectDestination(OutputName(ofname, env), opens)
    ensures Designates(dest.stream, dest.name)
    ensures banner == "Outputting collected data to " + dest.name + "...\n"
    ensures lines == Lines(stack, |stack|)
  {
    var name := ofname;
    if env.Some? {
      name := env.value;
    }
    dest := SelectDestination(name, opens);
    banner := "Outputting collected data to " + dest.name + "...\n";
    var n := 0;
    lines := [];
    while n < |stack|
      invariant 0 <= n <= |stack|
      invariant lines == Lines(stack, n)
    {
      lines := lines + [LineAt(stack, n)];
      n := n + 1;
    }
  }
}
