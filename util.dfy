/**
 * Small value helpers shared by the client model: an Option type, the decimal
 * rendering that `operator<<` gives an unsigned integer, the padding that
 * `std::setw` applies, and the quoting that `operator<<` applies to a path.
 */
module Util {

  datatype Option<+T> = None | Some(value: T)

  /** The unsigned 64-bit range (uint64_t, size_t, a pointer's bits). */
  const U64_MODULUS: int := 0x1_0000_0000_0000_0000
  /** The signed 64-bit range is [-INT64_LIMIT, INT64_LIMIT). */
  const INT64_LIMIT: int := 0x8000_0000_0000_0000

  predicate IsDigit(c: char) { '0' <= c <= '9' }

  predicate IsDecimal(s: string) {
    forall i :: 0 <= i < |s| ==> IsDigit(s[i])
  }

  function DigitChar(d: nat): (c: char)
    requires d < 10
    ensures IsDigit(c) && (c as int) - ('0' as int) == d
  {
    (('0' as int) + d) as char
  }

  /** The decimal digits of `n`, most significant first, with no leading zero. */
  function NatToString(n: nat): (s: string)
    ensures |s| >= 1 && IsDecimal(s)
    ensures s[0] == '0' ==> n == 0
    decreases n
  {
    if n < 10 then [DigitChar(n)] else NatToString(n / 10) + [DigitChar(n % 10)]
  }

  /** The number a string of decimal digits denotes: the reader for NatToString. */
  function DecimalValue(s: string): nat
    requires IsDecimal(s)
  {
    if s == [] then 0 else DecimalValue(s[..|s| - 1]) * 10 + ((s[|s| - 1] as int) - ('0' as int))
  }

  /** Reading back the rendering of `n` gives `n`, so distinct numbers render differently. */
  lemma {:induction false} DecimalRoundTrip(n: nat)
    ensures DecimalValue(NatToString(n)) == n
  {
    var s := NatToString(n);
    if n >= 10 {
      assert s[..|s| - 1] == NatToString(n / 10);
      DecimalRoundTrip(n / 10);
    }
  }

  lemma NatToStringInjective(m: nat, n: nat)
    requires NatToString(m) == NatToString(n)
    ensures m == n
  {
    DecimalRoundTrip(m);
    DecimalRoundTrip(n);
  }

  /** Concatenation regroups freely. */
  lemma AppendAssoc<T>(a: seq<T>, b: seq<T>, c: seq<T>)
    ensures (a + b) + c == a + (b + c)
  {
  }

  /** `h + a + b + t` regrouped as `h + (a + (b + t))`. */
  lemma RegroupField(h: string, a: string, b: string, t: string)
    ensures h + a + b + t == h + (a + (b + t))
  {
    AppendAssoc(h + a, b, t);
    AppendAssoc(h, a, b + t);
  }

  /** Two texts that agree before a common suffix are equal. */
  lemma DropCommonSuffix(x: string, y: string, q: string)
    requires x + q == y + q
    ensures x == y
  {
    assert x == (x + q)[..|x|];
    assert y == (y + q)[..|y|];
  }

  /** Two texts that agree after a common prefix are equal. */
  lemma DropCommonPrefix(p: string, x: string, y: string)
    requires p + x == p + y
    ensures x == y
  {
    assert x == (p + x)[|p|..];
    assert y == (p + y)[|p|..];
  }

  /** The length of the run of digits a text opens with. */
  function DigitRun(w: string): nat {
    if w == [] || !IsDigit(w[0]) then 0 else 1 + DigitRun(w[1..])
  }

  /** Digits followed by text that does not open with a digit: the run is exactly the digits. */
  lemma {:induction false} LeadingDigits(s: string, x: string)
    requires IsDecimal(s) && (x == [] || !IsDigit(x[0]))
    ensures DigitRun(s + x) == |s|
  {
    if s == [] {
      assert s + x == x;
    } else {
      assert (s + x)[1..] == s[1..] + x;
      LeadingDigits(s[1..], x);
    }
  }

  /**
   * A number's digits followed by text that does not open with a digit can
   * be read back unambiguously: the digits end where the text begins.
   */
  lemma NatPrefixUnique(a: nat, b: nat, x: string, y: string)
    requires NatToString(a) + x == NatToString(b) + y
    requires (x == [] || !IsDigit(x[0])) && (y == [] || !IsDigit(y[0]))
    ensures a == b && x == y
  {
    var sa, sb := NatToString(a), NatToString(b);
    LeadingDigits(sa, x);
    LeadingDigits(sb, y);
    assert sa == (sa + x)[..|sa|];
    assert sb == (sb + y)[..|sb|];
    NatToStringInjective(a, b);
    DropCommonPrefix(sa, x, y);
  }

  function Spaces(k: nat): (s: string)
    ensures |s| == k
  {
    if k == 0 then "" else Spaces(k - 1) + " "
  }

  /** Every character of `Spaces(k)` is a blank. */
  lemma {:induction false} SpacesAreBlank(k: nat)
    ensures forall i :: 0 <= i < k ==> Spaces(k)[i] == ' '
  {
    if k > 0 {
      SpacesAreBlank(k - 1);
      assert forall i :: 0 <= i < k - 1 ==> Spaces(k)[i] == Spaces(k - 1)[i];
    }
  }

  /** `std::left << std::setw(w) << s`: `s`, then blanks up to width `w`; never truncated. */
  function PadRight(s: string, w: nat): (r: string)
    ensures |r| == if |s| < w then w else |s|
    ensures r[..|s|] == s
  {
    if |s| < w then s + Spaces(w - |s|) else s
  }

  /**
   * Left adjustment in full: the width is `w` or the text's own length,
   * whichever is larger; the text comes first and every fill character
   * after it is a blank.
   */
  lemma PadRightLayout(s: string, w: nat)
    ensures |PadRight(s, w)| == if |s| < w then w else |s|
    ensures PadRight(s, w)[..|s|] == s
    ensures forall i :: |s| <= i < |PadRight(s, w)| ==> PadRight(s, w)[i] == ' '
  {
    if |s| < w {
      SpacesAreBlank(w - |s|);
      assert forall i :: |s| <= i < w ==> PadRight(s, w)[i] == Spaces(w - |s|)[i - |s|];
    }
  }

  /** `std::setw(w) << s` on a stream with the default (right) adjustment. */
  function PadLeft(s: string, w: nat): (r: string)
    ensures |r| == if |s| < w then w else |s|
    ensures r[|r| - |s|..] == s
  {
    if |s| < w then Spaces(w - |s|) + s else s
  }

  /**
   * Right adjustment in full: the width is `w` or the text's own length,
   * whichever is larger; every fill character before the text is a blank,
   * and the text ends the field.
   */
  lemma PadLeftLayout(s: string, w: nat)
    ensures |PadLeft(s, w)| == if |s| < w then w else |s|
    ensures PadLeft(s, w)[|PadLeft(s, w)| - |s|..] == s
    ensures forall i :: 0 <= i < |PadLeft(s, w)| - |s| ==> PadLeft(s, w)[i] == ' '
  {
    if |s| < w {
      SpacesAreBlank(w - |s|);
    }
  }

  /** Left adjustment appends as many blanks as the width lacks. */
  lemma PadRightSplit(s: string, w: nat)
    ensures PadRight(s, w) == s + Spaces(if |s| < w then w - |s| else 0)
  {
    if |s| >= w {
      assert s + Spaces(0) == s;
    }
  }

  /**
   * A number left-justified in a field and followed by text that opens with
   * neither a digit nor a blank reads back unambiguously.
   */
  lemma PaddedPrefixUnique(a: nat, b: nat, w: nat, x: string, y: string)
    requires PadRight(NatToString(a), w) + x == PadRight(NatToString(b), w) + y
    requires (x == [] || !IsDigit(x[0])) && (y == [] || !IsDigit(y[0]))
    ensures a == b && x == y
  {
    var sa, sb := NatToString(a), NatToString(b);
    var ka, kb := (if |sa| < w then w - |sa| else 0), (if |sb| < w then w - |sb| else 0);
    PaddedTail(sa, w, x);
    PaddedTail(sb, w, y);
    NatPrefixUnique(a, b, Spaces(ka) + x, Spaces(kb) + y);
    DropCommonPrefix(Spaces(ka), x, y);
  }

  /** A left-justified text followed by `x` splits into the text and a tail that opens with no digit. */
  lemma PaddedTail(s: string, w: nat, x: string)
    requires x == [] || !IsDigit(x[0])
    ensures PadRight(s, w) + x == s + (Spaces(if |s| < w then w - |s| else 0) + x)
    ensures var t := Spaces(if |s| < w then w - |s| else 0) + x; t == [] || !IsDigit(t[0])
  {
    var k := if |s| < w then w - |s| else 0;
    PadRightSplit(s, w);
    SpacesAreBlank(k);
    if k > 0 {
      assert (Spaces(k) + x)[0] == Spaces(k)[0];
    } else {
      assert Spaces(k) + x == x;
    }
  }

  /** A head text, a number and the rest read back unambiguously when the rest opens with no digit. */
  lemma LabelledNatUnique(head: string, a: nat, b: nat, x: string, y: string)
    requires head + (NatToString(a) + x) == head + (NatToString(b) + y)
    requires (x == [] || !IsDigit(x[0])) && (y == [] || !IsDigit(y[0]))
    ensures a == b && x == y
  {
    DropCommonPrefix(head, NatToString(a) + x, NatToString(b) + y);
    NatPrefixUnique(a, b, x, y);
  }

  /** The same with the number left-justified in a field of width `w`. */
  lemma LabelledPaddedUnique(head: string, a: nat, b: nat, w: nat, x: string, y: string)
    requires head + (PadRight(NatToString(a), w) + x) == head + (PadRight(NatToString(b), w) + y)
    requires (x == [] || !IsDigit(x[0])) && (y == [] || !IsDigit(y[0]))
    ensures a == b && x == y
  {
    DropCommonPrefix(head, PadRight(NatToString(a), w) + x, PadRight(NatToString(b), w) + y);
    PaddedPrefixUnique(a, b, w, x, y);
  }

  /** The length of the run of blanks a text opens with. */
  function BlankRun(w: string): nat {
    if w == [] || w[0] != ' ' then 0 else 1 + BlankRun(w[1..])
  }

  /** Blanks followed by text that does not open with a blank: the run is exactly the blanks. */
  lemma {:induction false} LeadingBlanks(k: nat, x: string)
    requires x == [] || x[0] != ' '
    ensures BlankRun(Spaces(k) + x) == k
  {
    SpacesAreBlank(k);
    if k == 0 {
      assert Spaces(k) + x == x;
    } else {
      assert Spaces(k) == [' '] + Spaces(k - 1) by {
        SpacesAreBlank(k - 1);
      }
      assert (Spaces(k) + x)[1..] == Spaces(k - 1) + x;
      LeadingBlanks(k - 1, x);
    }
  }

  /** Two numbers right-justified in fields of the same width read the same only when they are equal. */
  lemma PadLeftInjective(a: nat, b: nat, w: nat)
    requires PadLeft(NatToString(a), w) == PadLeft(NatToString(b), w)
    ensures a == b
  {
    var ka := PaddedLeftDigits(a, w);
    var kb := PaddedLeftDigits(b, w);
    DropCommonPrefix(Spaces(ka), NatToString(a), NatToString(b));
    NatToStringInjective(a, b);
  }

  /** A number right-justified in a field is its blanks, counted by the leading run, then its digits. */
  lemma PaddedLeftDigits(a: nat, w: nat) returns (k: nat)
    ensures PadLeft(NatToString(a), w) == Spaces(k) + NatToString(a)
    ensures BlankRun(PadLeft(NatToString(a), w)) == k
  {
    var s := NatToString(a);
    k := if |s| < w then w - |s| else 0;
    if |s| >= w {
      assert Spaces(0) + s == s;
    }
    assert IsDigit(s[0]);
    LeadingBlanks(k, s);
  }

  predicate StartsWith(s: string, prefix: string) {
    |prefix| <= |s| && s[..|prefix|] == prefix
  }

  predicate EndsWith(s: string, suffix: string) {
    |suffix| <= |s| && s[|s| - |suffix|..] == suffix
  }

  lemma EndsWithConcat(a: string, b: string)
    ensures EndsWith(a + b, b)
  {
    assert (a + b)[|a + b| - |b|..] == b;
  }

  lemma StartsWithConcat(a: string, b: string)
    ensures StartsWith(a + b, a)
  {
    assert (a + b)[..|a|] == a;
  }

  /** The texts `f` gives the elements of `xs`, one after the other. */
  function ConcatMap<T>(xs: seq<T>, f: T -> string): string {
    if xs == [] then "" else ConcatMap(xs[..|xs| - 1], f) + f(xs[|xs| - 1])
  }

  lemma {:induction false} ConcatMapAppend<T>(a: seq<T>, b: seq<T>, f: T -> string)
    ensures ConcatMap(a + b, f) == ConcatMap(a, f) + ConcatMap(b, f)
    decreases |b|
  {
    if b != [] {
      var b' := b[..|b| - 1];
      assert (a + b)[..|a + b| - 1] == a + b';
      ConcatMapAppend(a, b', f);
    } else {
      assert a + b == a;
    }
  }

  /** `std::quoted`: the text between double quotes, with `"` and `\` escaped by a backslash. */
  function Quoted(s: string): (r: string)
    ensures |r| >= 2 + |s| && r[0] == '"' && r[|r| - 1] == '"'
    ensures r[1..|r| - 1] == Escaped(s)
  {
    "\"" + Escaped(s) + "\""
  }

  /** The characters `std::quoted` escapes. */
  predicate NeedsEscape(c: char) {
    c == '"' || c == '\\'
  }

  /** The text with a backslash before every `"` and `\`. */
  function Escaped(s: string): (r: string)
    ensures |r| >= |s|
  {
    if s == [] then ""
    else Escaped(s[..|s| - 1]) + (if NeedsEscape(s[|s| - 1]) then ['\\', s[|s| - 1]] else [s[|s| - 1]])
  }

  /** A text with no `"` and no `\` is its own escape, so it is quoted exactly as written. */
  lemma {:induction false} QuotedPlain(s: string)
    requires forall i :: 0 <= i < |s| ==> !NeedsEscape(s[i])
    ensures Escaped(s) == s
    ensures Quoted(s) == "\"" + s + "\""
  {
    if s != [] {
      QuotedPlain(s[..|s| - 1]);
      assert s == s[..|s| - 1] + [s[|s| - 1]];
    }
  }

  /** The last component of a '/'-separated path (`path::filename()`); empty when the path ends in '/'. */
  function Filename(path: string): string {
    if path == [] || path[|path| - 1] == '/' then ""
    else Filename(path[..|path| - 1]) + [path[|path| - 1]]
  }

  /**
   * The file name is a suffix of the path and holds no '/', and it is the
   * longest such suffix: it is the whole path or the character before it is
   * a '/'.
   */
  lemma {:induction false} FilenameIsLastComponent(path: string)
    ensures |Filename(path)| <= |path| && EndsWith(path, Filename(path))
    ensures forall i :: 0 <= i < |Filename(path)| ==> Filename(path)[i] != '/'
    ensures |Filename(path)| == |path| || path[|path| - |Filename(path)| - 1] == '/'
  {
    if path != [] && path[|path| - 1] != '/' {
      var init := path[..|path| - 1];
      var c := path[|path| - 1];
      FilenameIsLastComponent(init);
      FilenameStep(path, init, Filename(init), c);
    }
  }

  /** Appending one character other than '/' to a path and to its file name keeps the three properties. */
  lemma FilenameStep(path: string, init: string, f: string, c: char)
    requires path == init + [c] && c != '/'
    requires |f| <= |init| && EndsWith(init, f)
    requires forall i :: 0 <= i < |f| ==> f[i] != '/'
    requires |f| == |init| || init[|init| - |f| - 1] == '/'
    ensures |f + [c]| <= |path| && EndsWith(path, f + [c])
    ensures forall i :: 0 <= i < |f + [c]| ==> (f + [c])[i] != '/'
    ensures |f + [c]| == |path| || path[|path| - |f + [c]| - 1] == '/'
  {
    assert path[|path| - |f + [c]|..] == init[|init| - |f|..] + [c];
  }
}
