/** Ruby's string operations as the gateway's code uses them, on `seq<char>`. */
module Text {
  import opened Common

  /** The white space that Ruby's `strip` removes and Rails' `blank?` looks for. */
  predicate IsSpace(c: char) {
    c == ' ' || c == '\t' || c == '\n' || c == '\r' || c == '\U{000B}' || c == '\U{000C}'
  }

  /** Ruby's `lstrip`: drops the leading white space. */
  function LStrip(s: string): (r: string)
    ensures |r| <= |s| && r == s[|s| - |r|..]
    ensures r == [] || !IsSpace(r[0])
    ensures forall i :: 0 <= i < |s| - |r| ==> IsSpace(s[i])
  {
    if |s| > 0 && IsSpace(s[0]) then LStrip(s[1..]) else s
  }

  /** Ruby's `rstrip`: drops the trailing white space. */
  function RStrip(s: string): (r: string)
    ensures |r| <= |s| && r == s[..|r|]
    ensures r == [] || !IsSpace(r[|r| - 1])
    ensures forall i :: |r| <= i < |s| ==> IsSpace(s[i])
  {
    if |s| > 0 && IsSpace(s[|s| - 1]) then RStrip(s[..|s| - 1]) else s
  }

  /** Ruby's `strip`: neither end of the result is white space, and it is a piece of `s`. */
  function Strip(s: string): (r: string)
    ensures |r| <= |s|
    ensures r == [] || (!IsSpace(r[0]) && !IsSpace(r[|r| - 1]))
    ensures forall c :: c in r ==> c in s
  {
    var l := LStrip(s);
    var r := RStrip(l);
    assert forall c :: c in r ==> c in l;
    r
  }

  /** A string whose two ends are not white space is its own `strip`. */
  lemma StripStripped(s: string)
    requires s == [] || (!IsSpace(s[0]) && !IsSpace(s[|s| - 1]))
    ensures Strip(s) == s
  {
  }

  lemma {:induction false} LStripAppendSpace(p: string, c: char)
    requires IsSpace(c)
    ensures LStrip(p + [c]) == if LStrip(p) == [] then [] else LStrip(p) + [c]
  {
    if |p| == 0 {
      assert LStrip([c]) == LStrip([c][1..]);
      assert [c][1..] == [];
    } else if IsSpace(p[0]) {
      assert (p + [c])[1..] == p[1..] + [c];
      LStripAppendSpace(p[1..], c);
    }
  }

  /** Stripping ignores one more trailing white-space character, such as a line terminator. */
  lemma StripAppendSpace(p: string, c: char)
    requires IsSpace(c)
    ensures Strip(p + [c]) == Strip(p)
  {
    LStripAppendSpace(p, c);
    var l := LStrip(p);
    if l != [] {
      assert (l + [c])[..|l + [c]| - 1] == l;
    }
  }

  /** Ruby's `chomp` without argument: removes one trailing "\r\n", "\n" or "\r". */
  function Chomp(s: string): (r: string)
    ensures |s| - 2 <= |r| <= |s| && r == s[..|r|]
  {
    if |s| >= 2 && s[|s| - 2..] == "\r\n" then s[..|s| - 2]
    else if |s| >= 1 && (s[|s| - 1] == '\n' || s[|s| - 1] == '\r') then s[..|s| - 1]
    else s
  }

  /** Rails' `blank?` on a configuration value: nil, or only white space. */
  predicate IsBlank(v: Option<string>) {
    v.None? || forall i :: 0 <= i < |v.value| ==> IsSpace(v.value[i])
  }

  /** Rails' `presence`: the value itself unless it is blank. */
  function Presence(v: Option<string>): (r: Option<string>)
    ensures r.None? <==> IsBlank(v)
    ensures r.Some? ==> r == v
  {
    if IsBlank(v) then None else v
  }

  /** String interpolation `"#{v}"`: nil interpolates as the empty string. */
  function Show(v: Option<string>): string {
    v.GetOr("")
  }

  predicate StartsWith(s: string, prefix: string) {
    |prefix| <= |s| && s[..|prefix|] == prefix
  }

  predicate EndsWith(s: string, suffix: string) {
    |suffix| <= |s| && s[|s| - |suffix|..] == suffix
  }

  /** Ruby's `index(c)`: the first position of `c`, or nil. */
  function IndexOf(s: string, c: char): (r: Option<nat>)
    ensures r.Some? ==> r.value < |s| && s[r.value] == c && c !in s[..r.value]
    ensures r.None? <==> c !in s
  {
    if |s| == 0 then None
    else if s[0] == c then Some(0)
    else
      match IndexOf(s[1..], c)
      case None => None
      case Some(i) =>
        assert s[..i + 1] == [s[0]] + s[1..][..i];
        Some(i + 1)
  }

  /** The first `c` in `a + [c] + b` is the one after `a` when `a` holds none. */
  lemma {:induction false} IndexOfAfter(a: string, c: char, b: string)
    requires c !in a
    ensures IndexOf(a + [c] + b, c) == Some(|a|)
  {
    var s := a + [c] + b;
    if a != [] {
      assert s[0] == a[0];
      assert s[1..] == a[1..] + [c] + b;
      IndexOfAfter(a[1..], c, b);
    }
  }

  /** Ruby's `split(sep)` on a character, keeping every field (see README for trailing empties). */
  function Split(s: string, sep: char): (r: seq<string>)
    ensures |r| >= 1
    ensures forall k :: 0 <= k < |r| ==> sep !in r[k]
    decreases |s|
  {
    match IndexOf(s, sep)
    case None => [s]
    case Some(i) => [s[..i]] + Split(s[i + 1..], sep)
  }

  /** The fields joined with `sep` between them. */
  function Join(parts: seq<string>, sep: char): string
  {
    if |parts| == 0 then []
    else if |parts| == 1 then parts[0]
    else parts[0] + [sep] + Join(parts[1..], sep)
  }

  /** The strings one after the other. */
  function Concat(parts: seq<string>): string
  {
    if |parts| == 0 then [] else parts[0] + Concat(parts[1..])
  }

  /**
   * Ruby's `lines`: the pieces of `s`, each ending just after a "\n" except
   * possibly the last; they are non-empty, put together they give `s` back,
   * and no piece holds a "\n" before its last character.
   */
  function Lines(s: string): (r: seq<string>)
    ensures forall k :: 0 <= k < |r| ==> |r[k]| > 0 && '\n' !in r[k][..|r[k]| - 1]
    ensures Concat(r) == s
    decreases |s|
  {
    if s == [] then []
    else
      match IndexOf(s, '\n')
      case None =>
        assert s[..|s| - 1] <= s;
        [s]
      case Some(i) =>
        var line := s[..i + 1];
        var rest := Lines(s[i + 1..]);
        assert line[..i] == s[..i];
        assert s == line + s[i + 1..];
        var r := [line] + rest;
        assert r[1..] == rest;
        assert forall k :: 1 <= k < |r| ==> r[k] == rest[k - 1];
        r
  }

  predicate IsDigit(c: char) {
    '0' <= c <= '9'
  }

  /** The longest run of decimal digits at the start of `s`. */
  function DigitPrefix(s: string): (r: string)
    ensures |r| <= |s| && r == s[..|r|]
    ensures forall i :: 0 <= i < |r| ==> IsDigit(r[i])
    ensures |r| < |s| ==> !IsDigit(s[|r|])
  {
    if |s| > 0 && IsDigit(s[0]) then [s[0]] + DigitPrefix(s[1..]) else []
  }

  /** The value of a decimal numeral (0 for the empty one). */
  function DigitsValue(ds: string): (n: nat)
    requires forall i :: 0 <= i < |ds| ==> IsDigit(ds[i])
  {
    if ds == [] then 0
    else
      var d := ds[|ds| - 1];
      assert IsDigit(d);
      10 * DigitsValue(ds[..|ds| - 1]) + ((d as int) - ('0' as int))
  }

  /**
   * Ruby's `String#to_i`: leading white space, an optional sign and the
   * digits that follow; anything else ends the number, and no digits read as 0.
   */
  function ToI(s: string): int
  {
    var t := LStrip(s);
    if |t| > 0 && t[0] == '-' then -(DigitsValue(DigitPrefix(t[1..])) as int)
    else if |t| > 0 && t[0] == '+' then DigitsValue(DigitPrefix(t[1..]))
    else DigitsValue(DigitPrefix(t))
  }

  /** `to_i` on a configuration value: `nil.to_i` is 0. */
  function OptionToI(v: Option<string>): int
  {
    match v
    case None => 0
    case Some(s) => ToI(s)
  }

  /** A number that starts with '-' (after white space) is never positive. */
  lemma ToINegative(s: string)
    requires LStrip(s) != [] && LStrip(s)[0] == '-'
    ensures ToI(s) <= 0
  {
  }
}
