/**
 * The string operations the search page applies: `trim()`, `split('\n')`,
 * the bullet-stripping `replace(/^[-•*]\s*\/, '')`, and the decimal
 * rendering of an HTTP status inside a template string.
 */
module JsText {

  /** The characters `String.prototype.trim` removes and the regular
      expression class `\s` matches: ECMAScript WhiteSpace (tab, vertical
      tab, form feed, no-break space, byte order mark and the space
      separators) and LineTerminator (line feed, carriage return, line and
      paragraph separators). */
  predicate IsSpace(c: char) {
    || c == '\t' || c == '\n' || c == '\U{B}' || c == '\U{C}' || c == '\r'
    || c == ' ' || c == '\U{A0}' || c == '\U{1680}'
    || ('\U{2000}' <= c <= '\U{200A}')
    || c == '\U{2028}' || c == '\U{2029}' || c == '\U{202F}' || c == '\U{205F}'
    || c == '\U{3000}' || c == '\U{FEFF}'
  }

  /** A string that `trim()` reduces to the empty string. */
  predicate IsBlank(s: string) {
    forall i :: 0 <= i < |s| ==> IsSpace(s[i])
  }

  /** `s` without its leading white space. */
  function TrimStart(s: string): (r: string)
    ensures |r| <= |s| && r == s[|s| - |r|..]
    ensures IsBlank(s[..|s| - |r|])
    ensures r == [] || !IsSpace(r[0])
  {
    if s != [] && IsSpace(s[0]) then TrimStart(s[1..]) else s
  }

  /** `s` without its trailing white space. */
  function TrimEnd(s: string): (r: string)
    ensures |r| <= |s| && r == s[..|r|]
    ensures IsBlank(s[|r|..])
    ensures r == [] || !IsSpace(r[|r| - 1])
  {
    if s != [] && IsSpace(s[|s| - 1]) then TrimEnd(s[..|s| - 1]) else s
  }

  /** `s.trim()`: empty exactly when `s` is blank, and otherwise neither
      starting nor ending with white space. */
  function Trim(s: string): (r: string)
    ensures r == [] <==> IsBlank(s)
    ensures r != [] ==> !IsSpace(r[0]) && !IsSpace(r[|r| - 1])
    ensures |r| <= |s|
  {
    var t := TrimStart(s);
    var r := TrimEnd(t);
    BlankIffTrimmedEmpty(s, |s| - |t|, |r|);
    r
  }

  /** A text cut as blank `s[..cut]`, then `s[cut..cut + len]`, then blank
      rest, where the middle piece starts with no space, is blank exactly
      when the middle piece is empty. */
  lemma BlankIffTrimmedEmpty(s: string, cut: nat, len: nat)
    requires cut + len <= |s|
    requires IsBlank(s[..cut]) && IsBlank(s[cut + len..])
    requires cut < |s| ==> !IsSpace(s[cut])
    ensures len == 0 <==> IsBlank(s)
  {
    if len == 0 {
      if cut < |s| {
        assert false;
      }
      assert s[..cut] == s;
    } else {
      assert cut < |s|;
    }
  }

  /** `Trim` only removes blank text from both ends: what it returns is a
      contiguous piece of `s`. */
  lemma TrimIsInfix(s: string)
    ensures exists lo: nat, hi: nat :: lo <= hi <= |s| && IsBlank(s[..lo]) && IsBlank(s[hi..])
                                       && Trim(s) == s[lo..hi]
  {
    var t := TrimStart(s);
    var r := TrimEnd(t);
    var lo := |s| - |t|;
    var hi := lo + |r|;
    assert t[|r|..] == s[hi..];
    assert r == s[lo..hi];
  }

  /** `s.split(sep)`: the pieces between occurrences of `sep`; there is
      always at least one, and none contains `sep`. */
  function Split(s: string, sep: char): (parts: seq<string>)
    ensures |parts| >= 1
    ensures forall i :: 0 <= i < |parts| ==> sep !in parts[i]
    decreases |s|
  {
    if s == [] then [[]]
    else
      var rest := Split(s[1..], sep);
      if s[0] == sep then [[]] + rest
      else [[s[0]] + rest[0]] + rest[1..]
  }

  /** `parts.join(sep)`, the inverse of `Split`. */
  function Join(parts: seq<string>, sep: char): string
    requires |parts| >= 1
  {
    if |parts| == 1 then parts[0] else parts[0] + [sep] + Join(parts[1..], sep)
  }

  /** Joining the pieces of a split gives back the original text. */
  lemma {:induction false} JoinSplit(s: string, sep: char)
    ensures Join(Split(s, sep), sep) == s
    decreases |s|
  {
    if s != [] {
      var rest := Split(s[1..], sep);
      var parts := Split(s, sep);
      JoinSplit(s[1..], sep);
      assert s == [s[0]] + s[1..];
      if s[0] == sep {
        assert parts == [[]] + rest;
        assert parts[1..] == rest;
        assert Join(parts, sep) == [] + [sep] + Join(rest, sep);
      } else if |rest| == 1 {
        assert parts == [[s[0]] + rest[0]];
      } else {
        assert parts == [[s[0]] + rest[0]] + rest[1..];
        assert parts[1..] == rest[1..];
        assert Join(parts, sep) == [s[0]] + rest[0] + [sep] + Join(rest[1..], sep);
        assert Join(rest, sep) == rest[0] + [sep] + Join(rest[1..], sep);
      }
    }
  }

  /** Splitting text that starts with a separator-free piece `p`. */
  lemma {:induction false} SplitAfterPiece(p: string, t: string, sep: char)
    requires sep !in p
    ensures Split(p + t, sep) == [p + Split(t, sep)[0]] + Split(t, sep)[1..]
    decreases |p|
  {
    var rest := Split(t, sep);
    if p == [] {
      assert p + t == t;
      assert p + rest[0] == rest[0];
      assert rest == [rest[0]] + rest[1..];
    } else {
      assert (p + t)[0] == p[0] != sep;
      assert (p + t)[1..] == p[1..] + t;
      SplitAfterPiece(p[1..], t, sep);
      assert p == [p[0]] + p[1..];
      assert [p[0]] + (p[1..] + rest[0]) == p + rest[0];
    }
  }

  /** Splitting a join of separator-free pieces gives back the pieces. */
  lemma {:induction false} SplitJoin(parts: seq<string>, sep: char)
    requires |parts| >= 1
    requires forall i :: 0 <= i < |parts| ==> sep !in parts[i]
    ensures Split(Join(parts, sep), sep) == parts
    decreases |parts|
  {
    if |parts| == 1 {
      assert Split([], sep) == [[]];
      assert parts[0] + [] == parts[0];
      SplitAfterPiece(parts[0], [], sep);
      assert Join(parts, sep) == parts[0];
      assert Split(parts[0], sep) == [parts[0]] + [];
    } else {
      var tail := Join(parts[1..], sep);
      SplitJoin(parts[1..], sep);
      assert Split([sep] + tail, sep) == [[]] + parts[1..];
      assert Join(parts, sep) == parts[0] + ([sep] + tail);
      SplitAfterPiece(parts[0], [sep] + tail, sep);
      var s := Split([sep] + tail, sep);
      assert s[0] == [] && s[1..] == parts[1..];
      assert parts[0] + s[0] == parts[0];
      assert parts == [parts[0]] + parts[1..];
    }
  }

  /** `lines.filter(line => line.trim())`: the lines that are not blank. */
  function NonBlank(lines: seq<string>): (r: seq<string>)
    ensures |r| <= |lines|
    ensures forall i :: 0 <= i < |r| ==> !IsBlank(r[i]) && r[i] in lines
    ensures forall i :: 0 <= i < |lines| && !IsBlank(lines[i]) ==> lines[i] in r
  {
    if lines == [] then []
    else (if IsBlank(lines[0]) then [] else [lines[0]]) + NonBlank(lines[1..])
  }

  /** The filter keeps the order of the lines: it distributes over
      concatenation. */
  lemma {:induction false} NonBlankAppend(a: seq<string>, b: seq<string>)
    ensures NonBlank(a + b) == NonBlank(a) + NonBlank(b)
    decreases |a|
  {
    if a != [] {
      assert (a + b)[1..] == a[1..] + b;
      NonBlankAppend(a[1..], b);
    } else {
      assert a + b == b;
    }
  }

  /** The list markers the regular expression `^[-•*]` accepts. */
  predicate IsMarker(c: char) {
    c == '-' || c == '\U{2022}' || c == '*'
  }

  /** `line.replace(/^[-•*]\s*\/, '')`: removes one leading marker and the
      white space after it. The result is a suffix of `line`; something is
      removed exactly when the line starts with a marker, and then the
      removed part is that one marker followed only by white space, and the
      result does not start with white space. */
  function StripMarker(line: string): (r: string)
    ensures |r| <= |line| && r == line[|line| - |r|..]
    ensures |r| < |line| <==> (|line| > 0 && IsMarker(line[0]))
    ensures |r| < |line| ==> IsBlank(line[1..|line| - |r|]) && (r == [] || !IsSpace(r[0]))
  {
    if |line| > 0 && IsMarker(line[0]) then
      var r := TrimStart(line[1..]);
      assert line[1..][|line[1..]| - |r|..] == line[|line| - |r|..];
      assert line[1..][..|line[1..]| - |r|] == line[1..|line| - |r|];
      r
    else line
  }

  /** Only the first marker goes: a marker, white space, then text that does
      not start with white space loses exactly the marker and that white
      space, even when the text starts with another marker. */
  lemma {:induction false} StripOnlyOneMarker(m: char, ws: string, rest: string)
    requires IsMarker(m) && IsBlank(ws)
    requires rest == [] || !IsSpace(rest[0])
    ensures StripMarker([m] + ws + rest) == rest
  {
    var line := [m] + ws + rest;
    assert line[1..] == ws + rest;
    TrimStartSkipsBlank(ws, rest);
  }

  /** Leading white space followed by text that does not start with white
      space is exactly what `TrimStart` removes. */
  lemma {:induction false} TrimStartSkipsBlank(ws: string, rest: string)
    requires IsBlank(ws)
    requires rest == [] || !IsSpace(rest[0])
    ensures TrimStart(ws + rest) == rest
    decreases |ws|
  {
    if ws == [] {
      assert ws + rest == rest;
    } else {
      assert (ws + rest)[0] == ws[0];
      assert (ws + rest)[1..] == ws[1..] + rest;
      TrimStartSkipsBlank(ws[1..], rest);
    }
  }

  predicate IsDigit(c: char) {
    '0' <= c <= '9'
  }

  function DigitChar(d: nat): (c: char)
    requires d < 10
    ensures IsDigit(c) && c as int - '0' as int == d
  {
    ('0' as int + d) as char
  }

  /** The decimal text a template string gives a non-negative integer:
      digits only, and no leading zero except for zero itself. */
  function Decimal(n: nat): (s: string)
    ensures |s| >= 1
    ensures forall i :: 0 <= i < |s| ==> IsDigit(s[i])
    ensures s[0] == '0' ==> n == 0 && |s| == 1
    decreases n
  {
    if n < 10 then [DigitChar(n)] else Decimal(n / 10) + [DigitChar(n % 10)]
  }

  /** The number a string of decimal digits denotes. */
  function DecimalValue(s: string): nat
    requires forall i :: 0 <= i < |s| ==> IsDigit(s[i])
  {
    if s == [] then 0
    else
      assert IsDigit(s[|s| - 1]);
      10 * DecimalValue(s[..|s| - 1]) + (s[|s| - 1] as int - '0' as int)
  }

  /** The decimal text denotes the number it was made from, so different
      status codes give different messages. */
  lemma {:induction false} DecimalRoundTrip(n: nat)
    ensures DecimalValue(Decimal(n)) == n
    decreases n
  {
    if n >= 10 {
      DecimalRoundTrip(n / 10);
      var s := Decimal(n);
      assert s[..|s| - 1] == Decimal(n / 10);
    }
  }
}
