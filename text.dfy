/** The string operations the front end relies on, stated over `seq<char>`:
    `String.prototype.split` with a one-character separator, `Array.prototype.join`,
    `String.prototype.trim`, and the decimal rendering of a non-negative number. */
module Text {

  /** Concatenates `parts`, putting `sep` between neighbours (`parts.join(sep)`). */
  function Join(parts: seq<string>, sep: char): string
  {
    if |parts| == 0 then ""
    else if |parts| == 1 then parts[0]
    else parts[0] + [sep] + Join(parts[1..], sep)
  }

  /** Splits `s` at every occurrence of `sep` (`s.split(sep)`): the empty string
      gives one empty piece, and every separator starts a new piece. */
  function Split(s: string, sep: char): (r: seq<string>)
    ensures |r| >= 1
    ensures Join(r, sep) == s
    ensures forall i :: 0 <= i < |r| ==> sep !in r[i]
  {
    if s == [] then [""]
    else if s[0] == sep then [""] + Split(s[1..], sep)
    else
      var rest := Split(s[1..], sep);
      [[s[0]] + rest[0]] + rest[1..]
  }

  /** A piece without the separator, followed by more text, splits into that
      piece glued to the first piece of the rest. */
  lemma {:induction false} SplitPrefix(p: string, t: string, sep: char)
    requires sep !in p
    ensures Split(p + t, sep) == [p + Split(t, sep)[0]] + Split(t, sep)[1..]
  {
    if p == [] {
      assert p + t == t;
      assert p + Split(t, sep)[0] == Split(t, sep)[0];
      assert Split(t, sep) == [Split(t, sep)[0]] + Split(t, sep)[1..];
    } else {
      assert (p + t)[0] == p[0];
      assert (p + t)[1..] == p[1..] + t;
      SplitPrefix(p[1..], t, sep);
      assert [p[0]] + (p[1..] + Split(t, sep)[0]) == p + Split(t, sep)[0];
    }
  }

  /** Split undoes Join whenever no piece contains the separator. */
  lemma {:induction false} SplitJoin(parts: seq<string>, sep: char)
    requires |parts| >= 1
    requires forall i :: 0 <= i < |parts| ==> sep !in parts[i]
    ensures Split(Join(parts, sep), sep) == parts
  {
    if |parts| == 1 {
      SplitPrefix(parts[0], "", sep);
      assert parts[0] + "" == parts[0];
    } else {
      var rest := parts[1..];
      SplitJoin(rest, sep);
      assert Join(parts, sep) == parts[0] + ([sep] + Join(rest, sep));
      SplitPrefix(parts[0], [sep] + Join(rest, sep), sep);
      assert ([sep] + Join(rest, sep))[1..] == Join(rest, sep);
      var x := Split([sep] + Join(rest, sep), sep);
      assert x == [""] + rest;
      assert x[0] == "" && x[1..] == rest;
      assert parts[0] + x[0] == parts[0];
      assert parts == [parts[0]] + rest;
    }
  }

  /** The characters `String.prototype.trim` removes: the ECMAScript WhiteSpace
      code points (tab, vertical tab, form feed, the byte-order mark and every
      space separator of Unicode category Zs) and the LineTerminator code points. */
  predicate IsSpace(c: char)
  {
    || c == '\t' || c == '\U{B}' || c == '\U{C}' || c == '\U{FEFF}'
    || c == ' ' || c == '\U{A0}' || c == '\U{1680}'
    || ('\U{2000}' <= c <= '\U{200A}')
    || c == '\U{202F}' || c == '\U{205F}' || c == '\U{3000}'
    || c == '\n' || c == '\r' || c == '\U{2028}' || c == '\U{2029}'
  }

  /** `s` without its leading white space. */
  function TrimStart(s: string): (r: string)
    ensures |r| <= |s| && r == s[|s| - |r|..]
    ensures forall i :: 0 <= i < |s| - |r| ==> IsSpace(s[i])
    ensures r != [] ==> !IsSpace(r[0])
  {
    if s != [] && IsSpace(s[0]) then TrimStart(s[1..]) else s
  }

  /** `s` without its trailing white space. */
  function TrimEnd(s: string): (r: string)
    ensures |r| <= |s| && r == s[..|r|]
    ensures forall i :: |r| <= i < |s| ==> IsSpace(s[i])
    ensures r != [] ==> !IsSpace(r[|r| - 1])
  {
    if s != [] && IsSpace(s[|s| - 1]) then TrimEnd(s[..|s| - 1]) else s
  }

  /** `s.trim()`: neither end of the result is white space. */
  function Trim(s: string): (r: string)
    ensures |r| <= |s|
    ensures r != [] ==> !IsSpace(r[0]) && !IsSpace(r[|r| - 1])
  {
    TrimEnd(TrimStart(s))
  }

  /** Only white space removed from the front leaves the rest untouched. */
  lemma {:induction false} TrimStartPadded(pad: string, t: string)
    requires forall i :: 0 <= i < |pad| ==> IsSpace(pad[i])
    requires t == [] || !IsSpace(t[0])
    ensures TrimStart(pad + t) == t
  {
    if pad != [] {
      assert (pad + t)[1..] == pad[1..] + t;
      TrimStartPadded(pad[1..], t);
    } else {
      assert pad + t == t;
    }
  }

  /** Only white space removed from the back leaves the rest untouched. */
  lemma {:induction false} TrimEndPadded(t: string, pad: string)
    requires forall i :: 0 <= i < |pad| ==> IsSpace(pad[i])
    requires t == [] || !IsSpace(t[|t| - 1])
    ensures TrimEnd(t + pad) == t
  {
    if pad != [] {
      assert (t + pad)[..|t + pad| - 1] == t + pad[..|pad| - 1];
      TrimEndPadded(t, pad[..|pad| - 1]);
    } else {
      assert t + pad == t;
    }
  }

  /** Trim removes exactly the white space around a core whose ends are not
      white space, so every string trims to the text between its padding. */
  lemma TrimPadded(lead: string, core: string, trail: string)
    requires forall i :: 0 <= i < |lead| ==> IsSpace(lead[i])
    requires forall i :: 0 <= i < |trail| ==> IsSpace(trail[i])
    requires core != [] ==> !IsSpace(core[0]) && !IsSpace(core[|core| - 1])
    ensures Trim(lead + core + trail) == core
  {
    assert lead + core + trail == lead + (core + trail);
    if core == [] {
      assert core + trail == trail;
      TrimStartPadded(lead + trail, "");
      assert lead + trail + "" == lead + trail;
      assert forall i :: 0 <= i < |lead + trail| ==> IsSpace((lead + trail)[i]);
    } else {
      TrimStartPadded(lead, core + trail);
      TrimEndPadded(core, trail);
    }
  }

  /** A string whose ends are not white space trims to itself. */
  lemma TrimUnpadded(s: string)
    requires s == [] || (!IsSpace(s[0]) && !IsSpace(s[|s| - 1]))
    ensures Trim(s) == s
  {
    TrimPadded("", s, "");
    assert "" + s + "" == s;
  }

  /** Trimming twice is trimming once. */
  lemma TrimIdempotent(s: string)
    ensures Trim(Trim(s)) == Trim(s)
  {
    TrimPadded("", Trim(s), "");
    assert "" + Trim(s) + "" == Trim(s);
  }

  /** The ASCII decimal digits. */
  predicate IsDigit(c: char)
  {
    '0' <= c <= '9'
  }

  /** The digit character for `d`. */
  function DigitChar(d: nat): (c: char)
    requires d < 10
    ensures IsDigit(c) && c as int - '0' as int == d
  {
    ('0' as int + d) as char
  }

  /** The decimal rendering of `n` (`String(n)` for a non-negative integer):
      at least one digit, only digits, and no leading zero. */
  function Decimal(n: nat): (r: string)
    ensures |r| >= 1
    ensures forall i :: 0 <= i < |r| ==> IsDigit(r[i])
    ensures |r| > 1 ==> r[0] != '0'
  {
    if n < 10 then [DigitChar(n)] else Decimal(n / 10) + [DigitChar(n % 10)]
  }

  /** The number a string of decimal digits denotes. */
  function ParseDecimal(s: string): nat
    requires forall i :: 0 <= i < |s| ==> IsDigit(s[i])
  {
    if s == [] then 0
    else
      assert IsDigit(s[|s| - 1]);
      ParseDecimal(s[..|s| - 1]) * 10 + (s[|s| - 1] as int - '0' as int)
  }

  /** Reading a rendered number back gives the number. */
  lemma {:induction false} DecimalRoundTrip(n: nat)
    ensures ParseDecimal(Decimal(n)) == n
  {
    if n >= 10 {
      var r := Decimal(n);
      assert r[..|r| - 1] == Decimal(n / 10);
      DecimalRoundTrip(n / 10);
    }
  }

  /** Different numbers render differently. */
  lemma DecimalInjective(m: nat, n: nat)
    ensures Decimal(m) == Decimal(n) ==> m == n
  {
    DecimalRoundTrip(m);
    DecimalRoundTrip(n);
  }
}
