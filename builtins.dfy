/** The few Python built-ins the core relies on, stated over explicit values:
    the runtime values that reach the record, the exception classes involved,
    `int()` on text (sign, decimal digits, surrounding whitespace), `str()`,
    `str.split` with an explicit separator and ASCII `str.lower`. */
module Builtins {
  import opened Wrappers

  /** A Python value as a decoder hands it over or as a client sends it:
      a `str`, an `int`, or `None`. Booleans, lists and dictionaries, which a
      JSON line or a request body could also carry, are outside this model. */
  datatype PyValue = PyStr(s: string) | PyInt(i: int) | PyNone

  /** The runtime type of a value, as `type(v)` reports it. */
  datatype PyType = StrType | IntType | NoneType

  function TypeOf(v: PyValue): PyType
  {
    match v
    case PyStr(_) => StrType
    case PyInt(_) => IntType
    case PyNone => NoneType
  }

  /** The exception classes raised or caught by the core. */
  datatype PyError =
    | ValueError
    | KeyError
    | TypeError
    | AttributeError
    | NameError
    | UnboundLocalError
    | FileNotFoundError
    | ParseError
    | UnicodeDecodeError

  // ---------------------------------------------------------------------------
  // Characters and whitespace

  /** The ASCII whitespace `int()` skips around a literal. */
  predicate IsSpace(c: char)
  {
    c == ' ' || c == '\t' || c == '\n' || c == '\r' || c == '\U{0B}' || c == '\U{0C}'
  }

  predicate IsDigit(c: char)
  {
    '0' <= c <= '9'
  }

  function DigitValue(c: char): nat
    requires IsDigit(c)
  {
    c as int - '0' as int
  }

  function DigitChar(d: nat): (c: char)
    requires d < 10
    ensures IsDigit(c) && DigitValue(c) == d
  {
    ('0' as int + d) as char
  }

  predicate AllDigits(ds: string)
  {
    forall i :: 0 <= i < |ds| ==> IsDigit(ds[i])
  }

  /** Drops leading whitespace. */
  function TrimLeft(s: string): (r: string)
    ensures |r| <= |s| && r == s[|s| - |r|..]
    ensures forall i :: 0 <= i < |s| - |r| ==> IsSpace(s[i])
    ensures r == [] || !IsSpace(r[0])
  {
    if |s| > 0 && IsSpace(s[0]) then TrimLeft(s[1..]) else s
  }

  /** Drops trailing whitespace. */
  function TrimRight(s: string): (r: string)
    ensures |r| <= |s| && r == s[..|r|]
    ensures forall i :: |r| <= i < |s| ==> IsSpace(s[i])
    ensures r == [] || !IsSpace(r[|r| - 1])
  {
    if |s| > 0 && IsSpace(s[|s| - 1]) then TrimRight(s[..|s| - 1]) else s
  }

  function Strip(s: string): string
  {
    TrimRight(TrimLeft(s))
  }

  // ---------------------------------------------------------------------------
  // int() on text

  /** The value of a run of decimal digits, most significant first. */
  function DigitsValue(ds: string): nat
    requires AllDigits(ds)
  {
    if |ds| == 0 then 0 else DigitsValue(ds[..|ds| - 1]) * 10 + DigitValue(ds[|ds| - 1])
  }

  /** What `int(s)` returns for a `str` argument, or `None` where it raises
      `ValueError`: optional whitespace, an optional `+` or `-`, one or more
      decimal digits (leading zeros allowed), optional whitespace. */
  function ParseInt(s: string): Option<int>
  {
    var t := Strip(s);
    if |t| > 0 && (t[0] == '+' || t[0] == '-') then
      var ds := t[1..];
      if |ds| > 0 && AllDigits(ds) then
        var n: int := DigitsValue(ds);
        Some(if t[0] == '-' then -n else n)
      else None
    else if |t| > 0 && AllDigits(t) then Some(DigitsValue(t))
    else None
  }

  // ---------------------------------------------------------------------------
  // str() on integers

  /** The decimal digits of `n` without leading zeros. */
  function NatToString(n: nat): (r: string)
    ensures |r| > 0 && AllDigits(r)
    ensures |r| > 1 ==> r[0] != '0'
    decreases n
  {
    if n < 10 then [DigitChar(n)] else NatToString(n / 10) + [DigitChar(n % 10)]
  }

  /** `str(n)` for a Python `int`. */
  function IntToString(n: int): string
  {
    if n < 0 then "-" + NatToString(-n) else NatToString(n)
  }

  lemma {:induction false} DigitsValueOfNatToString(n: nat)
    ensures DigitsValue(NatToString(n)) == n
    decreases n
  {
    if n >= 10 {
      var p := NatToString(n / 10);
      var s := p + [DigitChar(n % 10)];
      assert s[..|s| - 1] == p;
      DigitsValueOfNatToString(n / 10);
    }
  }

  /** `int(str(n)) == n` for every integer, negative ones included. */
  lemma ParseIntOfIntToString(n: int)
    ensures ParseInt(IntToString(n)) == Some(n)
  {
    var m := if n < 0 then -n else n;
    DigitsValueOfNatToString(m);
    if n < 0 {
      ParseIntOfNegative(NatToString(m));
    } else {
      ParseIntOfDigits(NatToString(m));
    }
  }

  /** A run of digits reads as its value. */
  lemma ParseIntOfDigits(ds: string)
    requires |ds| > 0 && AllDigits(ds)
    ensures ParseInt(ds) == Some(DigitsValue(ds))
  {
    StripWithoutSpaceAtEnds(ds);
  }

  /** `-` followed by a run of digits reads as the value's negation. */
  lemma ParseIntOfNegative(ds: string)
    requires |ds| > 0 && AllDigits(ds)
    ensures ParseInt("-" + ds) == Some(-(DigitsValue(ds) as int))
  {
    var s := "-" + ds;
    assert s[1..] == ds;
    assert s[|s| - 1] == ds[|ds| - 1];
    StripWithoutSpaceAtEnds(s);
  }

  lemma StripWithoutSpaceAtEnds(s: string)
    requires |s| > 0 && !IsSpace(s[0]) && !IsSpace(s[|s| - 1])
    ensures Strip(s) == s
  {
    assert TrimLeft(s) == s;
  }

  /** Whitespace around a literal does not change what `int()` reads. */
  lemma ParseIntIgnoresPadding(s: string)
    ensures ParseInt(" " + s + " ") == ParseInt(s)
  {
    StripPadding(s);
  }

  lemma StripPadding(s: string)
    ensures Strip(" " + s + " ") == Strip(s)
  {
    var p := " " + s + " ";
    assert p[1..] == s + " ";
    assert TrimLeft(p) == TrimLeft(s + " ");
    if forall i :: 0 <= i < |s| ==> IsSpace(s[i]) {
      AllSpaceTrimsAway(s);
      AllSpaceTrimsAway(s + " ");
    } else {
      TrimLeftAppend(s, " ");
      var x := TrimLeft(s);
      assert (x + " ")[..|x|] == x;
      assert TrimRight(x + " ") == TrimRight(x);
    }
  }

  lemma {:induction false} AllSpaceTrimsAway(s: string)
    requires forall i :: 0 <= i < |s| ==> IsSpace(s[i])
    ensures TrimLeft(s) == []
  {
    if |s| > 0 {
      AllSpaceTrimsAway(s[1..]);
    }
  }

  /** Text appended after a non-space character survives `TrimLeft`. */
  lemma {:induction false} TrimLeftAppend(s: string, t: string)
    requires exists i :: 0 <= i < |s| && !IsSpace(s[i])
    ensures TrimLeft(s + t) == TrimLeft(s) + t
  {
    if IsSpace(s[0]) {
      assert (s + t)[1..] == s[1..] + t;
      var i :| 0 <= i < |s| && !IsSpace(s[i]);
      assert !IsSpace(s[1..][i - 1]);
      TrimLeftAppend(s[1..], t);
    }
  }

  /** Text without a digit is never an integer literal, empty text included. */
  lemma ParseIntRejectsNonDigits(s: string)
    requires forall i :: 0 <= i < |s| ==> !IsDigit(s[i])
    ensures ParseInt(s) == None
  {
    var t := Strip(s);
    assert forall i :: 0 <= i < |t| ==> t[i] in s;
    if |t| > 1 {
      assert !IsDigit(t[1]);
    }
  }

  // ---------------------------------------------------------------------------
  // int() and str() on values

  /** `int(v)`: an `int` is returned as it is, a `str` is parsed (failing with
      `ValueError`), and `None` fails with `TypeError`. */
  function ToInt(v: PyValue): (r: Result<int, PyError>)
    ensures r.Success? <==> v.PyInt? || (v.PyStr? && ParseInt(v.s).Some?)
    ensures r.Failure? ==> r.error == (if v.PyNone? then TypeError else ValueError)
    ensures v.PyInt? ==> r == Success(v.i)
  {
    match v
    case PyInt(n) => Success(n)
    case PyStr(s) =>
      (match ParseInt(s)
       case Some(n) => Success(n)
       case None => Failure(ValueError))
    case PyNone => Failure(TypeError)
  }

  /** `str(v)`: never fails; `None` becomes the text "None". */
  function ToStr(v: PyValue): string
  {
    match v
    case PyStr(s) => s
    case PyInt(n) => IntToString(n)
    case PyNone => "None"
  }

  /** `int(str(v))` recovers any integer value. */
  lemma ToIntOfToStr(n: int)
    ensures ToInt(PyStr(ToStr(PyInt(n)))) == Success(n)
  {
    ParseIntOfIntToString(n);
  }

  // ---------------------------------------------------------------------------
  // str.split(sep) with an explicit one-character separator, and str.lower()

  /** Joins pieces with `sep` between consecutive ones. */
  function Join(parts: seq<string>, sep: char): string
  {
    if |parts| == 0 then "" else if |parts| == 1 then parts[0]
    else parts[0] + [sep] + Join(parts[1..], sep)
  }

  /** `s.split(sep)`: the unique list of separator-free pieces which, joined
      with `sep`, give back `s`; consecutive separators yield empty pieces. */
  function Split(s: string, sep: char): (parts: seq<string>)
    ensures |parts| >= 1
    ensures forall k :: 0 <= k < |parts| ==> sep !in parts[k]
    ensures Join(parts, sep) == s
  {
    if |s| == 0 then [""]
    else
      var rest := Split(s[1..], sep);
      if s[0] == sep then
        assert [""] + rest == [""] + rest;
        assert ([""] + rest)[1..] == rest;
        [""] + rest
      else
        var parts := [[s[0]] + rest[0]] + rest[1..];
        assert parts[1..] == rest[1..];
        assert |rest| > 1 ==> Join(rest, sep) == rest[0] + [sep] + Join(rest[1..], sep);
        parts
  }

  /** A piece without the separator splits into itself. */
  lemma {:induction false} SplitNoSeparator(s: string, sep: char)
    requires sep !in s
    ensures Split(s, sep) == [s]
  {
    if |s| > 0 {
      SplitNoSeparator(s[1..], sep);
      assert [s[0]] + s[1..] == s;
    }
  }

  /** Splitting at the first separator: `(a + sep + b).split(sep)` is `[a]`
      followed by `b.split(sep)` when `a` holds no separator. */
  lemma {:induction false} SplitAtFirst(a: string, b: string, sep: char)
    requires sep !in a
    ensures Split(a + [sep] + b, sep) == [a] + Split(b, sep)
  {
    var s := a + [sep] + b;
    if |a| == 0 {
      assert s[1..] == b;
    } else {
      assert s[1..] == a[1..] + [sep] + b;
      SplitAtFirst(a[1..], b, sep);
      assert [a[0]] + a[1..] == a;
    }
  }

  function LowerChar(c: char): char
  {
    if 'A' <= c <= 'Z' then (c as int - 'A' as int + 'a' as int) as char else c
  }

  /** `s.lower()` on ASCII letters; every other character is kept. */
  function Lower(s: string): (r: string)
    ensures |r| == |s|
    ensures forall i :: 0 <= i < |s| ==> r[i] == LowerChar(s[i])
  {
    seq(|s|, i requires 0 <= i < |s| => LowerChar(s[i]))
  }
}
