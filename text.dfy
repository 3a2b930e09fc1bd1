/** The string operations the client relies on, as Python defines them:
    `lstrip('/')`, `rstrip('/')`, `strip('/')`, `'/'.join(...)` and `str(n)`
    for an integer. */
module Text {

  /** Every character is a slash (vacuously true of the empty string). */
  predicate IsSlashes(s: string)
  {
    forall i | 0 <= i < |s| :: s[i] == '/'
  }

  /** Neither begins nor ends with a slash. */
  predicate Trimmed(s: string)
  {
    s == [] || (s[0] != '/' && s[|s| - 1] != '/')
  }

  /** `s.lstrip('/')`. */
  function LStrip(s: string): string
  {
    if s != [] && s[0] == '/' then LStrip(s[1..]) else s
  }

  /** `s.rstrip('/')`. */
  function RStrip(s: string): string
  {
    if s != [] && s[|s| - 1] == '/' then RStrip(s[..|s| - 1]) else s
  }

  /** `s.strip('/')`: slashes removed from both ends. */
  function Strip(s: string): string
  {
    RStrip(LStrip(s))
  }

  /** lstrip leaves the suffix that follows a run of leading slashes, and
      that suffix does not begin with a slash. */
  lemma {:induction false} LStripSpec(s: string)
    ensures |LStrip(s)| <= |s| && LStrip(s) == s[|s| - |LStrip(s)|..]
    ensures IsSlashes(s[..|s| - |LStrip(s)|])
    ensures LStrip(s) == [] || LStrip(s)[0] != '/'
  {
    if s != [] && s[0] == '/' {
      LStripSpec(s[1..]);
      var r := LStrip(s[1..]);
      assert s[..|s| - |r|] == [s[0]] + s[1..][..|s| - 1 - |r|];
    }
  }

  /** rstrip leaves the prefix that precedes a run of trailing slashes, and
      that prefix does not end with a slash. */
  lemma {:induction false} RStripSpec(s: string)
    ensures |RStrip(s)| <= |s| && RStrip(s) == s[..|RStrip(s)|]
    ensures IsSlashes(s[|RStrip(s)|..])
    ensures RStrip(s) == [] || RStrip(s)[|RStrip(s)| - 1] != '/'
  {
    if s != [] && s[|s| - 1] == '/' {
      RStripSpec(s[..|s| - 1]);
      var r := RStrip(s[..|s| - 1]);
      assert s[|r|..] == s[..|s| - 1][|r|..] + [s[|s| - 1]];
    }
  }

  /** strip never lengthens and leaves no slash at either end. */
  lemma StripSpec(s: string)
    ensures |Strip(s)| <= |s|
    ensures Trimmed(Strip(s))
  {
    var l := LStrip(s);
    LStripSpec(s);
    RStripSpec(l);
    var r := RStrip(l);
    if r != [] {
      assert r[0] == l[0];
    }
  }

  /** lstrip returns exactly the part after a run of slashes, whatever that run is. */
  lemma {:induction false} LStripUnique(a: string, t: string)
    requires IsSlashes(a)
    requires t == [] || t[0] != '/'
    ensures LStrip(a + t) == t
  {
    if a != [] {
      assert (a + t)[1..] == a[1..] + t;
      LStripUnique(a[1..], t);
    }
  }

  /** rstrip returns exactly the part before a run of slashes. */
  lemma {:induction false} RStripUnique(t: string, b: string)
    requires IsSlashes(b)
    requires t == [] || t[|t| - 1] != '/'
    ensures RStrip(t + b) == t
  {
    if b != [] {
      assert (t + b)[..|t + b| - 1] == t + b[..|b| - 1];
      RStripUnique(t, b[..|b| - 1]);
    }
  }

  /** strip is characterised completely: surrounded by slashes on both
      sides, a trimmed string is what strip returns. */
  lemma StripUnique(a: string, m: string, b: string)
    requires IsSlashes(a) && IsSlashes(b) && Trimmed(m)
    ensures Strip(a + m + b) == m
  {
    if m == [] {
      assert a + m + b == (a + b) + [];
      LStripUnique(a + b, []);
    } else {
      assert a + m + b == a + (m + b);
      LStripUnique(a, m + b);
      RStripUnique(m, b);
    }
  }

  /** Stripping twice is stripping once. */
  lemma StripIdempotent(s: string)
    ensures Strip(Strip(s)) == Strip(s)
  {
    var m := Strip(s);
    StripSpec(s);
    assert m == [] + m + [];
    StripUnique([], m, []);
  }

  /** rstrip ignores slashes added at the end. */
  lemma RStripAppendSlash(s: string)
    ensures RStrip(s + "/") == RStrip(s)
  {
    var r := RStrip(s);
    RStripSpec(s);
    assert s + "/" == r + (s[|r|..] + "/");
    RStripUnique(r, s[|r|..] + "/");
  }

  /** `'/'.join(segs)`. */
  function Join(segs: seq<string>): string
  {
    if segs == [] then ""
    else if |segs| == 1 then segs[0]
    else segs[0] + "/" + Join(segs[1..])
  }

  /** Joining two non-empty lists puts exactly one separator between them. */
  lemma {:induction false} JoinAppend(a: seq<string>, b: seq<string>)
    requires a != [] && b != []
    ensures Join(a + b) == Join(a) + "/" + Join(b)
  {
    if |a| == 1 {
      assert (a + b)[1..] == b;
    } else {
      assert (a + b)[1..] == a[1..] + b;
      JoinAppend(a[1..], b);
    }
  }

  /** The join is empty exactly when there is nothing to join or a single
      empty string. */
  lemma JoinEmpty(segs: seq<string>)
    ensures Join(segs) == "" <==> segs == [] || segs == [""]
  {
    if |segs| == 1 {
      assert segs == [segs[0]];
    }
  }

  /** The character for a decimal digit. */
  function DigitChar(d: nat): (c: char)
    requires d < 10
    ensures '0' <= c <= '9'
    ensures c as int - '0' as int == d
  {
    "0123456789"[d]
  }

  /** Decimal digits of a natural number, most significant first. */
  function NatToString(n: nat): (s: string)
    ensures s != []
    ensures forall i | 0 <= i < |s| :: '0' <= s[i] <= '9'
    ensures s[0] == '0' ==> n == 0
  {
    if n < 10 then [DigitChar(n)] else NatToString(n / 10) + [DigitChar(n % 10)]
  }

  /** `str(n)` for an integer: a minus sign for negatives, then the digits. */
  function IntToString(n: int): (s: string)
    ensures |s| > (if n < 0 then 1 else 0)
    ensures s[0] == '-' <==> n < 0
    ensures forall i | (if n < 0 then 1 else 0) <= i < |s| :: '0' <= s[i] <= '9'
    ensures s[if n < 0 then 1 else 0] == '0' ==> n == 0
  {
    if n < 0 then "-" + NatToString(-n) else NatToString(n)
  }

  /** Value of a string of decimal digits: the partner of NatToString. */
  function DigitsValue(s: string): int
  {
    if s == [] then 0 else 10 * DigitsValue(s[..|s| - 1]) + (s[|s| - 1] as int - '0' as int)
  }

  /** Reading back the digits gives the number. */
  lemma {:induction false} NatToStringValue(n: nat)
    ensures DigitsValue(NatToString(n)) == n
  {
    var s := NatToString(n);
    if n < 10 {
      assert s[..|s| - 1] == [];
      assert DigitChar(n) as int - '0' as int == n;
    } else {
      assert s[..|s| - 1] == NatToString(n / 10);
      NatToStringValue(n / 10);
      assert DigitChar(n % 10) as int - '0' as int == n % 10;
    }
  }

  /** Only a hint for the solver in `IntToStringValue`, which is slow to
      carry the value over the equality of the two digit strings unaided. */
  lemma SameDigitsValue(a: string, b: string)
    requires a == b
    ensures DigitsValue(a) == DigitsValue(b)
  {
  }

  /** Reading back the digits after the sign gives the magnitude. */
  lemma {:induction false} IntToStringValue(n: int)
    ensures n >= 0 ==> DigitsValue(IntToString(n)) == n
    ensures n < 0 ==> DigitsValue(IntToString(n)[1..]) == -n
  {
    if n < 0 {
      var s, digits := IntToString(n), NatToString(-n);
      NatToStringValue(-n);
      assert s[1..] == digits;
      SameDigitsValue(s[1..], digits);
    } else {
      assert IntToString(n) == NatToString(n);
      NatToStringValue(n);
    }
  }

  /** Distinct naturals print differently. */
  lemma NatToStringInjective(m: nat, n: nat)
    requires NatToString(m) == NatToString(n)
    ensures m == n
  {
    NatToStringValue(m);
    NatToStringValue(n);
  }

  /** Distinct integers print differently, so an id spliced into a path
      names one item. */
  lemma IntToStringInjective(m: int, n: int)
    requires IntToString(m) == IntToString(n)
    ensures m == n
  {
    var s := IntToString(m);
    if m < 0 && n < 0 {
      assert NatToString(-m) == s[1..] == NatToString(-n);
      NatToStringInjective(-m, -n);
    } else if m >= 0 && n >= 0 {
      NatToStringInjective(m, n);
    }
  }
}
