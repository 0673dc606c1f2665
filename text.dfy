/** The string operations the blob paths are made of: Python's
    `sep.join(parts)`, its inverse `s.split(sep)`, and `str(n)` on integers. */
module Text {

  /** `sep.join(parts)`. */
  function Join(parts: seq<string>, sep: char): string
  {
    if |parts| == 0 then ""
    else if |parts| == 1 then parts[0]
    else parts[0] + [sep] + Join(parts[1..], sep)
  }

  /** `s.split(sep)`: the pieces between the separators (never empty). */
  function Split(s: string, sep: char): (r: seq<string>)
    ensures |r| > 0
  {
    if |s| == 0 then [""]
    else
      var rest := Split(s[1..], sep);
      if s[0] == sep then [""] + rest
      else [[s[0]] + rest[0]] + rest[1..]
  }

  lemma {:induction false} SplitPlain(p: string, sep: char)
    requires sep !in p
    ensures Split(p, sep) == [p]
  {
    if |p| > 0 {
      SplitPlain(p[1..], sep);
      assert [p[0]] + p[1..] == p;
    }
  }

  lemma {:induction false} SplitPrefix(p: string, sep: char, t: string)
    requires sep !in p
    ensures Split(p + [sep] + t, sep) == [p] + Split(t, sep)
  {
    if |p| == 0 {
      assert p + [sep] + t == [sep] + t;
      assert ([sep] + t)[1..] == t;
    } else {
      var s := p + [sep] + t;
      assert s[1..] == p[1..] + [sep] + t;
      SplitPrefix(p[1..], sep, t);
      assert [p[0]] + p[1..] == p;
    }
  }

  /** Splitting a join gives the parts back when no part contains the separator. */
  lemma {:induction false} SplitJoin(parts: seq<string>, sep: char)
    requires |parts| > 0
    requires forall k :: 0 <= k < |parts| ==> sep !in parts[k]
    ensures Split(Join(parts, sep), sep) == parts
  {
    if |parts| == 1 {
      SplitPlain(parts[0], sep);
    } else {
      SplitJoin(parts[1..], sep);
      SplitPrefix(parts[0], sep, Join(parts[1..], sep));
      assert [parts[0]] + parts[1..] == parts;
    }
  }

  /** `s.rsplit(sep, 1)[-1]`: the text after the last separator, or all of
      `s` when there is none. */
  function After(s: string, sep: char): (r: string)
    ensures sep !in r
  {
    if |s| == 0 then ""
    else if s[|s| - 1] == sep then ""
    else After(s[..|s| - 1], sep) + [s[|s| - 1]]
  }

  lemma {:induction false} AfterPlain(t: string, sep: char)
    requires sep !in t
    ensures After(t, sep) == t
  {
    if |t| > 0 {
      AfterPlain(t[..|t| - 1], sep);
    }
  }

  lemma {:induction false} AfterSep(p: string, sep: char, t: string)
    requires sep !in t
    ensures After(p + [sep] + t, sep) == t
  {
    var s := p + [sep] + t;
    if |t| == 0 {
      assert s[|s| - 1] == sep;
    } else {
      assert s[..|s| - 1] == p + [sep] + t[..|t| - 1];
      AfterSep(p, sep, t[..|t| - 1]);
      assert t[..|t| - 1] + [t[|t| - 1]] == t;
    }
  }

  /** A join ends with its last part after the last separator, whatever the
      earlier parts contain, when the last part is separator-free. */
  lemma {:induction false} AfterJoin(parts: seq<string>, sep: char)
    requires |parts| > 0 && sep !in parts[|parts| - 1]
    ensures After(Join(parts, sep), sep) == parts[|parts| - 1]
  {
    if |parts| == 1 {
      AfterPlain(parts[0], sep);
    } else {
      var rest := parts[1..];
      assert rest[|rest| - 1] == parts[|parts| - 1];
      if |rest| == 1 {
        AfterSep(parts[0], sep, rest[0]);
      } else {
        AfterJoinTail(parts[0], rest, sep);
      }
    }
  }

  lemma {:induction false} AfterJoinTail(head: string, rest: seq<string>, sep: char)
    requires |rest| > 1 && sep !in rest[|rest| - 1]
    ensures After(head + [sep] + Join(rest, sep), sep) == rest[|rest| - 1]
    decreases |rest|, 0
  {
    var j := Join(rest, sep);
    assert j == rest[0] + [sep] + Join(rest[1..], sep);
    assert head + [sep] + j == (head + [sep] + rest[0]) + [sep] + Join(rest[1..], sep);
    var tail := rest[1..];
    assert tail[|tail| - 1] == rest[|rest| - 1];
    if |tail| == 1 {
      AfterSep(head + [sep] + rest[0], sep, tail[0]);
    } else {
      AfterJoinTail(head + [sep] + rest[0], tail, sep);
    }
  }

  function Digit(d: nat): char
    requires d < 10
  {
    "0123456789"[d]
  }

  predicate IsDigit(c: char) {
    '0' <= c <= '9'
  }

  /** `str(n)` for a natural number: its decimal digits, most significant first. */
  function NatToString(n: nat): (r: string)
    ensures |r| > 0
    ensures forall k :: 0 <= k < |r| ==> IsDigit(r[k])
  {
    if n < 10 then [Digit(n)] else NatToString(n / 10) + [Digit(n % 10)]
  }

  /** `str(i)` for a Python int. */
  function IntToString(i: int): (r: string)
    ensures |r| > 0
    ensures '/' !in r
  {
    if i < 0 then "-" + NatToString(-i) else NatToString(i)
  }

  /** The value of a string of decimal digits. */
  function ParseNat(s: string): nat
    requires forall k :: 0 <= k < |s| ==> IsDigit(s[k])
  {
    if |s| == 0 then 0
    else
      assert IsDigit(s[|s| - 1]);
      10 * ParseNat(s[..|s| - 1]) + (s[|s| - 1] as int - '0' as int)
  }

  lemma {:induction false} ParseNatToString(n: nat)
    ensures ParseNat(NatToString(n)) == n
  {
    var s := NatToString(n);
    if n >= 10 {
      ParseNatToString(n / 10);
      assert s[..|s| - 1] == NatToString(n / 10);
    }
  }

  lemma NatToStringInjective(a: nat, b: nat)
    requires NatToString(a) == NatToString(b)
    ensures a == b
  {
    ParseNatToString(a);
    ParseNatToString(b);
  }

  lemma IntToStringSign(i: int)
    ensures IntToString(i)[0] == '-' <==> i < 0
  {
    if i >= 0 {
      assert IsDigit(NatToString(i)[0]);
    }
  }

  /** Distinct integers have distinct decimal strings. */
  lemma IntToStringInjective(a: int, b: int)
    requires IntToString(a) == IntToString(b)
    ensures a == b
  {
    IntToStringSign(a);
    IntToStringSign(b);
    var sa, sb := IntToString(a), IntToString(b);
    if a < 0 && b < 0 {
      assert sa[1..] == NatToString(-a);
      assert sb[1..] == NatToString(-b);
      NatToStringInjective(-a, -b);
    } else if a >= 0 && b >= 0 {
      NatToStringInjective(a, b);
    }
  }
}
