/** The string operations the recording keys are built and parsed with:
    `str` of a non-negative integer, `str.zfill`, `str.split` on one
    character and `int` of a string. */
module PyText {
  import opened Outcomes

  predicate IsDigit(ch: char)
  {
    '0' <= ch <= '9'
  }

  predicate AllDigits(s: string)
  {
    forall i :: 0 <= i < |s| ==> IsDigit(s[i])
  }

  function Digit(d: nat): (ch: char)
    requires d < 10
    ensures IsDigit(ch)
  {
    (d + '0' as int) as char
  }

  function DigitValue(ch: char): (d: nat)
    requires IsDigit(ch)
    ensures d < 10
  {
    ch as int - '0' as int
  }

  /** `str(n)`: the decimal digits of `n`, most significant first, no leading zero. */
  function Str(n: nat): (r: string)
    ensures 0 < |r| && AllDigits(r)
    ensures n > 0 ==> r[0] != '0'
    ensures n < 10 <==> |r| == 1
  {
    if n < 10 then [Digit(n)] else Str(n / 10) + [Digit(n % 10)]
  }

  /** `s.zfill(width)` of a string without sign: left-padded with '0' to `width`. */
  function ZFill(s: string, width: nat): (r: string)
    ensures |r| == if |s| < width then width else |s|
    ensures r[|r| - |s|..] == s
    ensures forall i :: 0 <= i < |r| - |s| ==> r[i] == '0'
  {
    if |s| < width then seq(width - |s|, _ => '0') + s else s
  }

  /** The value of a string of decimal digits (leading zeros allowed). */
  function DigitsValue(s: string): nat
    requires AllDigits(s)
  {
    if |s| == 0 then 0 else 10 * DigitsValue(s[..|s| - 1]) + DigitValue(s[|s| - 1])
  }

  /** The ASCII whitespace `int()` strips around its digits: tab, line feed,
      vertical tab, form feed, carriage return and space. */
  predicate IsSpace(ch: char)
  {
    9 <= ch as int <= 13 || ch == ' '
  }

  function StripLeft(s: string): (r: string)
    ensures |r| <= |s| && r == s[|s| - |r|..]
    ensures |r| > 0 ==> !IsSpace(r[0])
  {
    if |s| > 0 && IsSpace(s[0]) then StripLeft(s[1..]) else s
  }

  function StripRight(s: string): (r: string)
    ensures |r| <= |s| && r == s[..|r|]
    ensures |r| > 0 ==> !IsSpace(r[|r| - 1])
  {
    if |s| > 0 && IsSpace(s[|s| - 1]) then StripRight(s[..|s| - 1]) else s
  }

  /** A non-empty run of decimal digits and its value. */
  function ParseDigits(t: string): Option<nat>
  {
    if |t| > 0 && AllDigits(t) then Some(DigitsValue(t)) else None
  }

  /** An optional sign followed by a non-empty run of decimal digits. */
  function ParseSigned(t: string): Option<int>
  {
    if |t| > 0 && t[0] == '-' then
      match ParseDigits(t[1..])
      case None => None
      case Some(v) => Some(-(v as int))
    else if |t| > 0 && t[0] == '+' then ParseDigits(t[1..])
    else match ParseDigits(t)
      case None => None
      case Some(v) => Some(v)
  }

  /** `int(s)` for a string: surrounding whitespace, an optional sign and at
      least one decimal digit; None where Python raises ValueError. */
  function ParseInt(s: string): Option<int>
  {
    ParseSigned(StripRight(StripLeft(s)))
  }

  /** `s.split(sep)`: the pieces between occurrences of `sep`, empty pieces included. */
  function Split(s: string, sep: char): (r: seq<string>)
    ensures 0 < |r|
    ensures forall i :: 0 <= i < |r| ==> sep !in r[i]
  {
    if |s| == 0 then [""]
    else
      var rest := Split(s[1..], sep);
      if s[0] == sep then [""] + rest else [[s[0]] + rest[0]] + rest[1..]
  }

  /** `sep.join(parts)`. */
  function Join(parts: seq<string>, sep: char): string
    requires 0 < |parts|
  {
    if |parts| == 1 then parts[0] else parts[0] + [sep] + Join(parts[1..], sep)
  }

  /** Splitting and joining again gives back the original string. */
  lemma {:induction false} JoinSplit(s: string, sep: char)
    ensures Join(Split(s, sep), sep) == s
  {
    if |s| > 0 {
      var rest := Split(s[1..], sep);
      JoinSplit(s[1..], sep);
      if s[0] != sep {
        if |rest| == 1 {
        } else {
          assert ([[s[0]] + rest[0]] + rest[1..])[1..] == rest[1..];
          assert Join(rest, sep) == rest[0] + [sep] + Join(rest[1..], sep);
        }
        assert [s[0]] + Join(rest, sep) == s;
      } else {
        assert ([""] + rest)[1..] == rest;
      }
    }
  }

  /** Joining pieces free of `sep` and splitting again gives back the pieces. */
  lemma {:induction false} SplitJoin(parts: seq<string>, sep: char)
    requires 0 < |parts|
    requires forall i :: 0 <= i < |parts| ==> sep !in parts[i]
    ensures Split(Join(parts, sep), sep) == parts
  {
    if |parts| == 1 {
      SplitPiece(parts[0], [], sep);
    } else {
      SplitJoin(parts[1..], sep);
      SplitPiece(parts[0], Join(parts[1..], sep), sep);
      assert parts == [parts[0]] + parts[1..];
    }
  }

  /** A piece free of `sep` followed by `sep` and a tail splits into the
      piece and the pieces of the tail; with nothing after it, into itself. */
  lemma {:induction false} SplitPiece(a: string, tail: string, sep: char)
    requires sep !in a
    ensures Split(a + [sep] + tail, sep) == [a] + Split(tail, sep)
    ensures Split(a, sep) == [a]
  {
    if |a| == 0 {
      assert a + [sep] + tail == [sep] + tail;
      assert ([sep] + tail)[1..] == tail;
    } else {
      SplitPiece(a[1..], tail, sep);
      assert (a + [sep] + tail)[1..] == a[1..] + [sep] + tail;
      assert [a[0]] + a[1..] == a;
    }
  }

  /** `int(str(n)) == n`, also after zero padding. */
  lemma {:induction false} ParseZFilledStr(n: nat, width: nat)
    ensures ParseInt(ZFill(Str(n), width)) == Some(n)
  {
    var z := ZFill(Str(n), width);
    var k := |z| - |Str(n)|;
    assert z == seq(k, _ => '0') + Str(n);
    DigitsValueOfStr(n);
    LeadingZeros(Str(n), k);
    ParseDigitString(z);
  }

  lemma {:induction false} LeadingZeros(s: string, k: nat)
    requires AllDigits(s)
    ensures AllDigits(seq(k, _ => '0') + s)
    ensures DigitsValue(seq(k, _ => '0') + s) == DigitsValue(s)
  {
    var z := seq(k, _ => '0') + s;
    if |s| == 0 {
      assert z == seq(k, _ => '0');
      AllZeros(k);
    } else {
      LeadingZeros(s[..|s| - 1], k);
      assert z[..|z| - 1] == seq(k, _ => '0') + s[..|s| - 1];
    }
  }

  lemma {:induction false} AllZeros(k: nat)
    ensures AllDigits(seq(k, _ => '0')) && DigitsValue(seq(k, _ => '0')) == 0
  {
    if k > 0 {
      AllZeros(k - 1);
      assert seq(k, _ => '0')[..k - 1] == seq(k - 1, _ => '0');
    }
  }

  /** The decimal value of `str(n)` is `n`. */
  lemma {:induction false} DigitsValueOfStr(n: nat)
    ensures DigitsValue(Str(n)) == n
  {
    if n >= 10 {
      DigitsValueOfStr(n / 10);
      assert Str(n)[..|Str(n)| - 1] == Str(n / 10);
    }
  }

  /** `int` of a non-empty string of ASCII decimal digits is its decimal
      value, leading zeros included. */
  lemma ParseDigitString(z: string)
    requires 0 < |z| && AllDigits(z)
    ensures ParseInt(z) == Some(DigitsValue(z))
  {
    assert !IsSpace(z[0]) && !IsSpace(z[|z| - 1]);
    assert StripRight(StripLeft(z)) == z;
    assert IsDigit(z[0]);
    assert ParseDigits(z) == Some(DigitsValue(z));
  }

  /** Stripping removes whitespace only: every character of `s` before the
      remainder is whitespace. */
  lemma {:induction false} StripLeftRemovesSpace(s: string)
    ensures forall j :: 0 <= j < |s| - |StripLeft(s)| ==> IsSpace(s[j])
  {
    if |s| > 0 && IsSpace(s[0]) {
      StripLeftRemovesSpace(s[1..]);
      forall j | 1 <= j < |s| - |StripLeft(s)|
        ensures IsSpace(s[j])
      {
        assert s[j] == s[1..][j - 1];
      }
    }
  }

  lemma {:induction false} StripRightRemovesSpace(s: string)
    ensures forall j :: |StripRight(s)| <= j < |s| ==> IsSpace(s[j])
  {
    if |s| > 0 && IsSpace(s[|s| - 1]) {
      StripRightRemovesSpace(s[..|s| - 1]);
    }
  }

  /** `int(s)` raises ValueError on any string holding a character that is
      neither a digit, a sign nor the whitespace `int()` strips. */
  lemma ParseIntRejects(s: string, i: int)
    requires 0 <= i < |s|
    requires !IsDigit(s[i]) && !IsSpace(s[i]) && s[i] != '-' && s[i] != '+'
    ensures ParseInt(s) == None
  {
    var l := StripLeft(s);
    StripLeftRemovesSpace(s);
    var k := i - (|s| - |l|);
    assert 0 <= k && l[k] == s[i];
    var t := StripRight(l);
    StripRightRemovesSpace(l);
    assert k < |t| && t[k] == s[i];
    if k > 0 && |t| > 0 && (t[0] == '-' || t[0] == '+') {
      assert t[1..][k - 1] == s[i];
      assert ParseDigits(t[1..]) == None;
    } else {
      assert ParseDigits(t) == None;
    }
  }

  /** The form `int()` accepts: whitespace, an optional sign, a non-empty
      run of digits, whitespace. */
  predicate IsIntLiteral(pre: string, sign: string, d: string, post: string)
  {
    (forall j :: 0 <= j < |pre| ==> IsSpace(pre[j]))
    && (sign == "" || sign == "+" || sign == "-")
    && 0 < |d| && AllDigits(d)
    && (forall j :: 0 <= j < |post| ==> IsSpace(post[j]))
  }

  /** The value a sign and a run of digits denote. */
  function SignedValue(sign: string, d: string): int
    requires AllDigits(d)
  {
    if sign == "-" then -(DigitsValue(d) as int) else DigitsValue(d)
  }

  lemma {:induction false} StripLeftSpaces(pre: string, m: string)
    requires forall j :: 0 <= j < |pre| ==> IsSpace(pre[j])
    requires 0 < |m| && !IsSpace(m[0])
    ensures StripLeft(pre + m) == m
  {
    if |pre| > 0 {
      assert (pre + m)[1..] == pre[1..] + m;
      StripLeftSpaces(pre[1..], m);
    } else {
      assert pre + m == m;
    }
  }

  lemma {:induction false} StripRightSpaces(m: string, post: string)
    requires forall j :: 0 <= j < |post| ==> IsSpace(post[j])
    requires 0 < |m| && !IsSpace(m[|m| - 1])
    ensures StripRight(m + post) == m
  {
    if |post| > 0 {
      assert (m + post)[..|m + post| - 1] == m + post[..|post| - 1];
      StripRightSpaces(m, post[..|post| - 1]);
    } else {
      assert m + post == m;
    }
  }

  /** `int()` of whitespace, an optional sign, digits and whitespace is the
      signed value of the digits. */
  lemma ParseIntPadded(pre: string, sign: string, d: string, post: string)
    requires IsIntLiteral(pre, sign, d, post)
    ensures ParseInt(pre + sign + d + post) == Some(SignedValue(sign, d))
  {
    var t := sign + d;
    SignedEnds(sign, d);
    assert pre + sign + d + post == pre + (t + post);
    assert (t + post)[0] == t[0];
    StripLeftSpaces(pre, t + post);
    StripRightSpaces(t, post);
    ParseSignedDigits(sign, d);
  }

  lemma SignedEnds(sign: string, d: string)
    requires (sign == "" || sign == "+" || sign == "-") && 0 < |d| && AllDigits(d)
    ensures !IsSpace((sign + d)[0]) && !IsSpace((sign + d)[|sign + d| - 1])
  {
    assert IsDigit(d[0]) && IsDigit(d[|d| - 1]);
    assert (sign + d)[|sign + d| - 1] == d[|d| - 1];
  }

  lemma ParseSignedDigits(sign: string, d: string)
    requires (sign == "" || sign == "+" || sign == "-") && 0 < |d| && AllDigits(d)
    ensures ParseSigned(sign + d) == Some(SignedValue(sign, d))
  {
    var t := sign + d;
    if sign == "" {
      assert t == d && IsDigit(d[0]);
    } else {
      assert t[0] == sign[0] && t[1..] == d;
    }
  }

  /** Conversely, every string `int()` accepts has that form, and its value
      is the signed value of its digits. */
  lemma ParseIntShape(s: string)
    requires ParseInt(s).Some?
    ensures exists pre, sign, d, post ::
      IsIntLiteral(pre, sign, d, post) && s == pre + sign + d + post && ParseInt(s).value == SignedValue(sign, d)
  {
    var l := StripLeft(s);
    var t := StripRight(l);
    var pre, post := s[..|s| - |l|], l[|t|..];
    assert forall j :: 0 <= j < |pre| ==> IsSpace(pre[j]) by {
      StripLeftRemovesSpace(s);
    }
    assert forall j :: 0 <= j < |post| ==> IsSpace(post[j]) by {
      StripRightRemovesSpace(l);
    }
    assert ParseSigned(t) == ParseInt(s);
    var sign, d := SplitSign(t);
    Rejoin(s, l, t);
    Regroup(pre, t, sign, d, post);
    IntLiteralWitness(s, pre, sign, d, post, ParseInt(s).value);
  }

  /** A string is what stripping removed on the left, the stripped text and
      what stripping removed on the right. */
  lemma Rejoin(s: string, l: string, t: string)
    requires |l| <= |s| && l == s[|s| - |l|..] && |t| <= |l| && t == l[..|t|]
    ensures s == s[..|s| - |l|] + t + l[|t|..]
  {
    assert l == t + l[|t|..];
    assert s == s[..|s| - |l|] + l;
  }

  lemma Regroup(pre: string, t: string, sign: string, d: string, post: string)
    requires t == sign + d
    ensures pre + t + post == pre + sign + d + post
  {
  }

  lemma IntLiteralWitness(s: string, pre: string, sign: string, d: string, post: string, v: int)
    requires IsIntLiteral(pre, sign, d, post) && s == pre + sign + d + post && v == SignedValue(sign, d)
    ensures exists pre, sign, d, post :: IsIntLiteral(pre, sign, d, post) && s == pre + sign + d + post && v == SignedValue(sign, d)
  {
  }

  /** The sign and digits of a string `ParseSigned` accepts. */
  lemma SplitSign(t: string) returns (sign: string, d: string)
    requires ParseSigned(t).Some?
    ensures t == sign + d && (sign == "" || sign == "+" || sign == "-") && 0 < |d| && AllDigits(d)
    ensures ParseSigned(t).value == SignedValue(sign, d)
  {
    if t[0] == '-' || t[0] == '+' {
      sign, d := t[..1], t[1..];
    } else {
      sign, d := "", t;
    }
  }
}
