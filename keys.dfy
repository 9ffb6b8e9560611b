/** Recording keys of the multi-recording corpus (`Gwilliams2022Dataset`):
    `brain_preproc` stores each recording under
    `subject{NN}_sess{s}_task{t}`, `audio_preproc` stores each task's audio
    under `task{t}`, and `batchfy` parses the subject index and the audio
    key back out of the recording key. */
module Keys {
  import opened Outcomes
  import opened PyLang
  import opened PyText

  /** `f"subject{str(subject_idx+1).zfill(2)}_sess{session_idx}_task{task_idx}"`. */
  function Description(subjectIdx: nat, sessionIdx: nat, taskIdx: nat): string
  {
    var subject, session, task := "subject" + ZFill(Str(subjectIdx + 1), 2), "sess" + Str(sessionIdx), AudioKey(taskIdx);
    subject + "_" + session + "_" + task
  }

  /** `f"task{task_idx}"`: the key of a task's audio and of its real durations. */
  function AudioKey(taskIdx: nat): (r: string)
    ensures |r| > 4 && r[..4] == "task" && AllDigits(r[4..]) && DigitsValue(r[4..]) == taskIdx
    ensures '_' !in r
  {
    var r := "task" + Str(taskIdx);
    NoSeparator("task", Str(taskIdx));
    assert r[4..] == Str(taskIdx);
    DigitsValueOfStr(taskIdx);
    r
  }

  /** Distinct tasks have distinct audio keys, so neither the audio dict nor
      the real-durations dict mixes two tasks up. */
  lemma AudioKeyInjective(a: nat, b: nat)
    ensures AudioKey(a) == AudioKey(b) <==> a == b
  {
    if AudioKey(a) == AudioKey(b) {
      assert AudioKey(a)[4..] == AudioKey(b)[4..];
    }
  }

  /** `key.split("_")[-1]`: the audio key a recording is paired with. */
  function TaskOf(key: string): (r: string)
    ensures '_' !in r
  {
    var tokens := Split(key, '_');
    tokens[|tokens| - 1]
  }

  /** `key.split("_")[0][-2:]`: the last two characters of the subject token. */
  function SubjectToken(key: string): (r: string)
    ensures |r| <= 2
  {
    From(Split(key, '_')[0], -2)
  }

  /** `int(token) - 1`, or ValueError when the token is not an integer. */
  function SubjectIndex(token: string): (r: Result<int>)
    ensures r.Err? ==> r.error == ValueError
  {
    match ParseInt(token)
    case None => Err(ValueError)
    case Some(v) => Ok(v - 1)
  }

  /** `int(key.split("_")[0][-2:]) - 1`: the subject index a recording key names. */
  function SubjectOf(key: string): (r: Result<int>)
    ensures r.Err? ==> r.error == ValueError
    ensures r.Ok? ==> -10 <= r.value <= 98
  {
    ShortTokenRange(SubjectToken(key));
    SubjectIndex(SubjectToken(key))
  }

  /** A token of decimal digits names the subject one below its value. */
  lemma SubjectIndexOfDigits(token: string)
    requires 0 < |token| && AllDigits(token)
    ensures SubjectIndex(token).Ok? && SubjectIndex(token).value == DigitsValue(token) - 1
  {
    ParseDigitString(token);
  }

  /** A token holding a character other than a digit, a sign or the ASCII
      whitespace `int()` strips raises ValueError. */
  lemma SubjectIndexRejects(token: string, i: int)
    requires 0 <= i < |token|
    requires !IsDigit(token[i]) && !IsSpace(token[i]) && token[i] != '-' && token[i] != '+'
    ensures SubjectIndex(token) == Err(ValueError)
  {
    ParseIntRejects(token, i);
  }

  /** The file separator U+001C before a digit is not whitespace to `int()`. */
  lemma SeparatorPaddedTokenRejected()
    ensures SubjectIndex([28 as char, '5']) == Err(ValueError)
  {
    SubjectIndexRejects([28 as char, '5'], 0);
  }

  /** `int` of at most two characters lies in `[-9, 99]`: a sign leaves
      room for one digit only. */
  lemma ShortTokenRange(token: string)
    requires |token| <= 2
    ensures ParseInt(token).Some? ==> -9 <= ParseInt(token).value <= 99
  {
    var t := StripRight(StripLeft(token));
    assert |t| <= 2;
    if |t| > 0 && (t[0] == '-' || t[0] == '+') {
      ShortDigits(t[1..]);
    } else {
      ShortDigits(t);
    }
  }

  lemma ShortDigits(d: string)
    requires |d| <= 2
    ensures ParseDigits(d).Some? ==> ParseDigits(d).value <= 99
    ensures |d| <= 1 && ParseDigits(d).Some? ==> ParseDigits(d).value <= 9
  {
    if 0 < |d| && AllDigits(d) {
      assert d[..|d| - 1][..0] == [];
      assert DigitValue(d[|d| - 1]) < 10;
      if |d| == 2 {
        assert DigitValue(d[0]) < 10;
        assert DigitsValue(d[..1]) == DigitValue(d[0]);
        assert DigitsValue(d) == 10 * DigitValue(d[0]) + DigitValue(d[1]);
      } else {
        assert DigitsValue(d) == DigitValue(d[0]);
      }
    }
  }

  /** The subject index as stored: `subj_idx * torch.ones(..., dtype=torch.uint8)`
      keeps the uint8 type, so the value wraps modulo 256. */
  function AsUint8(v: int): (r: int)
    ensures 0 <= r < 256
    ensures 0 <= v < 256 ==> r == v
  {
    v % 256
  }

  /** A recording key splits on '_' into exactly its subject, session and
      task tokens. */
  lemma DescriptionTokens(subjectIdx: nat, sessionIdx: nat, taskIdx: nat)
    ensures Split(Description(subjectIdx, sessionIdx, taskIdx), '_')
         == ["subject" + ZFill(Str(subjectIdx + 1), 2), "sess" + Str(sessionIdx), AudioKey(taskIdx)]
  {
    NoSeparator("subject", ZFill(Str(subjectIdx + 1), 2));
    NoSeparator("sess", Str(sessionIdx));
    SplitThree("subject" + ZFill(Str(subjectIdx + 1), 2), "sess" + Str(sessionIdx), AudioKey(taskIdx));
  }

  /** A word followed by decimal digits holds no underscore. */
  lemma NoSeparator(word: string, digits: string)
    requires '_' !in word && AllDigits(digits)
    ensures '_' !in word + digits
  {
    forall j | 0 <= j < |word + digits|
      ensures (word + digits)[j] != '_'
    {
      if j >= |word| {
        assert IsDigit(digits[j - |word|]);
      }
    }
  }

  lemma SplitThree(a: string, b: string, c: string)
    requires '_' !in a && '_' !in b && '_' !in c
    ensures Split(a + "_" + b + "_" + c, '_') == [a, b, c]
  {
    SplitPiece(c, [], '_');
    SplitPiece(b, c, '_');
    assert a + "_" + b + "_" + c == a + ['_'] + (b + ['_'] + c);
    SplitPiece(a, b + ['_'] + c, '_');
  }

  /** The audio key parsed out of a recording key is the key under which
      that task's audio was stored. */
  lemma TaskRoundTrip(subjectIdx: nat, sessionIdx: nat, taskIdx: nat)
    ensures TaskOf(Description(subjectIdx, sessionIdx, taskIdx)) == AudioKey(taskIdx)
  {
    DescriptionTokens(subjectIdx, sessionIdx, taskIdx);
  }

  /** The subject index parsed out of a recording key comes from the last
      two digits of the subject number only. */
  lemma SubjectParsed(subjectIdx: nat, sessionIdx: nat, taskIdx: nat)
    ensures SubjectOf(Description(subjectIdx, sessionIdx, taskIdx)) == Ok((subjectIdx + 1) % 100 - 1)
  {
    var key, v := Description(subjectIdx, sessionIdx, taskIdx), (subjectIdx + 1) % 100;
    SubjectTokenParses(subjectIdx, sessionIdx, taskIdx);
    SubjectOfKey(key, v);
  }

  /** A key whose subject token parses as `v` names subject index `v - 1`. */
  lemma SubjectOfKey(key: string, v: int)
    requires ParseInt(SubjectToken(key)) == Some(v)
    ensures SubjectOf(key) == Ok(v - 1)
  {
  }

  /** The subject token of a recording key parses as the subject number
      modulo 100. */
  lemma SubjectTokenParses(subjectIdx: nat, sessionIdx: nat, taskIdx: nat)
    ensures ParseInt(SubjectToken(Description(subjectIdx, sessionIdx, taskIdx))) == Some((subjectIdx + 1) % 100)
  {
    var tens, units := SubjectTokenOfDescription(subjectIdx, sessionIdx, taskIdx);
    TwoDigitToken(SubjectToken(Description(subjectIdx, sessionIdx, taskIdx)), tens, units, (subjectIdx + 1) % 100);
  }

  /** `int` of the two digits of a number below 100 is that number. */
  lemma TwoDigitToken(token: string, a: nat, b: nat, v: int)
    requires a < 10 && b < 10 && token == [Digit(a), Digit(b)] && v == 10 * a + b
    ensures ParseInt(token) == Some(v)
  {
    assert token[..1] == [Digit(a)] && token[..1][..0] == [];
    assert DigitValue(Digit(a)) == a && DigitValue(Digit(b)) == b;
    assert DigitsValue([Digit(a)]) == a;
    assert DigitsValue(token) == 10 * a + b;
    ParseDigitString(token);
  }

  /** The subject token of a recording key holds the tens and units digits
      of the subject number. */
  lemma SubjectTokenOfDescription(subjectIdx: nat, sessionIdx: nat, taskIdx: nat) returns (tens: nat, units: nat)
    ensures tens < 10 && units < 10 && 10 * tens + units == (subjectIdx + 1) % 100
    ensures SubjectToken(Description(subjectIdx, sessionIdx, taskIdx)) == [Digit(tens), Digit(units)]
  {
    var n := subjectIdx + 1;
    var first := "subject" + ZFill(Str(n), 2);
    tens, units := n / 10 % 10, n % 10;
    DescriptionTokens(subjectIdx, sessionIdx, taskIdx);
    SubjectTokenOfFirst(Description(subjectIdx, sessionIdx, taskIdx), first);
    LastTwoOfSubject(n);
    LastTwoDigitsValue(n);
  }

  lemma SubjectTokenOfFirst(key: string, first: string)
    requires Split(key, '_')[0] == first
    ensures SubjectToken(key) == From(first, -2)
  {
  }

  lemma LastTwoOfSubject(n: nat)
    requires n >= 1
    ensures From("subject" + ZFill(Str(n), 2), -2) == [Digit(n / 10 % 10), Digit(n % 10)]
  {
    LastTwoOfZFilled(n);
    LastTwoAfterPrefix(ZFill(Str(n), 2), [Digit(n / 10 % 10), Digit(n % 10)]);
  }

  /** The last character of `str(m)` is its last decimal digit. */
  lemma StrLast(m: nat)
    ensures Str(m)[|Str(m)| - 1] == Digit(m % 10)
  {
  }
  lemma StrCons(n: nat)
    requires n >= 10
    ensures Str(n) == Str(n / 10) + [Digit(n % 10)]
  {
  }
  lemma LastOfPair(p: string, d: char, z: string)
    requires |p| >= 1 && z == p + [d]
    ensures |z| >= 2 && z[|z| - 2..] == [p[|p| - 1], d]
  {
  }
  lemma ZFillWide(s: string)
    requires |s| >= 2
    ensures ZFill(s, 2) == s
  {
  }
  lemma ZFillOne(d: nat)
    requires d < 10
    ensures ZFill(Str(d), 2) == ['0', Digit(d)]
  {
  }
  /** The last two characters of `str(n).zfill(2)` are the tens and units digits of `n`. */
  lemma LastTwoOfZFilled(n: nat)
    requires n >= 1
    ensures var z := ZFill(Str(n), 2); |z| >= 2 && z[|z| - 2..] == [Digit(n / 10 % 10), Digit(n % 10)]
  {
    var q := n / 10;
    var a, b := q % 10, n % 10;
    if n < 10 {
      assert q == 0 && a == 0 && b == n;
      ZFillOne(n);
    } else {
      StrCons(n);
      StrLast(q);
      LastOfPair(Str(q), Digit(b), Str(n));
      ZFillWide(Str(n));
    }
  }

  lemma LastTwoAfterPrefix(z: string, last2: string)
    requires |z| >= 2 && z[|z| - 2..] == last2
    ensures From("subject" + z, -2) == last2
  {
    FromNegative("subject" + z, 2);
  }

  lemma LastTwoDigitsValue(n: nat)
    ensures n / 10 % 10 * 10 + n % 10 == n % 100
  {
  }

  /** For the 99 subjects whose number has two digits, the subject index
      parsed out of a recording key is the one it was built from. */
  lemma SubjectRoundTrip(subjectIdx: nat, sessionIdx: nat, taskIdx: nat)
    requires subjectIdx <= 98
    ensures SubjectOf(Description(subjectIdx, sessionIdx, taskIdx)) == Ok(subjectIdx)
  {
    SubjectParsed(subjectIdx, sessionIdx, taskIdx);
    TwoDigitNumber(subjectIdx);
  }

  lemma TwoDigitNumber(subjectIdx: nat)
    requires subjectIdx <= 98
    ensures (subjectIdx + 1) % 100 - 1 == subjectIdx
  {
  }

  /** Subject numbers of three digits are misread: number 100 (index 99)
      is read back as index -1, which the uint8 subject tensor stores as
      255, and no index from 99 on is read back as itself. */
  lemma ThreeDigitSubjectsMisread(subjectIdx: nat, sessionIdx: nat, taskIdx: nat)
    requires subjectIdx >= 99
    ensures SubjectOf(Description(subjectIdx, sessionIdx, taskIdx)) != Ok(subjectIdx)
    ensures subjectIdx == 99 ==> SubjectOf(Description(subjectIdx, sessionIdx, taskIdx)) == Ok(-1) && AsUint8(-1) == 255
  {
    SubjectParsed(subjectIdx, sessionIdx, taskIdx);
    ThreeDigitNumber(SubjectOf(Description(subjectIdx, sessionIdx, taskIdx)), subjectIdx);
  }

  lemma ThreeDigitNumber(parsed: Result<int>, subjectIdx: nat)
    requires subjectIdx >= 99 && parsed == Ok((subjectIdx + 1) % 100 - 1)
    ensures parsed != Ok(subjectIdx)
    ensures subjectIdx == 99 ==> parsed == Ok(-1)
  {
    assert (subjectIdx + 1) % 100 - 1 < subjectIdx;
  }

  /** Subject indices 100 apart are read back as the same subject. */
  lemma SubjectsCollide(subjectIdx: nat, sessionIdx: nat, taskIdx: nat)
    ensures SubjectOf(Description(subjectIdx + 100, sessionIdx, taskIdx)) == SubjectOf(Description(subjectIdx, sessionIdx, taskIdx))
  {
    SameLastTwoDigits(subjectIdx + 100, subjectIdx, sessionIdx, taskIdx);
  }

  lemma SameLastTwoDigits(a: nat, b: nat, sessionIdx: nat, taskIdx: nat)
    requires (a + 1) % 100 == (b + 1) % 100
    ensures SubjectOf(Description(a, sessionIdx, taskIdx)) == SubjectOf(Description(b, sessionIdx, taskIdx))
  {
    var v := (b + 1) % 100 - 1;
    assert SubjectOf(Description(a, sessionIdx, taskIdx)) == Ok(v) by {
      SubjectParsed(a, sessionIdx, taskIdx);
    }
    assert SubjectOf(Description(b, sessionIdx, taskIdx)) == Ok(v) by {
      SubjectParsed(b, sessionIdx, taskIdx);
    }
  }
}
