// Escaping of Robot Framework argument values (test_suite_creation.py,
// escape_argument_value). Each of the three regular-expression
// substitutions is written as a scan that knows the previous character of
// the original text, which is what the look-behinds inspect.

module RobotEscaping {
  import opened Wrappers

  const Backslash: char := '\\'

  // ---------------------------------------------------------------------
  // Space escaping: re.sub(r'^(?= )|(?<= )$|(?<= )(?= )', r'\\', value)
  // ---------------------------------------------------------------------

  /**
   * Whether the pattern matches at the position between `prev` (None at the
   * start of the text) and the remaining text `rest`: before a leading
   * space, after a space at the end (Python's `$` also matches before a
   * final newline), or between two spaces.
   */
  predicate SpaceMatchAt(prev: Option<char>, rest: string)
  {
    (prev.None? && |rest| > 0 && rest[0] == ' ') ||
    (prev == Some(' ') && (rest == [] || rest == "\n")) ||
    (prev == Some(' ') && |rest| > 0 && rest[0] == ' ')
  }

  function SpaceScan(prev: Option<char>, rest: string): string
    decreases |rest|
  {
    (if SpaceMatchAt(prev, rest) then [Backslash] else []) +
    (if rest == [] then [] else [rest[0]] + SpaceScan(Some(rest[0]), rest[1..]))
  }

  function EscapeSpaces(value: string): (r: string)
    ensures Subsequence(value, r)
    ensures ' ' !in value ==> r == value
  {
    SpaceScanKeepsText(None, value);
    if ' ' in value then SpaceScan(None, value)
    else
      SpaceScanWithoutSpaces(None, value);
      SpaceScan(None, value)
  }

  // ---------------------------------------------------------------------
  // Equal-sign escaping: re.sub(r'(?<!\\)=', r'\=', value)
  // ---------------------------------------------------------------------

  function EqualScan(prev: Option<char>, rest: string): string
    decreases |rest|
  {
    if rest == [] then []
    else
      (if rest[0] == '=' && prev != Some(Backslash) then [Backslash, '='] else [rest[0]]) +
      EqualScan(Some(rest[0]), rest[1..])
  }

  function EscapeEquals(value: string): (r: string)
    ensures Subsequence(value, r)
    ensures EqualsEscaped(None, r)
    ensures '=' !in value ==> r == value
  {
    EqualScanKeepsText(None, value);
    EqualScanEscapes(None, value);
    if '=' in value then EqualScan(None, value)
    else
      NoEqualsIsEscaped(None, value);
      EqualScanOfEscaped(None, value);
      EqualScan(None, value)
  }

  // ---------------------------------------------------------------------
  // Leading hash: re.sub(r'^#', r'\#', value)
  // ---------------------------------------------------------------------

  function EscapeLeadingHash(value: string): (r: string)
    ensures !(|r| > 0 && r[0] == '#')
    ensures |value| > 0 && value[0] == '#' ==> r == [Backslash] + value
    ensures !(|value| > 0 && value[0] == '#') ==> r == value
  {
    if |value| > 0 && value[0] == '#' then [Backslash] + value else value
  }

  /** `escape_argument_value(value, space_escaping, equal_sign_escaping)`. */
  function EscapeArgumentValue(value: string, spaceEscaping: bool, equalSignEscaping: bool): (r: string)
    ensures !(|r| > 0 && r[0] == '#')
    ensures ' ' !in value && '=' !in value && !(|value| > 0 && value[0] == '#') ==> r == value
  {
    var spaced := if spaceEscaping then EscapeSpaces(value) else value;
    var equaled := if equalSignEscaping then EscapeEquals(spaced) else spaced;
    EscapeLeadingHash(equaled)
  }

  // ---------------------------------------------------------------------
  // Subsequences: escaping only inserts characters
  // ---------------------------------------------------------------------

  predicate Subsequence(a: string, b: string)
    decreases |b|
  {
    a == [] ||
    (b != [] && ((a[0] == b[0] && Subsequence(a[1..], b[1..])) || Subsequence(a, b[1..])))
  }

  lemma {:induction false} SubsequenceRefl(a: string)
    ensures Subsequence(a, a)
    decreases |a|
  {
    if a != [] {
      SubsequenceRefl(a[1..]);
    }
  }

  lemma {:induction false} SubsequenceExtendLeft(a: string, x: string, b: string)
    requires Subsequence(a, b)
    ensures Subsequence(a, x + b)
    decreases |x|
  {
    if x == [] {
      assert x + b == b;
    } else {
      SubsequenceExtendLeft(a, x[1..], b);
      assert (x + b)[1..] == x[1..] + b;
    }
  }

  lemma SubsequenceCons(c: char, a: string, b: string)
    requires Subsequence(a, b)
    ensures Subsequence([c] + a, [c] + b)
  {
    assert ([c] + a)[1..] == a;
    assert ([c] + b)[1..] == b;
  }

  lemma {:induction false} SubsequenceTrans(a: string, b: string, c: string)
    requires Subsequence(a, b) && Subsequence(b, c)
    ensures Subsequence(a, c)
    decreases |c|
  {
    if a == [] {
    } else if b == [] {
    } else {
      assert c != [];
      if b[0] == c[0] && Subsequence(b[1..], c[1..]) {
        if a[0] == b[0] && Subsequence(a[1..], b[1..]) {
          SubsequenceTrans(a[1..], b[1..], c[1..]);
        } else {
          SubsequenceTrans(a, b[1..], c[1..]);
        }
      } else {
        SubsequenceTrans(a, b, c[1..]);
      }
    }
  }

  lemma {:induction false} SpaceScanKeepsText(prev: Option<char>, rest: string)
    ensures Subsequence(rest, SpaceScan(prev, rest))
    decreases |rest|
  {
    if rest != [] {
      SpaceScanKeepsText(Some(rest[0]), rest[1..]);
      SubsequenceCons(rest[0], rest[1..], SpaceScan(Some(rest[0]), rest[1..]));
      assert [rest[0]] + rest[1..] == rest;
      SubsequenceExtendLeft(rest, if SpaceMatchAt(prev, rest) then [Backslash] else [],
                            [rest[0]] + SpaceScan(Some(rest[0]), rest[1..]));
    }
  }

  lemma {:induction false} EqualScanKeepsText(prev: Option<char>, rest: string)
    ensures Subsequence(rest, EqualScan(prev, rest))
    decreases |rest|
  {
    if rest != [] {
      var tail := EqualScan(Some(rest[0]), rest[1..]);
      EqualScanKeepsText(Some(rest[0]), rest[1..]);
      SubsequenceCons(rest[0], rest[1..], tail);
      assert [rest[0]] + rest[1..] == rest;
      if rest[0] == '=' && prev != Some(Backslash) {
        SubsequenceExtendLeft(rest, [Backslash], [rest[0]] + tail);
        assert [Backslash, '='] + tail == [Backslash] + ([rest[0]] + tail);
      }
    }
  }

  /** Whatever the flags, the value is a subsequence of its escaped form. */
  lemma EscapingOnlyInserts(value: string, spaceEscaping: bool, equalSignEscaping: bool)
    ensures Subsequence(value, EscapeArgumentValue(value, spaceEscaping, equalSignEscaping))
  {
    var spaced := if spaceEscaping then EscapeSpaces(value) else value;
    var equaled := if equalSignEscaping then EscapeEquals(spaced) else spaced;
    if spaceEscaping { SpaceScanKeepsText(None, value); } else { SubsequenceRefl(value); }
    if equalSignEscaping { EqualScanKeepsText(None, spaced); } else { SubsequenceRefl(spaced); }
    SubsequenceTrans(value, spaced, equaled);
    if |equaled| > 0 && equaled[0] == '#' {
      SubsequenceRefl(equaled);
      SubsequenceExtendLeft(equaled, [Backslash], equaled);
    } else {
      SubsequenceRefl(equaled);
    }
    SubsequenceTrans(value, equaled, EscapeLeadingHash(equaled));
  }

  // ---------------------------------------------------------------------
  // Space escaping separates spaces
  // ---------------------------------------------------------------------

  predicate NoAdjacentSpaces(s: string)
  {
    forall i :: 0 <= i < |s| - 1 ==> !(s[i] == ' ' && s[i + 1] == ' ')
  }

  lemma SpaceScanFirst(prev: Option<char>, rest: string)
    ensures var out := SpaceScan(prev, rest);
      out != [] ==> out[0] == (if SpaceMatchAt(prev, rest) then Backslash else rest[0])
  {
  }

  lemma {:induction false} SpaceScanLast(prev: Option<char>, rest: string)
    requires rest != []
    ensures var out := SpaceScan(prev, rest);
      out != [] &&
      out[|out| - 1] == (if SpaceMatchAt(Some(rest[|rest| - 1]), []) then Backslash else rest[|rest| - 1])
    decreases |rest|
  {
    var tail := SpaceScan(Some(rest[0]), rest[1..]);
    if rest[1..] != [] {
      SpaceScanLast(Some(rest[0]), rest[1..]);
      assert rest[1..][|rest[1..]| - 1] == rest[|rest| - 1];
    } else {
      assert tail == if SpaceMatchAt(Some(rest[0]), []) then [Backslash] else [];
    }
  }

  lemma {:induction false} SpaceScanSeparates(prev: Option<char>, rest: string)
    ensures NoAdjacentSpaces(SpaceScan(prev, rest))
    decreases |rest|
  {
    if rest != [] {
      var tail := SpaceScan(Some(rest[0]), rest[1..]);
      SpaceScanSeparates(Some(rest[0]), rest[1..]);
      SpaceScanFirst(Some(rest[0]), rest[1..]);
      var ins: string := if SpaceMatchAt(prev, rest) then [Backslash] else [];
      var out := ins + [rest[0]] + tail;
      assert SpaceScan(prev, rest) == out;
      forall i | 0 <= i < |out| - 1
        ensures !(out[i] == ' ' && out[i + 1] == ' ')
      {
        if i >= |ins| + 1 {
          assert out[i] == tail[i - |ins| - 1] && out[i + 1] == tail[i - |ins|];
        } else if i == |ins| {
          assert out[i + 1] == tail[0];
        }
      }
    }
  }

  /**
   * After space escaping the text neither starts nor ends with a space and
   * has no two spaces side by side; text without spaces is unchanged.
   */
  lemma SpacesAreSeparated(value: string)
    ensures NoAdjacentSpaces(EscapeSpaces(value))
    ensures EscapeSpaces(value) != [] ==> EscapeSpaces(value)[0] != ' '
    ensures var out := EscapeSpaces(value); out != [] ==> out[|out| - 1] != ' '
    ensures ' ' !in value ==> EscapeSpaces(value) == value
  {
    SpaceScanSeparates(None, value);
    SpaceScanFirst(None, value);
    if value != [] {
      SpaceScanLast(None, value);
    }
    if ' ' !in value {
      SpaceScanWithoutSpaces(None, value);
    }
  }

  lemma {:induction false} SpaceScanWithoutSpaces(prev: Option<char>, rest: string)
    requires ' ' !in rest && prev != Some(' ')
    ensures SpaceScan(prev, rest) == rest
    decreases |rest|
  {
    if rest != [] {
      SpaceScanWithoutSpaces(Some(rest[0]), rest[1..]);
    }
  }

  /** A backslash goes exactly where the pattern matches: the three cases of the pattern. */
  lemma SpaceEscapingCases(a: string, b: string)
    ensures EscapeSpaces(" " + a) == [Backslash] + " " + SpaceScan(Some(' '), a)
    ensures SpaceScan(Some(' '), "") == [Backslash]
    ensures SpaceScan(Some(' '), " " + b) == [Backslash] + " " + SpaceScan(Some(' '), b)
    ensures SpaceScan(Some('x'), " " + b) == " " + SpaceScan(Some(' '), b)
  {
    SpaceScanCons(None, ' ', a);
    SpaceScanCons(Some(' '), ' ', b);
    SpaceScanCons(Some('x'), ' ', b);
  }

  lemma SpaceScanCons(prev: Option<char>, c: char, rest: string)
    ensures SpaceScan(prev, [c] + rest) ==
            (if SpaceMatchAt(prev, [c] + rest) then [Backslash] else []) + [c] + SpaceScan(Some(c), rest)
  {
    var s := [c] + rest;
    assert s[0] == c && s[1..] == rest;
  }

  // ---------------------------------------------------------------------
  // Equal escaping leaves no bare "=" and is idempotent
  // ---------------------------------------------------------------------

  /** Every "=" of `s` is preceded by a backslash (`prev` is the character before `s`). */
  predicate EqualsEscaped(prev: Option<char>, s: string)
    decreases |s|
  {
    s == [] ||
    ((s[0] == '=' ==> prev == Some(Backslash)) && EqualsEscaped(Some(s[0]), s[1..]))
  }

  function LastOr(prev: Option<char>, s: string): Option<char>
  {
    if s == [] then prev else Some(s[|s| - 1])
  }

  lemma {:induction false} EqualsEscapedAppend(prev: Option<char>, a: string, b: string)
    ensures EqualsEscaped(prev, a + b) <==> EqualsEscaped(prev, a) && EqualsEscaped(LastOr(prev, a), b)
    decreases |a|
  {
    if a == [] {
      assert a + b == b;
    } else {
      assert (a + b)[0] == a[0];
      assert (a + b)[1..] == a[1..] + b;
      EqualsEscapedAppend(Some(a[0]), a[1..], b);
      if a[1..] != [] {
        assert a[1..][|a[1..]| - 1] == a[|a| - 1];
      }
    }
  }

  lemma {:induction false} EqualScanEscapes(prev: Option<char>, rest: string)
    ensures EqualsEscaped(prev, EqualScan(prev, rest))
    ensures LastOr(prev, EqualScan(prev, rest)) == LastOr(prev, rest)
    decreases |rest|
  {
    if rest != [] {
      var piece: string := if rest[0] == '=' && prev != Some(Backslash) then [Backslash, '='] else [rest[0]];
      var tail := EqualScan(Some(rest[0]), rest[1..]);
      EqualScanEscapes(Some(rest[0]), rest[1..]);
      EqualsEscapedAppend(prev, piece, tail);
      assert LastOr(prev, piece) == Some(rest[0]);
      assert EqualsEscaped(prev, piece) by {
        assert piece[1..] == [] || piece[1..] == ['='];
        if |piece| == 2 {
          assert piece[1..][1..] == [];
        }
      }
      if rest[1..] != [] {
        assert rest[1..][|rest[1..]| - 1] == rest[|rest| - 1];
      }
      var out := piece + tail;
      if tail != [] {
        assert out[|out| - 1] == tail[|tail| - 1];
      }
    }
  }

  lemma {:induction false} EqualScanOfEscaped(prev: Option<char>, rest: string)
    requires EqualsEscaped(prev, rest)
    ensures EqualScan(prev, rest) == rest
    decreases |rest|
  {
    if rest != [] {
      EqualScanOfEscaped(Some(rest[0]), rest[1..]);
    }
  }

  /** After equal escaping every "=" is preceded by a backslash; escaping again changes nothing. */
  lemma EqualEscapingIsIdempotent(value: string)
    ensures EqualsEscaped(None, EscapeEquals(value))
    ensures EscapeEquals(EscapeEquals(value)) == EscapeEquals(value)
    ensures '=' !in value ==> EscapeEquals(value) == value
  {
    EqualScanEscapes(None, value);
    EqualScanOfEscaped(None, EscapeEquals(value));
    if '=' !in value {
      NoEqualsIsEscaped(None, value);
      EqualScanOfEscaped(None, value);
    }
  }

  lemma {:induction false} NoEqualsIsEscaped(prev: Option<char>, s: string)
    requires '=' !in s
    ensures EqualsEscaped(prev, s)
    decreases |s|
  {
    if s != [] {
      NoEqualsIsEscaped(Some(s[0]), s[1..]);
    }
  }

  /** An "=" already escaped stays as it is; a bare one after any other character is escaped. */
  lemma EqualEscapingCases(a: string, c: char)
    requires c != Backslash
    ensures EqualScan(Some(Backslash), "=" + a) == "=" + EqualScan(Some('='), a)
    ensures EqualScan(Some(c), "=" + a) == [Backslash, '='] + EqualScan(Some('='), a)
    ensures EscapeEquals("=" + a) == [Backslash, '='] + EqualScan(Some('='), a)
  {
    assert ("=" + a)[1..] == a;
  }

  /** The escaped argument never starts with "#"; with equal escaping every "=" is escaped. */
  lemma EscapedArgumentProperties(value: string, spaceEscaping: bool, equalSignEscaping: bool)
    ensures var r := EscapeArgumentValue(value, spaceEscaping, equalSignEscaping);
      !(|r| > 0 && r[0] == '#') &&
      (equalSignEscaping ==> EqualsEscaped(None, r))
  {
    var spaced := if spaceEscaping then EscapeSpaces(value) else value;
    if equalSignEscaping {
      var equaled := EscapeEquals(spaced);
      EqualScanEscapes(None, spaced);
      if |equaled| > 0 && equaled[0] == '#' {
        assert EscapeLeadingHash(equaled) == [Backslash] + equaled;
        EqualsEscapedAppend(None, [Backslash], equaled);
        EscapedUnderAnyPrefix(equaled, Backslash);
      }
    }
  }

  lemma EscapedUnderAnyPrefix(s: string, c: char)
    requires EqualsEscaped(None, s)
    ensures EqualsEscaped(Some(c), s)
  {
  }
}
