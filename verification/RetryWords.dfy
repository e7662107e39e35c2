/**
 Retry hints as they are written: letter case, units by their letters, texts that say nothing, and the names and values
 of status fields, said without the functions that read them.
 */
module RetryWords {
  import opened Prelude
  import opened Json
  import opened RetryHint

  // ---- letter case ----

  /** The same letter, in upper or lower case. */
  predicate SameLetter(x: char, y: char) {
    x == y || ('A' <= x <= 'Z' && y as int == x as int + 32) || ('A' <= y <= 'Z' && x as int == y as int + 32)
  }

  predicate SameLetters(a: string, b: string) {
    |a| == |b| && forall i | 0 <= i < |a| :: SameLetter(a[i], b[i])
  }

  lemma SameLettersLower(a: string, b: string)
    ensures SameLetters(a, b) <==> Lower(a) == Lower(b)
  {
    forall i | 0 <= i < |a| && i < |b| ensures SameLetter(a[i], b[i]) <==> LowerChar(a[i]) == LowerChar(b[i]) {
    }
    hide SameLetter, LowerChar;
    if Lower(a) == Lower(b) {
      forall i | 0 <= i < |a| ensures SameLetter(a[i], b[i]) {
        assert Lower(a)[i] == Lower(b)[i];
      }
    }
  }

  /** Letter case never matters to a duration. */
  lemma CaseDoesNotMatter(a: string, b: string)
    requires SameLetters(a, b)
    ensures ParseDuration(a) == ParseDuration(b)
  {
    SameLettersLower(a, b);
    hide Lower, Candidate, ParseCandidate, SameLetters;
  }

  // ---- one quantity ----

  lemma MarkersStart()
    ensures |MARKERS| == 3 && forall k | 0 <= k < |MARKERS| :: |MARKERS[k]| > 0 && MARKERS[k][0] in {'t', 'r'}
  {
  }

  lemma FirstLetter(text: string, part: string, p: nat)
    ensures part != "" && OccursAt(text, part, p) ==> p < |text| && text[p] == part[0]
  {
    if part != "" && OccursAt(text, part, p) {
      assert text[p..p + |part|][0] == text[p];
    }
  }

  lemma Unmarked(lower: string)
    requires forall i | 0 <= i < |lower| :: lower[i] !in {'t', 'r'}
    ensures Candidate(lower, 0) == lower
  {
    MarkersStart();
    forall k | 0 <= k < |MARKERS| ensures !Occurs(lower, MARKERS[k]) {
      forall p: nat ensures !OccursAt(lower, MARKERS[k], p) {
        FirstLetter(lower, MARKERS[k], p);
      }
    }
    hide OccursAt, Candidate;
    NoMarker(lower, 0);
  }

  /** A unit by its letters, and what one of it is in milliseconds. */
  predicate IsUnit(letters: string, ms: nat) {
    || (letters == "d" && ms == 86_400_000) || (letters == "h" && ms == 3_600_000) || (letters == "m" && ms == 60_000)
    || (letters == "s" && ms == 1_000) || (letters == "ms" && ms == 1)
  }

  lemma UnitOf(letters: string, ms: nat) returns (u: Unit)
    requires IsUnit(letters, ms)
    ensures UnitText(u) == letters && UnitMs(u) == ms
  {
    u := if letters == "d" then Day else if letters == "h" then Hour else if letters == "m" then Minute
         else if letters == "s" then Second else Milli;
  }

  lemma QuantityIsRendered(n: nat, gap: string, u: Unit) returns (cs: seq<Component>)
    requires forall i | 0 <= i < |gap| :: IsAsciiSpace(gap[i])
    ensures AllWellWritten(cs) && StartsTight(cs) && |cs| == 1
    ensures Rendered(cs, "") == Digits(n) + gap + UnitText(u) && TotalMs(cs) == n * UnitMs(u)
  {
    var c := Component("", Digits(n), gap, u);
    cs := [c];
    NumberOfDigits(n);
    UnitsAreWorth(u);
    assert WellWritten(c) && Ms(c) == n * UnitMs(u);
    hide Digits, Number, UnitText, UnitMs, Worth, WellWritten, Ms;
    assert Written(c) == Digits(n) + gap + UnitText(u);
    hide Written;
    OneComponent(c);
  }

  lemma OneComponent(c: Component)
    requires WellWritten(c)
    ensures AllWellWritten([c]) && Rendered([c], "") == Written(c) && TotalMs([c]) == Ms(c)
  {
    hide WellWritten, Ms, Written;
    assert [c][1..] == [];
    assert Written(c) + "" == Written(c);
  }

  lemma QuantityIsLower(n: nat, gap: string, letters: string, ms: nat)
    requires IsUnit(letters, ms) && forall i | 0 <= i < |gap| :: IsAsciiSpace(gap[i])
    ensures var s := Digits(n) + gap + letters; Lower(s) == s && forall i | 0 <= i < |s| :: s[i] !in {'t', 'r'}
  {
    hide Digits;
    var s := Digits(n) + gap + letters;
    forall i | 0 <= i < |s| ensures LowerChar(s[i]) == s[i] && s[i] !in {'t', 'r'} {
      assert IsDigit(s[i]) || IsAsciiSpace(s[i]) || s[i] in {'d', 'h', 'm', 's'};
    }
  }

  /** "5m", "5 M", "90 s", …: a number and a unit, in any letter case, say exactly that many of it, up to 366 days. */
  lemma QuantityParses(input: string, n: nat, gap: string, letters: string, ms: nat)
    requires IsUnit(letters, ms) && (forall i | 0 <= i < |gap| :: IsAsciiSpace(gap[i])) && SameLetters(input, Digits(n) + gap + letters)
    ensures ParseDuration(input) == if n * ms <= 366 * 24 * 60 * 60 * 1000 then Some(n * ms) else None
  {
    var s := Digits(n) + gap + letters;
    var u := UnitOf(letters, ms);
    QuantityIsLower(n, gap, letters, ms);
    var cs := QuantityIsRendered(n, gap, u);
    Unmarked(s);
    CaseDoesNotMatter(input, s);
    hide Digits, Rendered, TotalMs, Candidate, Lower, ParseDuration, AllWellWritten, StartsTight, UnitText, UnitMs, IsUnit, SameLetters;
    assert "" + Rendered(cs, "") == Rendered(cs, "");
    assert Ends("");
    RenderedParses(s, "", cs, "");
  }

  /** A text that does not begin with a number, after white space and commas, says no duration. */
  lemma NoNumberIsNone(input: string, space: string, tail: string)
    requires Lower(input) == space + tail && (forall i | 0 <= i < |space| :: IsWhitespace(space[i]))
    requires tail != [] && !IsWhitespace(tail[0])
    requires SkipSeparators(tail) == [] || !IsDigit(SkipSeparators(tail)[0])
    requires forall k | 0 <= k < |MARKERS| :: !Occurs(Lower(input), MARKERS[k])
    ensures ParseDuration(input) == None
  {
    NoMarker(Lower(input), 0);
    Trims(space, tail);
    hide Lower, Candidate, TrimStart, SkipSeparators, Occurs;
    assert Scan(tail, Tally(0, 0)) == Some(Tally(0, 0));
  }

  lemma NoMarker(lower: string, k: nat)
    requires k <= |MARKERS| && forall j | k <= j < |MARKERS| :: !Occurs(lower, MARKERS[j])
    ensures Candidate(lower, k) == lower
    decreases |MARKERS| - k
  {
    if k < |MARKERS| {
      FoundOccurs(lower, MARKERS[k]);
      NoMarker(lower, k + 1);
    }
  }

  // ---- the names of status fields ----

  /** The key is the plain name, in any letter case, with hyphens and underscores anywhere. */
  predicate Spells(key: string, plain: string) {
    if key == "" then plain == ""
    else if key[0] == '-' || key[0] == '_' then Spells(key[1..], plain)
    else plain != "" && SameLetter(key[0], plain[0]) && Spells(key[1..], plain[1..])
  }

  predicate LowerCase(s: string) {
    forall i | 0 <= i < |s| :: 'a' <= s[i] <= 'z'
  }

  lemma LowerTail(key: string)
    requires key != ""
    ensures Lower(key)[1..] == Lower(key[1..]) && Lower(key)[0] == LowerChar(key[0])
  {
  }

  lemma {:induction false} NormalIsSpelling(key: string, plain: string)
    requires LowerCase(plain)
    ensures Normal(key) == plain <==> Spells(key, plain)
  {
    if key != "" {
      LowerTail(key);
      var rest := Normal(key[1..]);
      assert Normal(key) == (if LowerChar(key[0]) in {'-', '_'} then [] else [LowerChar(key[0])]) + rest;
      assert LowerChar(key[0]) in {'-', '_'} <==> key[0] in {'-', '_'};
      if key[0] in {'-', '_'} {
        assert [] + rest == rest;
        NormalIsSpelling(key[1..], plain);
      } else if plain != "" {
        NormalIsSpelling(key[1..], plain[1..]);
        assert LowerChar(key[0]) == plain[0] <==> SameLetter(key[0], plain[0]);
        hide Normal, Spells, Lower;
        assert [LowerChar(key[0])] + rest == plain <==> LowerChar(key[0]) == plain[0] && rest == plain[1..] by {
          assert plain == [plain[0]] + plain[1..];
          assert ([LowerChar(key[0])] + rest)[1..] == rest;
        }
      }
    }
  }

  /** Which fields can report a status: three names anywhere, and a plain one inside an error. */
  lemma StatusNames(key: string)
    ensures IsStatusKey(key) <==> Spells(key, "upstreamstatus") || Spells(key, "statuscode") || Spells(key, "httpstatus")
    ensures IsErrorKey(key) <==> Spells(key, "error")
    ensures Normal(key) == "status" <==> Spells(key, "status")
  {
    NormalIsSpelling(key, "upstreamstatus");
    NormalIsSpelling(key, "statuscode");
    NormalIsSpelling(key, "httpstatus");
    NormalIsSpelling(key, "error");
    NormalIsSpelling(key, "status");
    hide Normal, Spells;
  }

  // ---- the values of status fields ----

  lemma {:induction false} PlainDigits(s: string)
    requires s != "" && (forall i | 0 <= i < |s| :: IsDigit(s[i])) && (s[0] == '0' ==> |s| == 1)
    ensures Digits(Number(s)) == s
  {
    var n := |s| - 1;
    if n == 0 {
      assert s[..0] == "" && s == [s[0]];
      assert DigitChar(DigitValue(s[0])) == s[0];
    } else {
      PlainDigits(s[..n]);
      assert s == s[..n] + [s[n]];
      LeadingIsPositive(s[..n]);
      LastDigit(Number(s[..n]), s[n]);
    }
  }

  lemma {:induction false} LeadingIsPositive(s: string)
    requires s != "" && (forall i | 0 <= i < |s| :: IsDigit(s[i])) && s[0] != '0'
    ensures Number(s) > 0
  {
    if |s| > 1 {
      LeadingIsPositive(s[..|s| - 1]);
    } else {
      assert s[..0] == "";
    }
  }

  lemma LastDigit(high: nat, c: char)
    requires high > 0 && IsDigit(c)
    ensures Digits(10 * high + DigitValue(c)) == Digits(high) + [c]
  {
    assert (10 * high + DigitValue(c)) / 10 == high && (10 * high + DigitValue(c)) % 10 == DigitValue(c);
    assert DigitChar(DigitValue(c)) == c;
  }

  /** A JSON number reports a status exactly if it is written as that status. */
  lemma NumberReports(token: string, expected: nat)
    requires IsNumber(token)
    ensures ValueIsStatus(Num(token), expected) <==> token == Digits(expected) && expected <= U64_MAX
  {
    NumberOfDigits(expected);
    NoSign(token);
    UnsignedReads(token, U64_MAX);
    if forall i | 0 <= i < |token| :: IsDigit(token[i]) {
      NoLeadingZero(token);
      PlainDigits(token);
      assert token == Digits(expected) <==> Number(token) == expected;
    } else {
      assert token != Digits(expected);
    }
    hide Digits, Number, IsNumber, ParseUnsigned;
  }

  lemma UnsignedReads(s: string, max: nat)
    requires s != "" && s[0] != '+'
    ensures ParseUnsigned(s, max) == if (forall i | 0 <= i < |s| :: IsDigit(s[i])) && Number(s) <= max then Some(Number(s)) else None
  {
    assert ParseUnsigned(s, max) == Unsigned(s, max);
    hide Number;
  }

  lemma NoSign(token: string)
    requires IsNumber(token)
    ensures token != "" && token[0] != '+'
  {
  }

  lemma NoLeadingZero(token: string)
    requires IsNumber(token) && forall i | 0 <= i < |token| :: IsDigit(token[i])
    ensures token != "" && (token[0] == '0' ==> |token| == 1)
  {
  }

  /** A string reports a status if it holds the number, with white space around it. */
  lemma TextReports(before: string, after: string, n: nat, expected: nat)
    requires (forall i | 0 <= i < |before| :: IsWhitespace(before[i])) && forall i | 0 <= i < |after| :: IsWhitespace(after[i])
    ensures ValueIsStatus(Str(before + (Digits(n) + after)), expected) <==> n == expected && n <= U64_MAX
  {
    var digits := Digits(n);
    NumberOfDigits(n);
    DigitIsInk(digits[0]);
    DigitIsInk(digits[|digits| - 1]);
    assert digits[0] != '+';
    Trims(before, digits + after);
    TrimsEnd(digits, after);
    hide Digits, Number, TrimStart, TrimEnd, IsWhitespace;
  }

  lemma {:induction false} TrimsEnd(text: string, space: string)
    requires text != "" && !IsWhitespace(text[|text| - 1]) && forall i | 0 <= i < |space| :: IsWhitespace(space[i])
    ensures TrimEnd(text + space) == text
    decreases |space|
  {
    if space == "" {
      assert text + space == text;
    } else {
      var n := |space| - 1;
      TrimsEnd(text, space[..n]);
      assert (text + space)[..|text + space| - 1] == text + space[..n];
    }
  }
}
