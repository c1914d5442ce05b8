/** backend/services/calculatorService.js: `calculate` rewrites three
    natural-language patterns of an expression into arithmetic and hands the
    result to an expression evaluator, which is a parameter here.

    The three global, case-insensitive replacements are modelled as
    left-to-right scanners: at each position the pattern is tried; a match is
    replaced and scanning resumes after it, otherwise the character is kept.
    `\d` is an ASCII digit, `\s` the JavaScript whitespace class, and the
    case-insensitive letters are ASCII. */
module Calculator {
  import opened Common

  /** The three patterns: `(\d+)%\s+of\s+`, `percent\s+of` and `\s+to\s+`. */
  datatype Pattern = PercentOf | PercentWordOf | To

  /** A match ends before `end` and is replaced by `replacement`. */
  datatype Match = Match(end: nat, replacement: string)

  datatype Calculation = Calculation(expression: string, result: string)

  /** The end of the run of digits starting at `i`. */
  function DigitRunEnd(s: string, i: nat): (j: nat)
    requires i <= |s|
    ensures i <= j <= |s|
    ensures forall k :: i <= k < j ==> IsDigit(s[k])
    ensures j == |s| || !IsDigit(s[j])
    decreases |s| - i
  {
    if i < |s| && IsDigit(s[i]) then DigitRunEnd(s, i + 1) else i
  }

  /** The end of the run of whitespace starting at `i`. */
  function SpaceRunEnd(s: string, i: nat): (j: nat)
    requires i <= |s|
    ensures i <= j <= |s|
    ensures forall k :: i <= k < j ==> IsSpace(s[k])
    ensures j == |s| || !IsSpace(s[j])
    decreases |s| - i
  {
    if i < |s| && IsSpace(s[i]) then SpaceRunEnd(s, i + 1) else i
  }

  /** The word `w` (lower case) occurs at `i`, ignoring ASCII case. */
  predicate WordAt(s: string, i: nat, w: string) {
    i + |w| <= |s| && Lower(s[i..i + |w|]) == w
  }

  /** The match of a pattern at position `i`, if any. */
  function MatchAt(p: Pattern, s: string, i: nat): (r: Option<Match>)
    requires i < |s|
    ensures r.Some? ==> i < r.value.end <= |s|
  {
    match p
    case PercentOf =>
      var j := DigitRunEnd(s, i);
      if j == i || j == |s| || s[j] != '%' then None
      else
        var k := SpaceRunEnd(s, j + 1);
        if k == j + 1 || !WordAt(s, k, "of") then None
        else
          var m := SpaceRunEnd(s, k + 2);
          if m == k + 2 then None else Some(Match(m, "(" + s[i..j] + "/100) * "))
    case PercentWordOf =>
      if !WordAt(s, i, "percent") then None
      else
        var k := SpaceRunEnd(s, i + 7);
        if k == i + 7 || !WordAt(s, k, "of") then None else Some(Match(k + 2, "/ 100 *"))
    case To =>
      var k := SpaceRunEnd(s, i);
      if k == i || !WordAt(s, k, "to") then None
      else
        var m := SpaceRunEnd(s, k + 2);
        if m == k + 2 then None else Some(Match(m, " to "))
  }

  /** `s.slice(i).replace(pattern, replacement)` for the global pattern `p`. */
  function Rewrite(p: Pattern, s: string, i: nat): string
    requires i <= |s|
    decreases |s| - i
  {
    if i == |s| then []
    else
      match MatchAt(p, s, i)
      case Some(m) => m.replacement + Rewrite(p, s, m.end)
      case None => [s[i]] + Rewrite(p, s, i + 1)
  }

  /** The three rewrites in order, then `trim`. */
  function Preprocess(expression: string): string {
    var percentOf := Rewrite(PercentOf, expression, 0);
    var percentWord := Rewrite(PercentWordOf, percentOf, 0);
    var to := Rewrite(To, percentWord, 0);
    Trim(to)
  }

  /** A pattern that matches nowhere leaves the text unchanged. */
  lemma {:induction false} NoMatchNoChange(p: Pattern, s: string, i: nat)
    requires i <= |s|
    requires forall j :: i <= j < |s| ==> MatchAt(p, s, j).None?
    ensures Rewrite(p, s, i) == s[i..]
    decreases |s| - i
  {
    if i < |s| {
      NoMatchNoChange(p, s, i + 1);
      assert s[i..] == [s[i]] + s[i + 1..];
    }
  }

  /** An expression in which none of the three patterns occurs is only trimmed. */
  lemma PlainExpressionOnlyTrimmed(expression: string)
    requires forall p: Pattern, j :: 0 <= j < |expression| ==> MatchAt(p, expression, j).None?
    ensures Preprocess(expression) == Trim(expression)
  {
    NoMatchNoChange(PercentOf, expression, 0);
    NoMatchNoChange(PercentWordOf, expression, 0);
    NoMatchNoChange(To, expression, 0);
  }

  /** A percentage of a number becomes a product with the fraction. */
  lemma PercentOfExample(s: string)
    requires s == "15% of 200"
    ensures Rewrite(PercentOf, s, 0) == "(15/100) * 200"
  {
    PercentOfFirstMatch(s);
    PercentOfTail(s);
  }

  lemma PercentOfFirstMatch(s: string)
    requires s == "15% of 200"
    ensures MatchAt(PercentOf, s, 0) == Some(Match(7, "(15/100) * "))
  {
    assert DigitRunEnd(s, 2) == 2;
    assert DigitRunEnd(s, 1) == 2;
    assert DigitRunEnd(s, 0) == 2;
    assert SpaceRunEnd(s, 4) == 4;
    assert SpaceRunEnd(s, 3) == 4;
    assert Lower(s[4..6]) == "of";
    assert WordAt(s, 4, "of");
    assert SpaceRunEnd(s, 7) == 7;
    assert SpaceRunEnd(s, 6) == 7;
    assert "(" + s[0..2] + "/100) * " == "(15/100) * ";
  }

  lemma PercentOfTail(s: string)
    requires s == "15% of 200"
    ensures Rewrite(PercentOf, s, 7) == "200"
  {
    assert DigitRunEnd(s, 10) == 10;
    assert DigitRunEnd(s, 9) == 10;
    assert DigitRunEnd(s, 8) == 10;
    assert DigitRunEnd(s, 7) == 10;
    assert MatchAt(PercentOf, s, 7).None?;
    assert MatchAt(PercentOf, s, 8).None?;
    assert MatchAt(PercentOf, s, 9).None?;
    assert Rewrite(PercentOf, s, 10) == "";
    assert Rewrite(PercentOf, s, 9) == "0";
    assert Rewrite(PercentOf, s, 8) == "00";
  }

  /** The whole preprocessing of `15% of 200`: the later rewrites and the
      trim leave the product alone. */
  lemma PreprocessPercentOf(s: string)
    requires s == "15% of 200"
    ensures Preprocess(s) == "(15/100) * 200"
  {
    PercentOfExample(s);
    LaterStepsKeepProduct(Rewrite(PercentOf, s, 0));
  }

  lemma LaterStepsKeepProduct(t: string)
    requires t == "(15/100) * 200"
    ensures Trim(Rewrite(To, Rewrite(PercentWordOf, t, 0), 0)) == t
  {
    assert Rewrite(PercentWordOf, t, 0) == t by {
      ProductHasNoWordPattern(t);
      NoMatchNoChange(PercentWordOf, t, 0);
      assert t[0..] == t;
    }
    assert Rewrite(To, t, 0) == t by {
      ProductHasNoTo(t);
      NoMatchNoChange(To, t, 0);
      assert t[0..] == t;
    }
    assert Trim(t) == t by {
      assert t[0] == '(' && t[|t| - 1] == '0';
      TrimNoSpaceEnds(t);
    }
  }

  lemma ProductHasNoWordPattern(t: string)
    requires t == "(15/100) * 200"
    ensures forall j :: 0 <= j < |t| ==> MatchAt(PercentWordOf, t, j).None?
  {
    forall j | 0 <= j < |t|
      ensures MatchAt(PercentWordOf, t, j).None?
    {
      if j + 7 <= |t| {
        assert Lower(t[j..j + 7])[0] == LowerChar(t[j]) != 'p';
      }
    }
  }

  lemma ProductHasNoTo(t: string)
    requires t == "(15/100) * 200"
    ensures forall j :: 0 <= j < |t| ==> MatchAt(To, t, j).None?
  {
    forall j | 0 <= j < |t|
      ensures MatchAt(To, t, j).None?
    {
      var k := SpaceRunEnd(t, j);
      if k != j && k + 2 <= |t| {
        assert Lower(t[k..k + 2])[0] == LowerChar(t[k]) != 't';
      }
    }
  }

  /** `s[i..j]` is a non-empty run of whitespace that `\s+` takes whole:
      no whitespace follows it. */
  predicate SpaceSpan(s: string, i: nat, j: nat) {
    i < j <= |s| && (forall k :: i <= k < j ==> IsSpace(s[k])) && (j == |s| || !IsSpace(s[j]))
  }

  /** `s[i..j]` is a non-empty run of digits that `\d+` takes whole. */
  predicate DigitSpan(s: string, i: nat, j: nat) {
    i < j <= |s| && (forall k :: i <= k < j ==> IsDigit(s[k])) && (j == |s| || !IsDigit(s[j]))
  }

  /** The whitespace run starting at `i` ends at `j`. */
  lemma {:induction false} SpaceRunEndIs(s: string, i: nat, j: nat)
    requires i <= j <= |s| && (forall k :: i <= k < j ==> IsSpace(s[k]))
    requires j == |s| || !IsSpace(s[j])
    ensures SpaceRunEnd(s, i) == j
    decreases j - i
  {
    if i < j {
      SpaceRunEndIs(s, i + 1, j);
    }
  }

  /** The digit run starting at `i` ends at `j`. */
  lemma {:induction false} DigitRunEndIs(s: string, i: nat, j: nat)
    requires i <= j <= |s| && (forall k :: i <= k < j ==> IsDigit(s[k]))
    requires j == |s| || !IsDigit(s[j])
    ensures DigitRunEnd(s, i) == j
    decreases j - i
  {
    if i < j {
      DigitRunEndIs(s, i + 1, j);
    }
  }

  /** `(\d+)%\s+of\s+`, case-insensitive: digits, `%`, whitespace, `of` in
      any case and whitespace are replaced by the fraction of the digits,
      and the scan resumes after the whitespace. */
  lemma PercentOfRule(s: string, i: nat, j: nat, k: nat, n: nat)
    requires DigitSpan(s, i, j) && j < |s| && s[j] == '%'
    requires SpaceSpan(s, j + 1, k) && WordAt(s, k, "of") && SpaceSpan(s, k + 2, n)
    ensures MatchAt(PercentOf, s, i) == Some(Match(n, "(" + s[i..j] + "/100) * "))
    ensures Rewrite(PercentOf, s, i) == "(" + s[i..j] + "/100) * " + Rewrite(PercentOf, s, n)
  {
    DigitRunEndIs(s, i, j);
    SpaceRunEndIs(s, j + 1, k);
    SpaceRunEndIs(s, k + 2, n);
  }

  /** `percent\s+of`, case-insensitive: the word, whitespace and `of`
      become `/ 100 *`. */
  lemma PercentWordRule(s: string, i: nat, k: nat)
    requires WordAt(s, i, "percent") && SpaceSpan(s, i + 7, k) && WordAt(s, k, "of")
    ensures MatchAt(PercentWordOf, s, i) == Some(Match(k + 2, "/ 100 *"))
    ensures Rewrite(PercentWordOf, s, i) == "/ 100 *" + Rewrite(PercentWordOf, s, k + 2)
  {
    SpaceRunEndIs(s, i + 7, k);
  }

  /** `\s+to\s+`, case-insensitive: whitespace, `to` in any case and
      whitespace become ` to `. */
  lemma ToRule(s: string, i: nat, k: nat, n: nat)
    requires SpaceSpan(s, i, k) && WordAt(s, k, "to") && SpaceSpan(s, k + 2, n)
    ensures MatchAt(To, s, i) == Some(Match(n, " to "))
    ensures Rewrite(To, s, i) == " to " + Rewrite(To, s, n)
  {
    SpaceRunEndIs(s, i, k);
    SpaceRunEndIs(s, k + 2, n);
  }

  /** The word form is rewritten whatever its case. */
  lemma PercentWordExample(s: string)
    requires s == "15 PERCENT  of 60"
    ensures MatchAt(PercentWordOf, s, 3) == Some(Match(14, "/ 100 *"))
  {
    assert Lower(s[3..10]) == "percent";
    assert SpaceRunEnd(s, 12) == 12;
    assert SpaceRunEnd(s, 11) == 12;
    assert SpaceRunEnd(s, 10) == 12;
    assert Lower(s[12..14]) == "of";
  }

  /** The spaces around `to` shrink to one each. */
  lemma ToExample(t: string)
    requires t == "32 fahrenheit   TO celsius"
    ensures MatchAt(To, t, 13) == Some(Match(19, " to "))
  {
    assert SpaceRunEnd(t, 16) == 16;
    assert SpaceRunEnd(t, 15) == 16;
    assert SpaceRunEnd(t, 14) == 16;
    assert SpaceRunEnd(t, 13) == 16;
    assert Lower(t[16..18]) == "to";
    assert SpaceRunEnd(t, 18) == 19;
  }

  const ErrorPrefix := "Unable to calculate: "

  /** `calculate(expression)`: the evaluator gets the rewritten expression;
      the answer echoes the original one; any failure is reported with the
      `Unable to calculate: ` prefix. */
  function Calculate(expression: string, evaluate: string -> Result<string, string>): (r: Result<Calculation, string>)
    ensures r.Ok? <==> evaluate(Preprocess(expression)).Ok?
    ensures r.Ok? ==> r.value == Calculation(expression, evaluate(Preprocess(expression)).value)
    ensures r.Err? ==>
      && StartsWith(r.error, ErrorPrefix)
      && r.error[|ErrorPrefix|..] == evaluate(Preprocess(expression)).error
  {
    match evaluate(Preprocess(expression))
    case Ok(result) => Ok(Calculation(expression, result))
    case Err(message) => Err(ErrorPrefix + message)
  }
}
