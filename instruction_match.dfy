/**
 * The two regular expressions the fallback instruction parser applies,
 * both case-insensitive and without the global flag, so `match` returns the
 * leftmost match and its two captured digit runs:
 *
 *   dimensions: (\d+)\s*(?:in|inch|inches|")?\s*(?:by|x|×)\s*(\d+)\s*(?:in|inch|inches|")?
 *   position:   (?:at|position)\s*(?:\()?(\d+)\s*(?:in|inch|inches|")?\s*(?:,|and)\s*(\d+)…
 *
 * Only what decides whether a start position matches and what is captured is
 * modelled; the optional suffixes after the second number always match and
 * capture nothing. The matcher follows the backtracking order of the regex
 * (alternatives left to right, optional groups tried before being skipped).
 */
module InstructionMatch {
  import opened Wrappers
  import JsText
  import Sequences

  /** `\d`. */
  predicate IsDigit(c: char) { '0' <= c <= '9' }

  /** `\s`: the ECMAScript white space and line terminator characters. */
  predicate IsSpace(c: char) {
    var n := c as int;
    n == 0x09 || n == 0x0A || n == 0x0B || n == 0x0C || n == 0x0D || n == 0x20 || n == 0xA0 || n == 0x1680
    || (0x2000 <= n <= 0x200A) || n == 0x2028 || n == 0x2029 || n == 0x202F || n == 0x205F || n == 0x3000 || n == 0xFEFF
  }

  /** The end of the longest run of characters satisfying `p` that starts at `i`. */
  function RunEnd(s: string, i: nat, p: char -> bool): (j: nat)
    requires i <= |s|
    ensures i <= j <= |s|
    ensures forall k :: i <= k < j ==> p(s[k])
    ensures j == |s| || !p(s[j])
    decreases |s| - i
  {
    if i < |s| && p(s[i]) then RunEnd(s, i + 1, p) else i
  }

  /** The lower-case word `w` occurs at `i`, ignoring case. */
  predicate WordAt(s: string, i: nat, w: string) {
    i + |w| <= |s| && JsText.ToLower(s[i..i + |w|]) == w
  }

  const Units: seq<string> := ["in", "inch", "inches", "\""]
  const DimensionSeparators: seq<string> := ["by", "x", "×"]
  const PositionSeparators: seq<string> := [",", "and"]

  /** The value of a digit character. */
  function DigitValue(c: char): nat {
    if IsDigit(c) then c as int - '0' as int else 0
  }

  /** `parseInt` of a run of decimal digits. */
  function ParseDigits(d: string): nat {
    if d == [] then 0 else 10 * ParseDigits(d[..|d| - 1]) + DigitValue(d[|d| - 1])
  }

  /** The two numbers a match captures. */
  datatype Numbers = Numbers(first: nat, second: nat)

  /**
   * `(?:sep…)\s*` at `i` followed by a digit, trying the separators in
   * order: the index of that digit.
   */
  function SeparatorThenDigit(s: string, i: nat, seps: seq<string>): (r: Option<nat>)
    requires i <= |s|
    ensures r.Some? ==> i <= r.value < |s| && IsDigit(s[r.value])
    ensures r.Some? ==> exists n :: 0 <= n < |seps| && WordAt(s, i, seps[n])
    decreases |seps|
  {
    if seps == [] then None
    else if WordAt(s, i, seps[0]) && RunEnd(s, i + |seps[0]|, IsSpace) < |s| && IsDigit(s[RunEnd(s, i + |seps[0]|, IsSpace)]) then
      Some(RunEnd(s, i + |seps[0]|, IsSpace))
    else SeparatorThenDigit(s, i, seps[1..])
  }

  /**
   * `(?:in|inch|inches|")?\s*(?:sep…)\s*` at `i` (already past the spaces)
   * followed by a digit, trying unit `u` and the later ones before skipping
   * the unit. Giving back spaces taken by the `\s*` before the unit never
   * leads to another outcome, since a unit cannot start with a space.
   */
  function UnitThenSeparator(s: string, i: nat, u: nat, seps: seq<string>): (r: Option<nat>)
    requires i <= |s|
    ensures r.Some? ==> i <= r.value < |s| && IsDigit(s[r.value])
    decreases |Units| - u
  {
    if u < |Units| then
      var afterUnit := if WordAt(s, i, Units[u]) then SeparatorThenDigit(s, RunEnd(s, i + |Units[u]|, IsSpace), seps) else None;
      if afterUnit.Some? then afterUnit else UnitThenSeparator(s, i, u + 1, seps)
    else SeparatorThenDigit(s, i, seps)
  }

  /**
   * `(\d+)\s*(?:in|inch|inches|")?\s*(?:sep…)\s*(\d+)` at `i`. Both digit
   * runs are taken whole: a shorter first run would leave a digit where
   * only spaces, a unit or a separator may follow.
   */
  function NumbersAt(s: string, i: nat, seps: seq<string>): Option<Numbers>
    requires i <= |s|
  {
    if i < |s| && IsDigit(s[i]) then
      var j := RunEnd(s, i, IsDigit);
      match UnitThenSeparator(s, RunEnd(s, j, IsSpace), 0, seps)
      case None => None
      case Some(k) => Some(Numbers(ParseDigits(s[i..j]), ParseDigits(s[k..RunEnd(s, k, IsDigit)])))
    else None
  }

  datatype Pattern = Dimensions | Position

  /** The match of `pattern` that starts exactly at `i`, if any. */
  function MatchAt(s: string, i: nat, pattern: Pattern): Option<Numbers>
    requires i <= |s|
  {
    match pattern
    case Dimensions => NumbersAt(s, i, DimensionSeparators)
    case Position =>
      var keywordEnd := if WordAt(s, i, "at") then i + 2 else if WordAt(s, i, "position") then i + 8 else 0;
      if keywordEnd == 0 then None
      else
        var k := RunEnd(s, keywordEnd, IsSpace);
        NumbersAt(s, if k < |s| && s[k] == '(' then k + 1 else k, PositionSeparators)
  }

  /** The first start position in `i..n` where `at` gives a match. */
  function FirstMatch(n: nat, i: nat, at: nat -> Option<Numbers>): Option<Numbers>
    requires i <= n
    decreases n - i
  {
    if at(i).Some? then at(i)
    else if i == n then None
    else FirstMatch(n, i + 1, at)
  }

  /** `FirstMatch` finds a match exactly when one exists, and it finds the leftmost one. */
  lemma {:induction false} FirstMatchIsLeftmost(n: nat, i: nat, at: nat -> Option<Numbers>)
    requires i <= n
    ensures FirstMatch(n, i, at).None? <==> forall j :: i <= j <= n ==> at(j).None?
    ensures FirstMatch(n, i, at).Some? ==>
              exists j :: i <= j <= n && at(j) == FirstMatch(n, i, at) && forall k :: i <= k < j ==> at(k).None?
    decreases n - i
  {
    if at(i).Some? {
    } else if i < n {
      FirstMatchIsLeftmost(n, i + 1, at);
      if FirstMatch(n, i, at).Some? {
        var j :| i + 1 <= j <= n && at(j) == FirstMatch(n, i + 1, at) && forall k :: i + 1 <= k < j ==> at(k).None?;
        assert forall k :: i <= k < j ==> at(k).None?;
      }
    }
  }

  /** `instruction.match(pattern)`, reduced to the two captured numbers. */
  function Match(s: string, pattern: Pattern): Option<Numbers> {
    FirstMatch(|s|, 0, (j: nat) => if j <= |s| then MatchAt(s, j, pattern) else None)
  }

  /** `Match` gives the match at the leftmost start position where there is one, and only then nothing. */
  lemma MatchIsLeftmost(s: string, pattern: Pattern)
    ensures Match(s, pattern).None? <==> forall j :: 0 <= j <= |s| ==> MatchAt(s, j, pattern).None?
    ensures Match(s, pattern).Some? ==>
              exists j :: 0 <= j <= |s| && MatchAt(s, j, pattern) == Match(s, pattern)
                          && forall k :: 0 <= k < j ==> MatchAt(s, k, pattern).None?
  {
    var at := (j: nat) => if j <= |s| then MatchAt(s, j, pattern) else None;
    FirstMatchIsLeftmost(|s|, 0, at);
    assert forall j :: 0 <= j <= |s| ==> at(j) == MatchAt(s, j, pattern);
  }

  /** The decimal digits of `n`, the inverse of `ParseDigits`. */
  function NatToDigits(n: nat): (d: string)
    ensures |d| > 0 && forall k :: 0 <= k < |d| ==> IsDigit(d[k])
  {
    var last := ('0' as int + n % 10) as char;
    if n < 10 then [last] else NatToDigits(n / 10) + [last]
  }

  lemma {:induction false} ParseNatToDigits(n: nat)
    ensures ParseDigits(NatToDigits(n)) == n
  {
    var d := NatToDigits(n);
    if n >= 10 {
      ParseNatToDigits(n / 10);
      assert d[..|d| - 1] == NatToDigits(n / 10);
    }
  }

  /** `RunEnd` stops exactly at the first character after a run. */
  lemma {:induction false} RunEndAt(s: string, i: nat, j: nat, p: char -> bool)
    requires i <= j <= |s|
    requires forall k :: i <= k < j ==> p(s[k])
    requires j == |s| || !p(s[j])
    ensures RunEnd(s, i, p) == j
    decreases j - i
  {
    if i < j {
      RunEndAt(s, i + 1, j, p);
    }
  }

  /** A word can only match where its first letter does. */
  lemma WordAtFirst(s: string, i: nat, w: string)
    requires WordAt(s, i, w) && |w| > 0
    ensures JsText.LowerChar(s[i]) == w[0]
  {
    assert JsText.ToLower(s[i..i + |w|])[0] == JsText.LowerChar(s[i..i + |w|][0]);
  }

  /** No unit starts with the letter `b`, so a unit never matches before "by". */
  lemma NoUnitBeforeBy(s: string, i: nat)
    requires i < |s| && s[i] == 'b'
    ensures forall u :: 0 <= u < |Units| ==> !WordAt(s, i, Units[u])
  {
    forall u | 0 <= u < |Units| ensures !WordAt(s, i, Units[u]) {
      if WordAt(s, i, Units[u]) {
        WordAtFirst(s, i, Units[u]);
      }
    }
  }

  /** The unit alternatives all fail at `i`, so the unit group is skipped. */
  lemma {:induction false} UnitSkipped(s: string, i: nat, u: nat, seps: seq<string>)
    requires i <= |s| && u <= |Units|
    requires forall v :: u <= v < |Units| ==> !WordAt(s, i, Units[v])
    ensures UnitThenSeparator(s, i, u, seps) == SeparatorThenDigit(s, i, seps)
    decreases |Units| - u
  {
    if u < |Units| {
      UnitSkipped(s, i, u + 1, seps);
    }
  }

  /** "by" after a space and before " " and a digit: the separator step succeeds. */
  lemma ByThenDigit(s: string, i: nat)
    requires i + 4 <= |s| && s[i..i + 2] == "by" && s[i + 2] == ' ' && IsDigit(s[i + 3])
    ensures SeparatorThenDigit(s, i, DimensionSeparators) == Some(i + 3)
  {
    assert JsText.ToLower("by") == "by";
    assert WordAt(s, i, DimensionSeparators[0]);
    RunEndAt(s, i + 2, i + 3, IsSpace);
  }

  /** The step between two numbers in "W by H": " by " leads to the digit after it. */
  lemma ByStep(s: string, n: nat)
    requires n + 5 <= |s| && s[n..n + 4] == " by " && IsDigit(s[n + 4])
    ensures UnitThenSeparator(s, RunEnd(s, n, IsSpace), 0, DimensionSeparators) == Some(n + 4)
  {
    assert s[n] == ' ' && s[n + 1] == 'b' && s[n + 2] == 'y' && s[n + 3] == ' ';
    assert s[n + 1..n + 3] == "by";
    RunEndAt(s, n, n + 1, IsSpace);
    NoUnitBeforeBy(s, n + 1);
    UnitSkipped(s, n + 1, 0, DimensionSeparators);
    ByThenDigit(s, n + 1);
  }

  /** A match at `i` once its three steps are known. */
  lemma NumbersAtSteps(s: string, i: nat, j: nat, k: nat, e: nat, seps: seq<string>)
    requires i < j <= |s| && IsDigit(s[i]) && RunEnd(s, i, IsDigit) == j
    requires UnitThenSeparator(s, RunEnd(s, j, IsSpace), 0, seps) == Some(k)
    requires k <= e <= |s| && RunEnd(s, k, IsDigit) == e
    ensures NumbersAt(s, i, seps) == Some(Numbers(ParseDigits(s[i..j]), ParseDigits(s[k..e])))
  {
  }

  /** The dimension pattern at the start of "W by H…" captures the digit runs W and H. */
  lemma DigitsByDigits(a: string, b: string, rest: string)
    requires |a| > 0 && forall k :: 0 <= k < |a| ==> IsDigit(a[k])
    requires |b| > 0 && forall k :: 0 <= k < |b| ==> IsDigit(b[k])
    requires rest == [] || !IsDigit(rest[0])
    ensures NumbersAt(a + " by " + b + rest, 0, DimensionSeparators) == Some(Numbers(ParseDigits(a), ParseDigits(b)))
  {
    var s := a + " by " + b + rest;
    var n, e := |a|, |a| + 4 + |b|;
    assert s[..n] == a && s[n..n + 4] == " by " && s[n + 4..e] == b;
    assert forall k :: 0 <= k < n ==> s[k] == a[k];
    assert forall k :: n + 4 <= k < e ==> s[k] == b[k - n - 4];
    assert s[n] == ' ' && s[0] == a[0] && s[n + 4] == b[0];
    RunEndAt(s, 0, n, IsDigit);
    ByStep(s, n);
    assert e == |s| || s[e] == rest[0];
    RunEndAt(s, n + 4, e, IsDigit);
    NumbersAtSteps(s, 0, n, n + 4, e, DimensionSeparators);
  }

  /**
   * Reading back what the help text's phrasing produces: the dimension
   * pattern matches "W by H…" at its start and captures W and H.
   */
  lemma DimensionsReadBack(w: nat, h: nat, rest: string)
    requires rest == [] || !IsDigit(rest[0])
    ensures NumbersAt(NatToDigits(w) + " by " + NatToDigits(h) + rest, 0, DimensionSeparators) == Some(Numbers(w, h))
    ensures Match(NatToDigits(w) + " by " + NatToDigits(h) + rest, Dimensions) == Some(Numbers(w, h))
  {
    DigitsByDigits(NatToDigits(w), NatToDigits(h), rest);
    ParseNatToDigits(w);
    ParseNatToDigits(h);
  }

  /** A unit starts with `i` or `"`, so none matches where a comma or an `a` stands. */
  lemma NoUnitAt(s: string, i: nat)
    requires i < |s| && (s[i] == ',' || s[i] == 'a')
    ensures forall u :: 0 <= u < |Units| ==> !WordAt(s, i, Units[u])
  {
    forall u | 0 <= u < |Units| ensures !WordAt(s, i, Units[u]) {
      if WordAt(s, i, Units[u]) {
        WordAtFirst(s, i, Units[u]);
      }
    }
  }

  /** The step between two numbers in "X, Y": ", " leads to the digit after it. */
  lemma CommaStep(s: string, n: nat)
    requires n + 3 <= |s| && s[n] == ',' && s[n + 1] == ' ' && IsDigit(s[n + 2])
    ensures UnitThenSeparator(s, RunEnd(s, n, IsSpace), 0, PositionSeparators) == Some(n + 2)
  {
    RunEndAt(s, n, n, IsSpace);
    NoUnitAt(s, n);
    UnitSkipped(s, n, 0, PositionSeparators);
    assert s[n..n + 1] == "," && JsText.ToLower(",") == ",";
    assert WordAt(s, n, PositionSeparators[0]);
    RunEndAt(s, n + 1, n + 2, IsSpace);
  }

  /** "and" before " " and a digit: the second separator succeeds once the comma has failed. */
  lemma AndThenDigit(s: string, i: nat)
    requires i + 5 <= |s| && s[i] == 'a' && s[i + 1] == 'n' && s[i + 2] == 'd' && s[i + 3] == ' ' && IsDigit(s[i + 4])
    ensures SeparatorThenDigit(s, i, PositionSeparators) == Some(i + 4)
  {
    assert s[i..i + 3] == [s[i], s[i + 1], s[i + 2]] == "and";
    if WordAt(s, i, PositionSeparators[0]) {
      WordAtFirst(s, i, PositionSeparators[0]);
    }
    assert PositionSeparators[1..] == ["and"];
    assert JsText.ToLower("and") == "and";
    assert WordAt(s, i, "and");
    RunEndAt(s, i + 3, i + 4, IsSpace);
    assert SeparatorThenDigit(s, i, ["and"]) == Some(i + 4);
  }

  /** The step between two numbers in "X and Y": " and " leads to the digit after it. */
  lemma AndStep(s: string, n: nat)
    requires n + 6 <= |s| && s[n..n + 5] == " and " && IsDigit(s[n + 5])
    ensures UnitThenSeparator(s, RunEnd(s, n, IsSpace), 0, PositionSeparators) == Some(n + 5)
  {
    var m := s[n..n + 5];
    assert s[n] == m[0] == ' ' && s[n + 1] == m[1] == 'a' && s[n + 2] == m[2] == 'n';
    assert s[n + 3] == m[3] == 'd' && s[n + 4] == m[4] == ' ';
    RunEndAt(s, n, n + 1, IsSpace);
    NoUnitAt(s, n + 1);
    UnitSkipped(s, n + 1, 0, PositionSeparators);
    AndThenDigit(s, n + 1);
  }

  /** A match at `i` from the two digit runs `i..n` and `k..e` and the step from `n` to `k`. */
  lemma NumbersBetween(s: string, i: nat, n: nat, k: nat, e: nat, seps: seq<string>)
    requires i < n < k < e <= |s| && !IsDigit(s[n]) && (e == |s| || !IsDigit(s[e]))
    requires forall t :: i <= t < n ==> IsDigit(s[t])
    requires forall t :: k <= t < e ==> IsDigit(s[t])
    requires UnitThenSeparator(s, RunEnd(s, n, IsSpace), 0, seps) == Some(k)
    ensures NumbersAt(s, i, seps) == Some(Numbers(ParseDigits(s[i..n]), ParseDigits(s[k..e])))
  {
    RunEndAt(s, i, n, IsDigit);
    RunEndAt(s, k, e, IsDigit);
    NumbersAtSteps(s, i, n, k, e, seps);
  }

  /**
   * The position pattern at the start of `s`: its keyword ends at `kwEnd`,
   * one space follows, and the numbers are matched right after it.
   */
  lemma KeywordThenNumbers(s: string, kwEnd: nat, r: Numbers)
    requires kwEnd > 0 && kwEnd == if WordAt(s, 0, "at") then 2 else if WordAt(s, 0, "position") then 8 else 0
    requires kwEnd + 1 < |s| && s[kwEnd] == ' ' && IsDigit(s[kwEnd + 1])
    requires NumbersAt(s, kwEnd + 1, PositionSeparators) == Some(r)
    ensures MatchAt(s, 0, Position) == Some(r) && Match(s, Position) == Some(r)
  {
    RunEndAt(s, kwEnd, kwEnd + 1, IsSpace);
  }

  /**
   * Reading back the help text's position phrasing: the position pattern
   * matches "at X, Y…" at its start and captures X and Y.
   */
  lemma PositionReadBack(x: nat, y: nat, rest: string)
    requires rest == [] || !IsDigit(rest[0])
    ensures MatchAt("at " + NatToDigits(x) + ", " + NatToDigits(y) + rest, 0, Position) == Some(Numbers(x, y))
    ensures Match("at " + NatToDigits(x) + ", " + NatToDigits(y) + rest, Position) == Some(Numbers(x, y))
  {
    var a, b := NatToDigits(x), NatToDigits(y);
    var s := "at " + a + ", " + b + rest;
    var n := 3 + |a|;
    Sequences.Pieces("at ", a, ", ", b, rest);
    assert s[..3][..2] == "at" && JsText.ToLower("at") == "at";
    assert WordAt(s, 0, "at");
    assert s[2] == ' ' && s[3] == a[0];
    assert s[n] == ',' && s[n + 1] == ' ' && s[n + 2] == b[0];
    CommaStep(s, n);
    assert n + 2 + |b| == |s| || s[n + 2 + |b|] == rest[0];
    NumbersBetween(s, 3, n, n + 2, n + 2 + |b|, PositionSeparators);
    ParseNatToDigits(x);
    ParseNatToDigits(y);
    KeywordThenNumbers(s, 2, Numbers(x, y));
  }

  /** The other phrasing: "position X and Y…" at the start captures X and Y. */
  lemma PositionWordsReadBack(x: nat, y: nat, rest: string)
    requires rest == [] || !IsDigit(rest[0])
    ensures MatchAt("position " + NatToDigits(x) + " and " + NatToDigits(y) + rest, 0, Position) == Some(Numbers(x, y))
    ensures Match("position " + NatToDigits(x) + " and " + NatToDigits(y) + rest, Position) == Some(Numbers(x, y))
  {
    var a, b := NatToDigits(x), NatToDigits(y);
    var s := "position " + a + " and " + b + rest;
    var n := 9 + |a|;
    Sequences.Pieces("position ", a, " and ", b, rest);
    assert s[0] == 'p';
    if WordAt(s, 0, "at") {
      WordAtFirst(s, 0, "at");
    }
    assert s[..9][..8] == "position" && JsText.ToLower("position") == "position";
    assert WordAt(s, 0, "position");
    assert s[8] == ' ' && s[9] == a[0];
    assert s[n + 5] == b[0];
    AndStep(s, n);
    assert s[n] == ' ';
    assert n + 5 + |b| == |s| || s[n + 5 + |b|] == rest[0];
    NumbersBetween(s, 9, n, n + 5, n + 5 + |b|, PositionSeparators);
    ParseNatToDigits(x);
    ParseNatToDigits(y);
    KeywordThenNumbers(s, 8, Numbers(x, y));
  }
}
