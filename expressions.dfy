/**
 * Two of the expense expressions of `naturalLanguage.js`, written out as
 * recognisers that do what `text.match(re)` does with them, backtracking
 * included:
 *
 *   the third,  `/^gastei\s+(?:R\$\s*)?(\d+[.,]?\d*)\s+(?:com|em|no|na|de)\s+(.+)$/i`
 *   the second, `/^comprei\s+(.+?)\s+(?:por|no valor de|:)\s+(?:R\$\s*)?(\d+[.,]?\d*)/i`
 *
 * Letters are compared after lower-casing (the `i` flag); the groups are
 * taken from the text as given. `.` matches anything but a line terminator.
 */
module Expressions {
  import opened Wrappers
  import opened JsText

  /** The characters `.` does not match. */
  predicate IsLineTerminator(c: char)
  {
    c == '\n' || c == '\r' || c == '\U{2028}' || c == '\U{2029}'
  }

  predicate OnOneLine(s: string)
  {
    forall k :: 0 <= k < |s| ==> !IsLineTerminator(s[k])
  }

  /** The end of the run of white space that starts at `i`: what a greedy `\s*` consumes. */
  function SpaceRun(t: string, i: nat): (j: nat)
    requires i <= |t|
    ensures i <= j <= |t|
    ensures forall k :: i <= k < j ==> IsSpace(t[k])
    ensures j < |t| ==> !IsSpace(t[j])
    decreases |t| - i
  {
    if i < |t| && IsSpace(t[i]) then SpaceRun(t, i + 1) else i
  }

  /** The end of the run of decimal digits that starts at `i`: what a greedy `\d*` consumes. */
  function DigitRun(t: string, i: nat): (j: nat)
    requires i <= |t|
    ensures i <= j <= |t|
    ensures forall k :: i <= k < j ==> IsDigit(t[k])
    ensures j < |t| ==> !IsDigit(t[j])
    decreases |t| - i
  {
    if i < |t| && IsDigit(t[i]) then DigitRun(t, i + 1) else i
  }

  /**
   * The end of `\d+[.,]?\d*` from a digit at `i`. Nothing shorter can be
   * followed by white space, so this greedy end is the only one a match uses.
   */
  function AmountEnd(t: string, i: nat): (j: nat)
    requires i < |t| && IsDigit(t[i])
    ensures i < j <= |t|
    ensures j < |t| ==> !IsDigit(t[j]) && !IsSpace(t[j - 1])
  {
    var d := DigitRun(t, i);
    if d < |t| && (t[d] == '.' || t[d] == ',') then DigitRun(t, d + 1) else d
  }

  /** `(?:R\$\s*)?` then the start of a number: where the digits begin, if they do. */
  function NumberStart(t: string, i: nat): (r: Option<nat>)
    requires i <= |t|
    ensures r.Some? ==> i <= r.value < |t| && IsDigit(t[r.value])
  {
    var b := if StartsWith(t[i..], "r$") then SpaceRun(t, i + 2) else i;
    if b < |t| && IsDigit(t[b]) then Some(b) else None
  }

  /** The end of `keyword` at `i`, when the text has it there. */
  function After(t: string, i: nat, keyword: string): (r: Option<nat>)
    requires i <= |t|
    ensures r.Some? ==> r.value == i + |keyword| <= |t| && t[i..r.value] == keyword
  {
    if StartsWith(t[i..], keyword) then Some(i + |keyword|) else None
  }

  // ---------------------------------------------------------------- gastei N com D

  /** `(?:com|em|no|na|de)` at `i`; the five words differ in their first two letters, so at most one is there. */
  function SpentLink(t: string, i: nat): (r: Option<nat>)
    requires i <= |t|
    ensures r.Some? ==> i < r.value <= |t|
  {
    match After(t, i, "com")
    case Some(j) => Some(j)
    case None =>
      match After(t, i, "em")
      case Some(j) => Some(j)
      case None =>
        match After(t, i, "no")
        case Some(j) => Some(j)
        case None =>
          match After(t, i, "na")
          case Some(j) => Some(j)
          case None => After(t, i, "de")
  }

  /**
   * Where `(.+)$` starts after the `\s+` that begins at `k` and ends at `e`:
   * the rest of the text when it is one line; when the text ends in that
   * white space, `\s+` gives its last character back to `.+` if there are two
   * and the last is not a line terminator.
   */
  function TailStart(t: string, k: nat, e: nat): (r: Option<nat>)
    requires k < e <= |t|
    ensures r.Some? ==> k < r.value < |t|
  {
    if e < |t| then (if OnOneLine(t[e..]) then Some(e) else None)
    else if e - k >= 2 && !IsLineTerminator(t[e - 1]) then Some(e - 1)
    else None
  }

  /** The third expense expression: the whole text, the amount and the description. */
  function SpentExpression(s: string): (r: Option<seq<Option<string>>>)
    ensures r.Some? ==> |r.value| == 3 && r.value[1].Some? && r.value[2].Some?
    ensures r.Some? ==> StartsWith(Lower(s), "gastei") && |s| > 6 && IsSpace(Lower(s)[6])
  {
    var t := Lower(s);
    if !StartsWith(t, "gastei") then None
    else
      var a := SpaceRun(t, 6);
      if a == 6 then None
      else
        match NumberStart(t, a)
        case None => None
        case Some(b) =>
          var c := AmountEnd(t, b);
          var d := SpaceRun(t, c);
          if d == c then None
          else
            match SpentLink(t, d)
            case None => None
            case Some(k) =>
              var e := SpaceRun(t, k);
              if e == k then None
              else
                match TailStart(t, k, e)
                case None => None
                case Some(f) => Some([Some(s), Some(s[b..c]), Some(s[f..])])
  }

  // ---------------------------------------------------------------- comprei D por N

  /** `(?:por|no valor de|:)` at `i`; the three begin with different characters. */
  function BoughtLink(t: string, i: nat): (r: Option<nat>)
    requires i <= |t|
    ensures r.Some? ==> i < r.value <= |t|
  {
    match After(t, i, "por")
    case Some(j) => Some(j)
    case None =>
      match After(t, i, "no valor de")
      case Some(j) => Some(j)
      case None => After(t, i, ":")
  }

  /**
   * What follows the description when it ends at `j`:
   * `\s+(?:por|no valor de|:)\s+(?:R\$\s*)?(\d+[.,]?\d*)`, giving where the
   * number starts and ends. Every `\s+` here must be followed by a
   * non-space, so its greedy choice is the only one that can succeed.
   */
  function BoughtTail(t: string, j: nat): (r: Option<(nat, nat)>)
    requires j <= |t|
    ensures r.Some? ==> j < r.value.0 < r.value.1 <= |t|
  {
    var a := SpaceRun(t, j);
    if a == j then None
    else
      match BoughtLink(t, a)
      case None => None
      case Some(k) =>
        var b := SpaceRun(t, k);
        if b == k then None
        else
          match NumberStart(t, b)
          case None => None
          case Some(c) => Some((c, AmountEnd(t, c)))
  }

  /**
   * The lazy `(.+?)` from a fixed start: the first end `j` (trying the
   * shortest description first) whose tail matches, giving `j` and the
   * number's bounds; the description stops at a line terminator.
   */
  function BoughtFrom(t: string, j: nat): (r: Option<(nat, nat, nat)>)
    requires 0 < j <= |t|
    ensures r.Some? ==> j <= r.value.0 < r.value.1 < r.value.2 <= |t|
    decreases |t| - j
  {
    if IsLineTerminator(t[j - 1]) then None
    else
      match BoughtTail(t, j)
      case Some(n) => Some((j, n.0, n.1))
      case None => if j < |t| then BoughtFrom(t, j + 1) else None
  }

  /**
   * The greedy `\s+` after `comprei`: the description first starts after all
   * of the white space, then one character earlier at a time, down to the
   * first character after `comprei` (position 8).
   */
  function BoughtAt(t: string, st: nat): (r: Option<(nat, nat, nat, nat)>)
    requires 8 <= st <= |t|
    ensures r.Some? ==> 8 <= r.value.0 < r.value.1 < r.value.2 < r.value.3 <= |t|
    decreases st
  {
    var here := if st < |t| then BoughtFrom(t, st + 1) else None;
    match here
    case Some(h) => Some((st, h.0, h.1, h.2))
    case None => if st > 8 then BoughtAt(t, st - 1) else None
  }

  /** The second expense expression: the matched prefix, the description and the amount. */
  function BoughtExpression(s: string): (r: Option<seq<Option<string>>>)
    ensures r.Some? ==> |r.value| == 3 && r.value[1].Some? && r.value[2].Some?
    ensures r.Some? ==> StartsWith(Lower(s), "comprei") && |s| > 7 && IsSpace(Lower(s)[7])
  {
    var t := Lower(s);
    if !StartsWith(t, "comprei") then None
    else
      var e := SpaceRun(t, 7);
      if e == 7 then None
      else
        match BoughtAt(t, e)
        case None => None
        case Some(m) => Some([Some(s[..m.3]), Some(s[m.0..m.1]), Some(s[m.2..m.3])])
  }

  // ---------------------------------------------------------------- what the two expressions read

  /** A run of white space is the one `SpaceRun` finds. */
  lemma SpaceRunIs(t: string, i: nat, j: nat)
    requires i <= j <= |t|
    requires forall k :: i <= k < j ==> IsSpace(t[k])
    requires j < |t| ==> !IsSpace(t[j])
    ensures SpaceRun(t, i) == j
  {
  }

  /** A run of digits is the one `DigitRun` finds. */
  lemma DigitRunIs(t: string, i: nat, j: nat)
    requires i <= j <= |t|
    requires forall k :: i <= k < j ==> IsDigit(t[k])
    requires j < |t| ==> !IsDigit(t[j])
    ensures DigitRun(t, i) == j
  {
  }

  /** A lower-case text is its own lower-casing. */
  lemma LowerOfLower(s: string)
    requires IsLower(s)
    ensures Lower(s) == s
  {
  }

  /**
   * `gastei N com D`, with `N` digits (ending at `c`) and `D` one line that
   * starts with a non-space, matches the third expression with `N` in group
   * 1 and `D` in group 2.
   */
  lemma SpentReads(s: string, c: nat)
    requires IsLower(s) && 7 < c && c + 5 < |s|
    requires s[..6] == "gastei" && s[6] == ' ' && AllDigits(s[7..c]) && s[c] == ' '
    requires s[c + 1..c + 4] == "com" && s[c + 4] == ' ' && !IsSpace(s[c + 5]) && OnOneLine(s[c + 5..])
    ensures SpentExpression(s) == Some([Some(s), Some(s[7..c]), Some(s[c + 5..])])
  {
    LowerOfLower(s);
    SpentSteps(s, c);
  }

  lemma SpentSteps(s: string, c: nat)
    requires 7 < c && c + 5 < |s|
    requires s[6] == ' ' && AllDigits(s[7..c]) && s[c] == ' '
    requires s[c + 1..c + 4] == "com" && s[c + 4] == ' ' && !IsSpace(s[c + 5]) && OnOneLine(s[c + 5..])
    ensures SpaceRun(s, 6) == 7 && NumberStart(s, 7) == Some(7) && AmountEnd(s, 7) == c
    ensures SpaceRun(s, c) == c + 1 && SpentLink(s, c + 1) == Some(c + 4)
    ensures SpaceRun(s, c + 4) == c + 5 && TailStart(s, c + 4, c + 5) == Some(c + 5)
  {
    assert IsDigit(s[7]) by { assert s[7] == s[7..c][0]; }
    SpaceRunIs(s, 6, 7);
    assert !StartsWith(s[7..], "r$") by { assert s[7..][0] == s[7]; }
    assert forall k :: 7 <= k < c ==> IsDigit(s[k]) by {
      forall k | 7 <= k < c ensures IsDigit(s[k]) { assert s[k] == s[7..c][k - 7]; }
    }
    DigitRunIs(s, 7, c);
    SpaceRunIs(s, c, c + 1);
    assert s[c + 1..][..3] == "com";
    SpaceRunIs(s, c + 4, c + 5);
  }

  /** The lazy description skips every end not followed by white space, up to the one whose tail matches. */
  lemma {:induction false} BoughtFromSkips(t: string, j: nat, end: nat, n: (nat, nat))
    requires 0 < j <= end <= |t|
    requires forall k :: j - 1 <= k < end ==> !IsSpace(t[k]) && !IsLineTerminator(t[k])
    requires BoughtTail(t, end) == Some(n)
    ensures BoughtFrom(t, j) == Some((end, n.0, n.1))
    decreases end - j
  {
    if j < end {
      SpaceRunIs(t, j, j);
      BoughtFromSkips(t, j + 1, end, n);
    }
  }

  /**
   * `comprei D por I,F`, with `D` (ending at `d`) one word of one line and
   * `I,F` digits around a decimal comma (the comma at `f`), matches the second
   * expression with `D` in group 1 and `I,F` in group 2.
   */
  lemma BoughtReads(s: string, d: nat, f: nat)
    requires IsLower(s) && 8 < d && d + 5 < f < |s|
    requires s[..7] == "comprei" && s[7] == ' ' && s[d] == ' ' && s[d + 1..d + 4] == "por" && s[d + 4] == ' '
    requires forall k :: 8 <= k < d ==> !IsSpace(s[k]) && !IsLineTerminator(s[k])
    requires AllDigits(s[d + 5..f]) && s[f] == ',' && AllDigits(s[f + 1..])
    ensures BoughtExpression(s) == Some([Some(s), Some(s[8..d]), Some(s[d + 5..])])
  {
    LowerOfLower(s);
    SpaceRunIs(s, 7, 8);
    BoughtTailReads(s, d, f);
    BoughtFromSkips(s, 9, d, (d + 5, |s|));
    assert s[..|s|] == s;
  }

  lemma BoughtTailReads(s: string, d: nat, f: nat)
    requires d + 5 < f < |s|
    requires s[d] == ' ' && s[d + 1..d + 4] == "por" && s[d + 4] == ' '
    requires AllDigits(s[d + 5..f]) && s[f] == ',' && AllDigits(s[f + 1..])
    ensures BoughtTail(s, d) == Some((d + 5, |s|))
  {
    SpaceRunIs(s, d, d + 1);
    assert s[d + 1..][..3] == "por";
    assert IsDigit(s[d + 5]) by { assert s[d + 5] == s[d + 5..f][0]; }
    SpaceRunIs(s, d + 4, d + 5);
    CommaNumber(s, d + 5, f);
  }

  /** Digits, a decimal comma and digits to the end of the text are one number. */
  lemma CommaNumber(s: string, b: nat, f: nat)
    requires b < f < |s|
    requires AllDigits(s[b..f]) && s[f] == ',' && AllDigits(s[f + 1..])
    ensures NumberStart(s, b) == Some(b) && AmountEnd(s, b) == |s|
  {
    assert IsDigit(s[b]) by { assert s[b] == s[b..f][0]; }
    assert !StartsWith(s[b..], "r$") by { assert s[b..][0] == s[b]; }
    assert forall k :: b <= k < f ==> IsDigit(s[k]) by {
      forall k | b <= k < f ensures IsDigit(s[k]) { assert s[k] == s[b..f][k - b]; }
    }
    assert forall k :: f + 1 <= k < |s| ==> IsDigit(s[k]) by {
      forall k | f + 1 <= k < |s| ensures IsDigit(s[k]) { assert s[k] == s[f + 1..][k - f - 1]; }
    }
    DigitRunIs(s, b, f);
    DigitRunIs(s, f + 1, |s|);
  }

  /** `gastei 15 com almoço` reads 15 and `almoço`. */
  lemma SpentScenarioReads()
    ensures SpentExpression("gastei 15 com almoço") == Some([Some("gastei 15 com almoço"), Some("15"), Some("almoço")])
  {
    var s := "gastei 15 com almoço";
    SpentLiteral(s);
    SpentReads(s, 9);
  }

  lemma SpentLiteral(s: string)
    requires s == "gastei 15 com almoço"
    ensures IsLower(s) && |s| == 20
    ensures s[..6] == "gastei" && s[6] == ' ' && s[7..9] == "15" && AllDigits(s[7..9]) && s[9] == ' '
    ensures s[10..13] == "com" && s[13] == ' ' && !IsSpace(s[14]) && s[14..] == "almoço" && OnOneLine(s[14..])
  {
    SliceIs(s, 0, "gastei");
    SliceIs(s, 7, "15");
    SliceIs(s, 10, "com");
    SliceIs(s, 14, "almoço");
  }

  /** A slice is a literal when its characters are the literal's, one by one. */
  lemma SliceIs(s: string, i: nat, w: string)
    requires i + |w| <= |s| && forall k :: 0 <= k < |w| ==> s[i + k] == w[k]
    ensures s[i..i + |w|] == w
  {
  }

  /** `comprei pão por 5,50` reads `pão` and `5,50`. */
  lemma BoughtScenarioReads()
    ensures BoughtExpression("comprei pão por 5,50") == Some([Some("comprei pão por 5,50"), Some("pão"), Some("5,50")])
  {
    var s := "comprei pão por 5,50";
    BoughtLiteral(s);
    BoughtReads(s, 11, 17);
  }

  lemma BoughtLiteral(s: string)
    requires s == "comprei pão por 5,50"
    ensures IsLower(s) && |s| == 20
    ensures s[..7] == "comprei" && s[7] == ' ' && s[11] == ' ' && s[12..15] == "por" && s[15] == ' '
    ensures forall k :: 8 <= k < 11 ==> !IsSpace(s[k]) && !IsLineTerminator(s[k])
    ensures AllDigits(s[16..17]) && s[17] == ',' && AllDigits(s[18..])
    ensures s[8..11] == "pão" && s[16..] == "5,50"
  {
    SliceIs(s, 0, "comprei");
    SliceIs(s, 8, "pão");
    SliceIs(s, 12, "por");
    SliceIs(s, 16, "5,50");
  }

  /** A match holds the whole text and both groups; stated apart so that a caller need not unfold the recogniser. */
  lemma SpentExpressionGroups(s: string)
    requires SpentExpression(s).Some?
    ensures |SpentExpression(s).value| == 3 && forall g :: 1 <= g <= 2 ==> SpentExpression(s).value[g].Some?
  {
  }

  /** The same for the `comprei` recogniser. */
  lemma BoughtExpressionGroups(s: string)
    requires BoughtExpression(s).Some?
    ensures |BoughtExpression(s).value| == 3 && forall g :: 1 <= g <= 2 ==> BoughtExpression(s).value[g].Some?
  {
  }
}
