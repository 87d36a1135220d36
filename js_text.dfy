/**
 * The JavaScript string built-ins the bot relies on, stated over `seq<char>`:
 * `trim`, `toLowerCase`, `startsWith`, `includes`, `split(' ')`, `join`,
 * `padStart(2, '0')`, `replace(',', '.')`, `parseFloat` and `parseInt`.
 * `parseFloat`/`parseInt` answer `None` where JavaScript answers `NaN`.
 */
module JsText {
  import opened Wrappers

  /** The characters that `String.prototype.trim` strips and that the regex class `\s` matches. */
  predicate IsSpace(c: char)
  {
    c == ' ' || c == '\t' || c == '\n' || c == '\U{000B}' || c == '\U{000C}' || c == '\r'
    || c == '\U{00A0}' || c == '\U{1680}' || ('\U{2000}' <= c <= '\U{200A}')
    || c == '\U{2028}' || c == '\U{2029}' || c == '\U{202F}' || c == '\U{205F}'
    || c == '\U{3000}' || c == '\U{FEFF}'
  }

  predicate HasSpace(s: string)
  {
    exists k :: 0 <= k < |s| && IsSpace(s[k])
  }

  /** Leading white space removed: what is left is a suffix that starts with a non-space. */
  function TrimStart(s: string): (r: string)
    ensures |r| <= |s| && r == s[|s| - |r|..]
    ensures r == [] || !IsSpace(r[0])
    ensures forall k :: 0 <= k < |s| - |r| ==> IsSpace(s[k])
    decreases |s|
  {
    if s != [] && IsSpace(s[0]) then
      var r := TrimStart(s[1..]);
      assert forall k :: 1 <= k < |s| - |r| ==> s[k] == s[1..][k - 1];
      r
    else s
  }

  /** Trailing white space removed: what is left is a prefix that ends with a non-space. */
  function TrimEnd(s: string): (r: string)
    ensures |r| <= |s| && r == s[..|r|]
    ensures r == [] || !IsSpace(r[|r| - 1])
    ensures forall k :: |r| <= k < |s| ==> IsSpace(s[k])
    decreases |s|
  {
    if s != [] && IsSpace(s[|s| - 1]) then
      var r := TrimEnd(s[..|s| - 1]);
      assert forall k :: |r| <= k < |s| - 1 ==> s[k] == s[..|s| - 1][k];
      r
    else s
  }

  /** `s.trim()`: the slice of `s` between its leading and its trailing white space. */
  function Trim(s: string): (r: string)
    ensures |r| <= |s|
    ensures r == [] || (!IsSpace(r[0]) && !IsSpace(r[|r| - 1]))
  {
    TrimmedEdges(s);
    TrimEnd(TrimStart(s))
  }

  /** Trimming both ends leaves no space at either end. */
  lemma TrimmedEdges(s: string)
    ensures var r := TrimEnd(TrimStart(s));
            r == [] || (!IsSpace(r[0]) && !IsSpace(r[|r| - 1]))
  {
    var a := TrimStart(s);
    var r := TrimEnd(a);
    if r != [] {
      assert r[0] == a[0];
    }
  }

  /** `toLowerCase` on the letters Portuguese text uses: ASCII and Latin-1 capitals. */
  function LowerChar(c: char): char
  {
    if 'A' <= c <= 'Z' || ('\U{00C0}' <= c <= '\U{00DE}' && c != '\U{00D7}') then
      (c as int + 32) as char
    else c
  }

  function Lower(s: string): (r: string)
    ensures |r| == |s|
    ensures forall k :: 0 <= k < |s| ==> r[k] == LowerChar(s[k])
  {
    seq(|s|, k requires 0 <= k < |s| => LowerChar(s[k]))
  }

  predicate IsLower(s: string)
  {
    forall k :: 0 <= k < |s| ==> LowerChar(s[k]) == s[k]
  }

  /** Lower-casing twice changes nothing more than lower-casing once. */
  lemma LowerIsLower(s: string)
    ensures IsLower(Lower(s)) && Lower(Lower(s)) == Lower(s)
  {
    forall k | 0 <= k < |s| ensures LowerChar(LowerChar(s[k])) == LowerChar(s[k]) {
      var c := s[k];
      if 'A' <= c <= 'Z' || ('\U{00C0}' <= c <= '\U{00DE}' && c != '\U{00D7}') {
        assert LowerChar(c) as int == c as int + 32;
      }
    }
  }

  /** Lower-casing maps spaces to spaces and non-spaces to non-spaces, so it commutes with `trim`. */
  lemma LowerKeepsSpaces(c: char)
    ensures IsSpace(LowerChar(c)) <==> IsSpace(c)
  {
  }

  /** Trimming a lower-cased text leaves it lower-cased. */
  lemma TrimKeepsLower(s: string)
    requires IsLower(s)
    ensures IsLower(Trim(s))
  {
    var a := TrimStart(s);
    LowerPart(s, |s| - |a|, |s|);
    LowerPart(a, 0, |TrimEnd(a)|);
  }

  /** Every part of a lower-cased text is lower-cased. */
  lemma LowerPart(s: string, i: nat, j: nat)
    requires IsLower(s) && i <= j <= |s|
    ensures IsLower(s[i..j])
  {
    forall k | 0 <= k < j - i
      ensures LowerChar(s[i..j][k]) == s[i..j][k]
    {
      assert s[i..j][k] == s[i + k];
    }
  }

  predicate StartsWith(s: string, prefix: string)
  {
    |prefix| <= |s| && s[..|prefix|] == prefix
  }

  /** `w` occurs in `s` at position `i`. */
  predicate OccursAt(s: string, w: string, i: int)
  {
    0 <= i <= |s| - |w| && s[i..i + |w|] == w
  }

  /** `s.includes(w)`. */
  predicate Contains(s: string, w: string)
  {
    exists i :: 0 <= i <= |s| - |w| && OccursAt(s, w, i)
  }

  /** A word with a character the text lacks cannot occur in the text. */
  lemma AbsentChar(s: string, w: string, c: char)
    requires c in w && c !in s
    ensures !Contains(s, w)
  {
  }

  lemma PrefixContained(s: string, w: string)
    requires StartsWith(s, w)
    ensures Contains(s, w)
  {
    assert OccursAt(s, w, 0);
  }

  /** `s.replace(a, b)` with one-character strings: only the first `a` is replaced. */
  function ReplaceFirst(s: string, a: char, b: char): (r: string)
    ensures |r| == |s|
    ensures a !in s ==> r == s
    ensures a in s ==> r == s[..IndexOf(s, a)] + [b] + s[IndexOf(s, a) + 1..]
  {
    if a !in s then s
    else
      var i := IndexOf(s, a);
      s[..i] + [b] + s[i + 1..]
  }

  /** The position of the first `c` in `s`. */
  function IndexOf(s: string, c: char): (i: nat)
    requires c in s
    ensures i < |s| && s[i] == c && c !in s[..i]
  {
    if s[0] == c then 0 else 1 + IndexOf(s[1..], c)
  }

  /** The first occurrence is the one with no occurrence before it. */
  lemma {:induction false} IndexOfAt(s: string, c: char, j: nat)
    requires j < |s| && s[j] == c && c !in s[..j]
    ensures c in s && IndexOf(s, c) == j
  {
    if j > 0 {
      assert s[..j][0] == s[0];
      assert s[1..][..j - 1] == s[..j][1..];
      IndexOfAt(s[1..], c, j - 1);
    }
  }

  /** `parts.join(sep)` with a one-character separator. */
  function Join(parts: seq<string>, sep: char): string
  {
    if parts == [] then ""
    else if |parts| == 1 then parts[0]
    else parts[0] + [sep] + Join(parts[1..], sep)
  }

  /** `s.split(sep)` with a one-character separator: the pieces between separators, empty ones included. */
  function Split(s: string, sep: char): (r: seq<string>)
    ensures |r| >= 1
    ensures forall k :: 0 <= k < |r| ==> sep !in r[k]
    decreases |s|
  {
    if sep !in s then [s]
    else
      var i := IndexOf(s, sep);
      [s[..i]] + Split(s[i + 1..], sep)
  }

  /** A text is what comes before a position, the character there, and what follows. */
  lemma Around(s: string, i: nat)
    requires i < |s|
    ensures s == s[..i] + [s[i]] + s[i + 1..]
  {
  }

  /** Joining the pieces with the separator gives back the split text. */
  lemma {:induction false} JoinSplit(s: string, sep: char)
    ensures Join(Split(s, sep), sep) == s
    decreases |s|
  {
    if sep in s {
      var i := IndexOf(s, sep);
      var rest := s[i + 1..];
      JoinSplit(rest, sep);
      JoinCons(s[..i], Split(rest, sep), sep);
      Around(s, i);
    }
  }

  /** Splitting undoes joining, for pieces that do not contain the separator. */
  lemma {:induction false} SplitJoin(parts: seq<string>, sep: char)
    requires |parts| >= 1
    requires forall k :: 0 <= k < |parts| ==> sep !in parts[k]
    ensures Split(Join(parts, sep), sep) == parts
    decreases |parts|
  {
    if |parts| > 1 {
      var s := Join(parts, sep);
      var rest := Join(parts[1..], sep);
      assert s == parts[0] + [sep] + rest;
      assert s[..|parts[0]|] == parts[0] && s[|parts[0]|] == sep;
      IndexOfAt(s, sep, |parts[0]|);
      var i := IndexOf(s, sep);
      assert s[..i] == parts[0];
      assert s[i + 1..] == rest;
      SplitJoin(parts[1..], sep);
    }
  }

  /** The number of occurrences of `c` in `s`. */
  function Count(s: string, c: char): nat
  {
    if s == [] then 0 else (if s[0] == c then 1 else 0) + Count(s[1..], c)
  }

  lemma {:induction false} CountSplit(s: string, c: char)
    ensures Count(s, c) == 0 <==> c !in s
    ensures forall i :: 0 <= i <= |s| ==> Count(s, c) == Count(s[..i], c) + Count(s[i..], c)
    decreases |s|
  {
    if s != [] {
      CountSplit(s[1..], c);
      forall i | 1 <= i <= |s| ensures Count(s, c) == Count(s[..i], c) + Count(s[i..], c) {
        assert s[..i][1..] == s[1..][..i - 1];
        assert s[i..] == s[1..][i - 1..];
      }
      assert s[..0] == [] && s[0..] == s;
    }
  }

  /** `s.split(sep)` yields one piece more than there are separators. */
  lemma {:induction false} SplitLength(s: string, sep: char)
    ensures |Split(s, sep)| == Count(s, sep) + 1
    decreases |s|
  {
    CountSplit(s, sep);
    if sep in s {
      var i := IndexOf(s, sep);
      SplitLength(s[i + 1..], sep);
      CountSplit(s[..i], sep);
      assert s[i..] == [sep] + s[i + 1..];
      assert Count(s[i..], sep) == 1 + Count(s[i + 1..], sep);
    }
  }

  /** `s.padStart(2, '0')`. */
  function PadStart2(s: string): (r: string)
    ensures |r| >= 2 && |r| == (if |s| >= 2 then |s| else 2)
    ensures r[|r| - |s|..] == s
    ensures forall k :: 0 <= k < |r| - |s| ==> r[k] == '0'
  {
    if |s| >= 2 then s else seq(2 - |s|, _ => '0') + s
  }

  predicate IsDigit(c: char) { '0' <= c <= '9' }

  predicate AllDigits(s: string) { forall k :: 0 <= k < |s| ==> IsDigit(s[k]) }

  /** The longest prefix of ASCII decimal digits. */
  function Digits(s: string): (d: string)
    ensures |d| <= |s| && d == s[..|d|] && AllDigits(d)
    ensures |d| < |s| ==> !IsDigit(s[|d|])
  {
    if s != [] && IsDigit(s[0]) then [s[0]] + Digits(s[1..]) else []
  }

  function DigitsValue(d: string): nat
    requires AllDigits(d)
  {
    if d == [] then 0 else DigitsValue(d[..|d| - 1]) * 10 + (d[|d| - 1] as int - '0' as int)
  }

  function Pow10(n: nat): (p: nat)
    ensures p >= 1
  {
    if n == 0 then 1 else 10 * Pow10(n - 1)
  }

  /** A sign character, if the text starts with one. */
  function SignOf(t: string): (neg: bool)
  {
    t != [] && t[0] == '-'
  }

  function Unsigned(t: string): (u: string)
    ensures |u| <= |t|
  {
    if t != [] && (t[0] == '-' || t[0] == '+') then t[1..] else t
  }

  /** The value of the decimal numeral `ip.fp`. */
  function DecimalValue(ip: string, fp: string): real
    requires AllDigits(ip) && AllDigits(fp)
  {
    DigitsValue(ip) as real + DigitsValue(fp) as real / Pow10(|fp|) as real
  }

  /** The digits after a leading decimal point, if `rest` starts with one. */
  function FractionDigits(rest: string): (d: string)
    ensures AllDigits(d)
  {
    if rest != [] && rest[0] == '.' then Digits(rest[1..]) else []
  }

  /** The value of the unsigned `digits[.digits]` prefix of `u`; `None` when it has no digit. */
  function DecimalPrefix(u: string): Option<real>
  {
    var ip := Digits(u);
    var fp := FractionDigits(u[|ip|..]);
    if ip == [] && fp == [] then None
    else Some(DecimalValue(ip, fp))
  }

  /**
   * `parseFloat(s)`: leading white space skipped, an optional sign, then the
   * longest `digits[.digits]` prefix; `None` (NaN) when no digit is found.
   */
  function ParseFloat(s: string): (r: Option<real>)
  {
    var t := TrimStart(s);
    match DecimalPrefix(Unsigned(t))
    case None => None
    case Some(v) => Some(if SignOf(t) then -v else v)
  }

  /** `parseInt(s)`: leading white space skipped, an optional sign, then the longest digit prefix. */
  function ParseInt(s: string): (r: Option<int>)
  {
    var t := TrimStart(s);
    var ip := Digits(Unsigned(t));
    if ip == [] then None
    else Some(if SignOf(t) then -(DigitsValue(ip) as int) else DigitsValue(ip))
  }

  /** `parseFloat(s.replace(',', '.'))`: the amount parser the bot applies to captured values. */
  function ParseAmount(s: string): Option<real>
  {
    ParseFloat(ReplaceFirst(s, ',', '.'))
  }

  /** A whole number written in digits parses to its decimal value, whatever follows a non-digit. */
  lemma DigitsValueOfPrefix(d: string, tail: string)
    requires AllDigits(d) && d != []
    requires tail == [] || !IsDigit(tail[0])
    ensures Digits(d + tail) == d
    decreases |d|
  {
    var s := d + tail;
    assert s[0] == d[0] && IsDigit(s[0]);
    assert Digits(s) == [s[0]] + Digits(s[1..]);
    if |d| > 1 {
      assert s[1..] == d[1..] + tail;
      DigitsValueOfPrefix(d[1..], tail);
      assert d == [d[0]] + d[1..];
    } else {
      assert s[1..] == tail;
      assert tail == [] || !IsDigit(tail[0]);
      assert Digits(tail) == [];
    }
  }

  /** Replacing the first comma of `i,f` gives `i.f` when `i` has no comma. */
  lemma ReplaceCommaAt(i: string, f: string)
    requires ',' !in i
    ensures ReplaceFirst(i + "," + f, ',', '.') == i + "." + f
  {
    var c := i + "," + f;
    assert c[..|i|] == i && c[|i|] == ',';
    IndexOfAt(c, ',', |i|);
    assert c[|i| + 1..] == f;
  }

  lemma NoLeadingSpace(p: string)
    requires p != [] && IsDigit(p[0])
    ensures TrimStart(p) == p && Unsigned(p) == p && !SignOf(p)
  {
    var c := p[0];
    assert '0' <= c <= '9';
    assert !IsSpace(c) && c != '-' && c != '+';
  }

  lemma ParseFloatUnsigned(p: string)
    requires TrimStart(p) == p && Unsigned(p) == p && !SignOf(p)
    ensures ParseFloat(p) == DecimalPrefix(p)
  {
  }

  /** A text that starts with a digit is read by `parseFloat` as its unsigned decimal prefix. */
  lemma ParseFloatOfDigitStart(p: string)
    requires p != [] && IsDigit(p[0])
    ensures ParseFloat(p) == DecimalPrefix(p)
  {
    NoLeadingSpace(p);
    ParseFloatUnsigned(p);
  }

  lemma DecimalPrefixParts(u: string, ip: string, fp: string)
    requires Digits(u) == ip && FractionDigits(u[|ip|..]) == fp && ip != []
    ensures DecimalPrefix(u) == Some(DecimalValue(ip, fp))
  {
  }

  lemma FractionOfPointed(f: string)
    requires AllDigits(f)
    ensures FractionDigits("." + f) == f
  {
    assert ("." + f)[1..] == f;
    if f != [] {
      DigitsValueOfPrefix(f, []);
      assert f + [] == f;
    }
  }

  /** `parseFloat` of `i.f` with digit strings `i` (non-empty) and `f`. */
  lemma ParsePointed(i: string, f: string)
    requires AllDigits(i) && AllDigits(f) && i != []
    ensures ParseFloat(i + "." + f) == Some(DecimalValue(i, f))
  {
    var p := i + ("." + f);
    assert i + "." + f == p;
    assert p[0] == i[0];
    ParseFloatOfDigitStart(p);
    DigitsValueOfPrefix(i, "." + f);
    assert p[|i|..] == "." + f;
    FractionOfPointed(f);
    DecimalPrefixParts(p, i, f);
  }

  /** A numeral without a fraction is worth its digits. */
  lemma WholeValue(i: string)
    requires AllDigits(i)
    ensures DecimalValue(i, "") == DigitsValue(i) as real
  {
  }

  /** `parseFloat` of a whole number followed by neither a digit, a point nor a comma: the number's value. */
  lemma ParseWhole(i: string, tail: string)
    requires AllDigits(i) && i != [] && ',' !in tail
    requires tail == [] || (!IsDigit(tail[0]) && tail[0] != '.')
    ensures ParseAmount(i + tail) == Some(DigitsValue(i) as real)
  {
    var p := i + tail;
    assert ',' !in i by { forall k | 0 <= k < |i| ensures i[k] != ',' { assert IsDigit(i[k]); } }
    assert ',' !in p;
    assert p[0] == i[0];
    ParseFloatOfDigitStart(p);
    DigitsValueOfPrefix(i, tail);
    assert p[|i|..] == tail && FractionDigits(tail) == "";
    DecimalPrefixParts(p, i, "");
    WholeValue(i);
    assert ReplaceFirst(p, ',', '.') == p;
  }

  /**
   * A decimal comma and a decimal point read the same: `"10,50"` and `"10.50"`
   * both give 10.5, and in general `i,f` and `i.f` give `i + f / 10^|f|`.
   */
  lemma CommaReadsAsPoint(i: string, f: string)
    requires AllDigits(i) && AllDigits(f) && i != []
    ensures ParseAmount(i + "," + f) == ParseAmount(i + "." + f)
    ensures ParseAmount(i + "." + f) == Some(DecimalValue(i, f))
  {
    var p := i + "." + f;
    assert ',' !in i by { forall k | 0 <= k < |i| ensures i[k] != ',' { assert IsDigit(i[k]); } }
    assert ',' !in p by {
      forall k | 0 <= k < |p| ensures p[k] != ',' {
        if k < |i| { assert p[k] == i[k]; } else if k > |i| { assert p[k] == f[k - |i| - 1]; }
      }
    }
    ReplaceCommaAt(i, f);
    ParsePointed(i, f);
  }

  /** `String(n)` for a whole number: its decimal digits, without leading zeros. */
  function NatText(n: nat): (r: string)
    ensures AllDigits(r) && |r| >= 1
    ensures DigitsValue(r) == n
    ensures n < Pow10(|r|)
    ensures |r| > 1 ==> Pow10(|r| - 1) <= n
  {
    var c := ('0' as int + n % 10) as char;
    if n < 10 then
      assert DigitsValue([c]) == DigitsValue([c][..0]) * 10 + n;
      [c]
    else
      var q := NatText(n / 10);
      var r := q + [c];
      assert r[..|r| - 1] == q;
      assert Pow10(|r|) == 10 * Pow10(|q|);
      r
  }

  /** `String(i)` for any whole number: a minus sign before the digits of a negative one. */
  function IntText(i: int): (r: string)
    ensures i >= 0 ==> r == NatText(i)
    ensures i < 0 ==> r == "-" + NatText(-i)
  {
    if i >= 0 then NatText(i) else "-" + NatText(-i)
  }

  /** `parseInt(String(i))` gives back `i`. */
  lemma IntTextRoundTrip(i: int)
    ensures ParseInt(IntText(i)) == Some(i)
  {
    if i >= 0 {
      var n := NatText(i);
      DigitsValueOfPrefix(n, "");
      assert n + "" == n;
      NoLeadingSpace(n);
    } else {
      var n := NatText(-i);
      DigitsValueOfPrefix(n, "");
      assert n + "" == n;
      var t := "-" + n;
      assert !IsSpace(t[0]);
      assert TrimStart(t) == t;
      assert SignOf(t) && Unsigned(t) == n;
    }
  }

  /** `s.replace(/a/g, b)` for one character: every `a` becomes `b`. */
  function ReplaceAll(s: string, a: char, b: char): (r: string)
    ensures |r| == |s|
    ensures forall k :: 0 <= k < |s| ==> r[k] == (if s[k] == a then b else s[k])
    ensures a != b ==> a !in r
  {
    seq(|s|, k requires 0 <= k < |s| => if s[k] == a then b else s[k])
  }

  /** `s.replace(c, '')` for one character: the first `c`, if any, removed. */
  function RemoveFirst(s: string, c: char): (r: string)
    ensures c !in s ==> r == s
    ensures c in s ==> |r| == |s| - 1 && r == s[..IndexOf(s, c)] + s[IndexOf(s, c) + 1..]
  {
    if c in s then s[..IndexOf(s, c)] + s[IndexOf(s, c) + 1..] else s
  }

  /** Splitting at `c` and joining with `d` turns every `c` into `d`. */
  lemma {:induction false} SplitJoinReplaces(s: string, c: char, d: char)
    ensures Join(Split(s, c), d) == ReplaceAll(s, c, d)
    decreases |s|
  {
    if c !in s {
      ReplaceAbsent(s, c, d);
    } else {
      var i := IndexOf(s, c);
      var rest := s[i + 1..];
      SplitJoinReplaces(rest, c, d);
      JoinCons(s[..i], Split(rest, c), d);
      ReplaceAbsent(s[..i], c, d);
      Around(s, i);
      ReplaceAround(s[..i], rest, c, d);
    }
  }

  lemma JoinCons(x: string, parts: seq<string>, sep: char)
    requires |parts| >= 1
    ensures Join([x] + parts, sep) == x + [sep] + Join(parts, sep)
  {
    assert ([x] + parts)[1..] == parts;
  }

  lemma ReplaceAbsent(s: string, c: char, d: char)
    requires c !in s
    ensures ReplaceAll(s, c, d) == s
  {
  }

  lemma ReplaceAround(x: string, y: string, c: char, d: char)
    ensures ReplaceAll(x + [c] + y, c, d) == ReplaceAll(x, c, d) + [d] + ReplaceAll(y, c, d)
  {
    var l := ReplaceAll(x + [c] + y, c, d);
    var r := ReplaceAll(x, c, d) + [d] + ReplaceAll(y, c, d);
    forall k | 0 <= k < |l|
      ensures l[k] == r[k]
    {
      if k > |x| {
        assert (x + [c] + y)[k] == y[k - |x| - 1];
      }
    }
  }

  /** Zeros in front do not change the value of a digit string. */
  lemma {:induction false} LeadingZeros(z: string, d: string)
    requires forall k :: 0 <= k < |z| ==> z[k] == '0'
    requires AllDigits(d)
    ensures AllDigits(z + d)
    ensures DigitsValue(z + d) == DigitsValue(d)
    decreases |d|
  {
    if d == [] {
      assert z + d == z;
      AllZeros(z);
    } else {
      var e := d[..|d| - 1];
      assert (z + d)[..|z + d| - 1] == z + e;
      LeadingZeros(z, e);
    }
  }

  lemma {:induction false} AllZeros(z: string)
    requires forall k :: 0 <= k < |z| ==> z[k] == '0'
    ensures AllDigits(z) && DigitsValue(z) == 0
    decreases |z|
  {
    if z != [] {
      AllZeros(z[..|z| - 1]);
    }
  }

  /** `padStart(2, '0')` keeps the value of a digit string. */
  lemma PadStart2Value(d: string)
    requires AllDigits(d)
    ensures AllDigits(PadStart2(d)) && DigitsValue(PadStart2(d)) == DigitsValue(d)
  {
    if |d| < 2 {
      LeadingZeros(seq(2 - |d|, _ => '0'), d);
    }
  }

  /** Two digits at most for a number below 100, so the padding makes exactly two. */
  lemma NatTextShort(n: nat)
    requires n < 100
    ensures |NatText(n)| <= 2 && |PadStart2(NatText(n))| == 2
  {
    TextWithin(n, 2);
  }

  /** Exactly four digits for a number from 1000 to 9999. */
  lemma NatTextFour(n: nat)
    requires 1000 <= n <= 9999
    ensures |NatText(n)| == 4
  {
    TextWithin(n, 4);
    TextAtLeast(n, 4);
  }

  /** A number below `10^k` has at most `k` digits (zero has one). */
  lemma TextWithin(n: nat, k: nat)
    requires k >= 1 && n < Pow10(k)
    ensures |NatText(n)| <= k
  {
    Pow10Monotone(k, |NatText(n)|);
  }

  /** A number from `10^(k-1)` on has at least `k` digits. */
  lemma TextAtLeast(n: nat, k: nat)
    requires k >= 1 && Pow10(k - 1) <= n
    ensures |NatText(n)| >= k
  {
    Pow10Monotone(|NatText(n)|, k);
  }

  lemma Pow10Monotone(a: nat, b: nat)
    ensures a < b ==> Pow10(a) <= Pow10(b - 1)
  {
    if a < b {
      Pow10Grows(a, b - 1);
    }
  }

  lemma {:induction false} Pow10Grows(a: nat, b: nat)
    requires a <= b
    ensures Pow10(a) <= Pow10(b)
    decreases b - a
  {
    if a < b {
      Pow10Grows(a, b - 1);
    }
  }
}
