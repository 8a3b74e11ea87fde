/** Python's string helpers, as far as the modelled code uses them. */
module Text {

  /** The characters that `str.strip()` removes when it is given no argument. */
  predicate IsSpace(c: char) {
    || '\t' <= c <= '\r' || '\U{1C}' <= c <= ' ' || c == '\U{85}' || c == '\U{A0}' || c == '\U{1680}'
    || '\U{2000}' <= c <= '\U{200A}' || c == '\U{2028}' || c == '\U{2029}' || c == '\U{202F}'
    || c == '\U{205F}' || c == '\U{3000}'
  }

  const WHITESPACE: set<char> := set c: char | IsSpace(c)

  /** `s[:n]` */
  function Clip(s: string, n: nat): (r: string)
    ensures r <= s && |r| <= n
    ensures |s| <= n ==> r == s
    ensures |s| > n ==> |r| == n
  {
    if |s| <= n then s else s[..n]
  }

  /** `s.rstrip(chars)` */
  function RStrip(s: string, chars: set<char>): (r: string)
    ensures r <= s
    ensures r != [] ==> r[|r| - 1] !in chars
    ensures forall i :: |r| <= i < |s| ==> s[i] in chars
  {
    if s != [] && s[|s| - 1] in chars then RStrip(s[..|s| - 1], chars) else s
  }

  /** `s.lstrip(chars)` */
  function LStrip(s: string, chars: set<char>): (r: string)
    ensures |r| <= |s|
    ensures r != [] ==> r[0] !in chars
    ensures forall i :: 0 <= i < |s| - |r| ==> s[i] in chars
  {
    if s != [] && s[0] in chars then LStrip(s[1..], chars) else s
  }

  /** `s.strip(chars)` */
  function Strip(s: string, chars: set<char>): (r: string)
    ensures |r| <= |s|
    ensures r != [] ==> r[0] !in chars && r[|r| - 1] !in chars
    ensures s != [] && s[0] !in chars && s[|s| - 1] !in chars ==> r == s
    ensures s != [] && s[0] !in chars ==> r != []
  {
    RStrip(LStrip(s, chars), chars)
  }

  predicate All(s: string, p: char -> bool) {
    forall i :: 0 <= i < |s| ==> p(s[i])
  }

  lemma {:induction false} LStripIsSuffix(s: string, chars: set<char>)
    ensures LStrip(s, chars) == s[|s| - |LStrip(s, chars)|..]
  {
    if s != [] && s[0] in chars { LStripIsSuffix(s[1..], chars); }
  }

  lemma StripKeepsAll(s: string, chars: set<char>, p: char -> bool)
    requires All(s, p)
    ensures All(Strip(s, chars), p)
  {
    hide LStrip, RStrip;
    var l := LStrip(s, chars);
    LStripIsSuffix(s, chars);
    var r := RStrip(l, chars);
    forall i | 0 <= i < |r| ensures p(r[i]) {
      assert r[i] == l[i] == s[|s| - |l| + i];
    }
  }

  /** What stands behind the same front is the same. */
  lemma SameBehind(front: string, a: string, b: string)
    ensures front + a == front + b <==> a == b
  {
    assert (front + a)[|front|..] == a && (front + b)[|front|..] == b;
  }

  // ---- lines ----

  predicate OneLine(s: string) {
    '\n' !in s
  }

  predicate OneLines(lines: seq<string>) {
    forall i :: 0 <= i < |lines| ==> '\n' !in lines[i]
  }

  /** The physical lines of a text. */
  function Split(s: string): (r: seq<string>)
    ensures r != []
  {
    if s == "" then [""]
    else
      var rest := Split(s[1..]);
      if s[0] == '\n' then [""] + rest else [[s[0]] + rest[0]] + rest[1..]
  }

  /** `"\n".join(lines)` */
  function Join(lines: seq<string>): string {
    if lines == [] then "" else if |lines| == 1 then lines[0] else lines[0] + "\n" + Join(lines[1..])
  }

  lemma {:induction false} SplitAt(a: string, b: string)
    ensures Split(a + "\n" + b) == Split(a) + Split(b)
  {
    var s := a + "\n" + b;
    if a == "" {
      assert s[1..] == b;
    } else {
      assert s[1..] == a[1..] + "\n" + b;
      SplitAt(a[1..], b);
    }
  }

  lemma {:induction false} SplitOneLine(s: string)
    requires OneLine(s)
    ensures Split(s) == [s]
  {
    if s != "" {
      assert s == [s[0]] + s[1..];
      SplitOneLine(s[1..]);
    }
  }

  lemma {:induction false} SplitJoined(lines: seq<string>)
    requires lines != [] && OneLines(lines)
    ensures Split(Join(lines)) == lines
    decreases |lines|
  {
    SplitOneLine(lines[0]);
    if |lines| > 1 {
      SplitJoined(lines[1..]);
      SplitAt(lines[0], Join(lines[1..]));
      assert lines == [lines[0]] + lines[1..];
    }
  }

  // ---- slashes ----

  predicate SlashFree(s: string) {
    '/' !in s
  }

  lemma SlashesApart(a: string, x: string, b: string, y: string)
    requires SlashFree(b)
    requires |a| < |b|
    requires x == [] || x[0] == '/'
    ensures a + x != b + y
  {
    if |a + x| == |b + y| {
      assert (a + x)[|a|] == '/';
      assert (b + y)[|a|] == b[|a|] != '/';
    }
  }

  /** Two strings that start with a slash-free part and continue with a slash (or end) split alike. */
  lemma SlashSplit(a: string, x: string, b: string, y: string)
    requires SlashFree(a) && SlashFree(b)
    requires x == [] || x[0] == '/'
    requires y == [] || y[0] == '/'
    requires a + x == b + y
    ensures a == b && x == y
  {
    assert |a| == |b| by {
      if |a| < |b| { SlashesApart(a, x, b, y); }
      if |b| < |a| { SlashesApart(b, y, a, x); }
    }
    assert a == (a + x)[..|a|] && b == (b + y)[..|b|];
    assert x == (a + x)[|a|..] && y == (b + y)[|b|..];
  }

  lemma CutsApart(c: char, a: string, x: string, b: string, y: string)
    requires c !in b && |a| < |b|
    ensures a + [c] + x != b + [c] + y
  {
    if |a + [c] + x| == |b + [c] + y| {
      assert (a + [c] + x)[|a|] == c;
      assert (b + [c] + y)[|a|] == b[|a|];
    }
  }

  /** Strings that are cut at their first `c` are cut alike. */
  lemma CutAlike(c: char, a: string, x: string, b: string, y: string)
    requires c !in a && c !in b && a + [c] + x == b + [c] + y
    ensures a == b && x == y
  {
    assert |a| == |b| by {
      if |a| < |b| { CutsApart(c, a, x, b, y); }
      if |b| < |a| { CutsApart(c, b, y, a, x); }
    }
    var s := a + [c] + x;
    assert s[..|a|] == a && s[..|b|] == b && s[|a| + 1..] == x && s[|b| + 1..] == y;
  }

  // ---- numbers ----

  /** Decimal digits of a number, as `%d` prints it. */
  function Digit(d: nat): (c: char)
    requires d < 10
    ensures '0' <= c <= '9'
  {
    '0' + d as char
  }

  function Decimal(n: nat): (s: string)
    ensures s != [] && forall c :: c in s ==> '0' <= c <= '9'
  {
    if n < 10 then [Digit(n)] else Decimal(n / 10) + [Digit(n % 10)]
  }

  lemma DigitsDiffer(a: nat, b: nat)
    requires a < 10 && b < 10 && a != b
    ensures Digit(a) != Digit(b)
  {
    assert Digit(a) as int == '0' as int + a;
    assert Digit(b) as int == '0' as int + b;
  }

  /** Different numbers print differently. */
  lemma {:induction false} DecimalsDiffer(a: nat, b: nat)
    requires a != b
    ensures Decimal(a) != Decimal(b)
  {
    var s, t := Decimal(a), Decimal(b);
    if a < 10 && b < 10 {
      DigitsDiffer(a, b);
    } else if a >= 10 && b >= 10 {
      assert Decimal(a / 10) == s[..|s| - 1] && Decimal(b / 10) == t[..|t| - 1];
      assert Digit(a % 10) == s[|s| - 1] && Digit(b % 10) == t[|t| - 1];
      if a / 10 != b / 10 {
        DecimalsDiffer(a / 10, b / 10);
      } else {
        DigitsDiffer(a % 10, b % 10);
      }
    }
  }
}
