/** The string operations the query interpreter relies on: ASCII `str.lower`,
    the substring test `pat in text`, and `"\n".join` with its inverse `split`. */
module Text {

  /** Lower-cases one ASCII letter and leaves every other character alone. */
  function LowerChar(c: char): (r: char)
    ensures 'A' <= c <= 'Z' ==> r as int == c as int + 32
    ensures !('A' <= c <= 'Z') ==> r == c
    ensures !('A' <= r <= 'Z')
  {
    if 'A' <= c <= 'Z' then (c as int + 32) as char else c
  }

  /** `s.lower()` restricted to ASCII: the same length; each capital becomes the
      letter 32 code points above it, every other character is kept, and no
      capital is left. */
  function Lower(s: string): (r: string)
    ensures |r| == |s|
    ensures forall i :: 0 <= i < |s| && 'A' <= s[i] <= 'Z' ==> r[i] as int == s[i] as int + 32
    ensures forall i :: 0 <= i < |s| && !('A' <= s[i] <= 'Z') ==> r[i] == s[i]
    ensures forall i :: 0 <= i < |r| ==> !('A' <= r[i] <= 'Z')
  {
    seq(|s|, i requires 0 <= i < |s| => LowerChar(s[i]))
  }

  /** Lower-casing twice is lower-casing once. */
  lemma LowerIdempotent(s: string)
    ensures Lower(Lower(s)) == Lower(s)
  {
    assert forall i :: 0 <= i < |s| ==> Lower(Lower(s))[i] == Lower(s)[i];
  }

  /** `pat` occurs in `text` starting at index `i`. */
  predicate OccursAt(text: string, pat: string, i: int)
  {
    0 <= i && i + |pat| <= |text| && text[i..i + |pat|] == pat
  }

  /** Python's `pat in text`: `pat` occurs somewhere in `text`. */
  predicate Contains(text: string, pat: string)
  {
    exists i :: 0 <= i <= |text| - |pat| && OccursAt(text, pat, i)
  }

  /** Lower-casing works word by word across a space. */
  lemma LowerSpaced(a: string, b: string)
    ensures Lower(a + " " + b) == Lower(a) + " " + Lower(b)
  {
    var s, r := a + " " + b, Lower(a) + " " + Lower(b);
    assert forall i :: 0 <= i < |s| ==> Lower(s)[i] == r[i] by {
      forall i | 0 <= i < |s|
        ensures Lower(s)[i] == r[i]
      {
        if i < |a| {
          assert s[i] == a[i];
        } else if i > |a| {
          assert s[i] == b[i - |a| - 1];
        }
      }
    }
  }

  /** A text that contains a pattern contains each of its characters. */
  lemma ContainsHasChar(text: string, pat: string, k: int)
    requires 0 <= k < |pat|
    ensures Contains(text, pat) ==> pat[k] in text
  {
    if Contains(text, pat) {
      var i :| 0 <= i <= |text| - |pat| && OccursAt(text, pat, i);
      assert text[i..i + |pat|][k] == text[i + k];
    }
  }

  /** A lower-case letter in a lower-cased text comes from that letter in either case. */
  lemma LowerHasChar(s: string, c: char)
    requires 'a' <= c <= 'z'
    ensures c in Lower(s) ==> c in s || (c as int - 32) as char in s
  {
    if c in Lower(s) {
      var i :| 0 <= i < |s| && Lower(s)[i] == c;
      assert s[i] == c || s[i] == (c as int - 32) as char;
    }
  }

  /** An occurrence in `x` is an occurrence in `x + y`, at the same index. */
  lemma OccursInPrefix(x: string, y: string, pat: string, i: int)
    requires OccursAt(x, pat, i)
    ensures OccursAt(x + y, pat, i)
  {
    assert (x + y)[i..i + |pat|] == x[i..i + |pat|];
  }

  /** An occurrence in `y` is an occurrence in `x + y`, shifted by `|x|`. */
  lemma OccursInSuffix(x: string, y: string, pat: string, i: int)
    requires OccursAt(y, pat, i)
    ensures OccursAt(x + y, pat, |x| + i)
  {
    assert (x + y)[|x| + i..|x| + i + |pat|] == y[i..i + |pat|];
  }

  /** An occurrence in `x + y` that ends within `x` is an occurrence in `x`. */
  lemma OccursWithinPrefix(x: string, y: string, pat: string, i: int)
    requires OccursAt(x + y, pat, i) && i + |pat| <= |x|
    ensures OccursAt(x, pat, i)
  {
    assert (x + y)[i..i + |pat|] == x[i..i + |pat|];
  }

  /** An occurrence in `x + y` that starts within `y` is an occurrence in `y`. */
  lemma OccursWithinSuffix(x: string, y: string, pat: string, i: int)
    requires OccursAt(x + y, pat, i) && |x| <= i
    ensures OccursAt(y, pat, i - |x|)
  {
    assert (x + y)[i..i + |pat|] == y[i - |x|..i - |x| + |pat|];
  }

  /** An occurrence in two words joined by a space lies in the first word, lies in
      the second, or covers the space. */
  lemma OccurrenceSide(a: string, b: string, pat: string, i: int)
    requires OccursAt(a + " " + b, pat, i)
    ensures i + |pat| <= |a| || i > |a| || ' ' in pat
  {
    if i <= |a| < i + |pat| {
      assert pat[|a| - i] == (a + " " + b)[|a|];
    }
  }

  /** A space-free pattern found in "a b" is found in `a` or in `b`. */
  lemma ContainsSplit(a: string, b: string, pat: string)
    requires ' ' !in pat
    requires Contains(a + " " + b, pat)
    ensures Contains(a, pat) || Contains(b, pat)
  {
    var i :| 0 <= i <= |a + " " + b| - |pat| && OccursAt(a + " " + b, pat, i);
    OccurrenceSide(a, b, pat, i);
    if i + |pat| <= |a| {
      OccursWithinPrefix(a + " ", b, pat, i);
      OccursWithinPrefix(a, " ", pat, i);
    } else {
      OccursWithinSuffix(a + " ", b, pat, i);
    }
  }

  /** A pattern found in `a` is found in "a b". */
  lemma ContainsLeft(a: string, b: string, pat: string)
    requires Contains(a, pat)
    ensures Contains(a + " " + b, pat)
  {
    var i :| 0 <= i <= |a| - |pat| && OccursAt(a, pat, i);
    OccursInPrefix(a, " ", pat, i);
    OccursInPrefix(a + " ", b, pat, i);
  }

  /** A pattern found in `b` is found in "a b". */
  lemma ContainsRight(a: string, b: string, pat: string)
    requires Contains(b, pat)
    ensures Contains(a + " " + b, pat)
  {
    var i :| 0 <= i <= |b| - |pat| && OccursAt(b, pat, i);
    OccursInSuffix(a + " ", b, pat, i);
  }

  /** A pattern without a space occurs in two words joined by a space exactly when
      it occurs in one of them: no occurrence can straddle the space. */
  lemma ContainsAcrossSpace(a: string, b: string, pat: string)
    requires ' ' !in pat
    ensures Contains(a + " " + b, pat) <==> Contains(a, pat) || Contains(b, pat)
  {
    if Contains(a + " " + b, pat) {
      ContainsSplit(a, b, pat);
    }
    if Contains(a, pat) {
      ContainsLeft(a, b, pat);
    }
    if Contains(b, pat) {
      ContainsRight(a, b, pat);
    }
  }

  /** Some word of `words` occurs in `text`. */
  predicate MentionsAny(text: string, words: seq<string>)
  {
    exists k :: 0 <= k < |words| && Contains(text, words[k])
  }

  /** `"\n".join(lines)`: the empty list joins to `""`. */
  function JoinLines(lines: seq<string>): string
  {
    if |lines| == 0 then ""
    else if |lines| == 1 then lines[0]
    else lines[0] + "\n" + JoinLines(lines[1..])
  }

  /** Index of the first newline of `s`, which must have one. */
  function FirstNewline(s: string): (k: nat)
    requires '\n' in s
    ensures k < |s| && s[k] == '\n' && '\n' !in s[..k]
  {
    if s[0] == '\n' then 0 else 1 + FirstNewline(s[1..])
  }

  /** `s.split("\n")`: the pieces between newlines, so never the empty list. */
  function SplitLines(s: string): (r: seq<string>)
    ensures |r| >= 1
    decreases |s|
  {
    if '\n' !in s then [s]
    else
      var k := FirstNewline(s);
      [s[..k]] + SplitLines(s[k + 1..])
  }

  /** No line carries a newline of its own. */
  predicate SingleLines(lines: seq<string>)
  {
    forall k :: 0 <= k < |lines| ==> '\n' !in lines[k]
  }

  /** Splitting undoes joining, for a non-empty list of lines without newlines.
      (An empty list joins to `""`, which splits back to `[""]`.) */
  lemma {:induction false} SplitJoin(lines: seq<string>)
    requires |lines| >= 1
    requires SingleLines(lines)
    ensures SplitLines(JoinLines(lines)) == lines
  {
    if |lines| > 1 {
      var s := JoinLines(lines);
      var head := lines[0];
      assert s == head + "\n" + JoinLines(lines[1..]);
      assert s[|head|] == '\n';
      assert '\n' in s;
      assert s[..|head|] == head;
      assert FirstNewline(s) == |head|;
      assert s[|head| + 1..] == JoinLines(lines[1..]);
      SplitJoin(lines[1..]);
    }
  }

  /** Joining one more line appends a newline and that line. */
  lemma {:induction false} JoinLinesSnoc(lines: seq<string>, last: string)
    requires |lines| >= 1
    ensures JoinLines(lines + [last]) == JoinLines(lines) + "\n" + last
  {
    if |lines| > 1 {
      assert (lines + [last])[1..] == lines[1..] + [last];
      JoinLinesSnoc(lines[1..], last);
    } else {
      assert lines + [last] == [lines[0], last];
    }
  }

  function DigitChar(d: int): (c: char)
    requires 0 <= d < 10
    ensures '0' <= c <= '9'
  {
    ('0' as int + d) as char
  }

  /** `str(n)` for a natural number: its decimal digits, most significant first. */
  function Decimal(n: nat): (s: string)
    ensures |s| >= 1
    ensures forall i :: 0 <= i < |s| ==> '0' <= s[i] <= '9'
  {
    if n < 10 then [DigitChar(n)] else Decimal(n / 10) + [DigitChar(n % 10)]
  }

  /** `int(s)` for a string of decimal digits. */
  function DecimalValue(s: string): nat
    requires forall i :: 0 <= i < |s| ==> '0' <= s[i] <= '9'
  {
    if s == [] then 0 else 10 * DecimalValue(s[..|s| - 1]) + (s[|s| - 1] as int - '0' as int)
  }

  /** Reading the decimal rendering of `n` gives back `n`. */
  lemma {:induction false} DecimalRoundTrip(n: nat)
    ensures DecimalValue(Decimal(n)) == n
  {
    if n >= 10 {
      var s := Decimal(n);
      assert s[..|s| - 1] == Decimal(n / 10);
      DecimalRoundTrip(n / 10);
    }
  }
}
