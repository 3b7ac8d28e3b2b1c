/**
 * The Python string operations the companion relies on, over `string` (= `seq<char>`):
 * `lower`, whitespace `split`, `split(sep)`, `replace`, `join`, `strip`, the `in` test,
 * decimal formatting of integers and slicing with negative bounds.
 */
module Text {

  /**
   * `str.isspace`, the test `str.split()` and `str.strip()` use: every character Unicode classes
   * as a space separator or gives a whitespace, segment or paragraph bidirectional type: tab ..
   * carriage return, the four separator controls, space, next line, no-break space, the Ogham
   * space mark, the en quad .. hair space, the line and paragraph separators, the narrow
   * no-break space, the medium mathematical space and the ideographic space.
   */
  predicate IsSpace(c: char) {
    || ('\t' <= c <= '\r') || ('\U{1C}' <= c <= '\U{1F}') || c == ' '
    || c == '\U{85}' || c == '\U{A0}' || c == '\U{1680}'
    || ('\U{2000}' <= c <= '\U{200A}') || c == '\U{2028}' || c == '\U{2029}'
    || c == '\U{202F}' || c == '\U{205F}' || c == '\U{3000}'
  }

  /**
   * `str.lower` on one character, for the capitals whose lower case is one character at a fixed
   * distance: ASCII A .. Z, the Latin-1 capitals À .. Þ (not the multiplication sign), Greek
   * Α .. Ω (no code point sits at U+03A2), Cyrillic А .. Я and Ѐ .. Џ. Every other character is
   * kept.
   */
  function LowerChar(c: char): (d: char)
    ensures IsSpace(d) <==> IsSpace(c)
    ensures c != d ==> !IsSpace(c)
  {
    if 'A' <= c <= 'Z' then (c as int + 32) as char
    else if '\U{C0}' <= c <= '\U{DE}' && c != '\U{D7}' then (c as int + 32) as char
    else if '\U{391}' <= c <= '\U{3A9}' && c != '\U{3A2}' then (c as int + 32) as char
    else if '\U{410}' <= c <= '\U{42F}' then (c as int + 32) as char
    else if '\U{400}' <= c <= '\U{40F}' then (c as int + 80) as char
    else c
  }

  function Lower(s: string): (r: string)
    ensures |r| == |s|
    ensures forall i :: 0 <= i < |s| ==> r[i] == LowerChar(s[i])
  {
    seq(|s|, i requires 0 <= i < |s| => LowerChar(s[i]))
  }

  /** Length of the run of non-space characters at the front of `s`. */
  function WordLen(s: string): (n: nat)
    ensures 0 < n <= |s| || n == 0
    ensures n <= |s|
    ensures s != [] && !IsSpace(s[0]) ==> n > 0
  {
    if s == [] || IsSpace(s[0]) then 0 else 1 + WordLen(s[1..])
  }

  /** `s.split()`: the maximal runs of non-space characters, in order. */
  function Words(s: string): seq<string>
    decreases |s|
  {
    if s == [] then []
    else if IsSpace(s[0]) then Words(s[1..])
    else
      var n := WordLen(s);
      [s[..n]] + Words(s[n..])
  }

  predicate AllSpace(s: string) {
    forall i :: 0 <= i < |s| ==> IsSpace(s[i])
  }

  /** A text made only of whitespace (the empty text included) has no words. */
  lemma {:induction false} AllSpaceNoWords(s: string)
    requires AllSpace(s)
    ensures Words(s) == []
  {
    if s != [] {
      AllSpaceNoWords(s[1..]);
    }
  }

  /** The words of a text that is not all whitespace are not empty. */
  lemma {:induction false} WordsNonEmpty(s: string)
    requires !AllSpace(s)
    ensures Words(s) != []
  {
    if IsSpace(s[0]) {
      WordsNonEmpty(s[1..]);
    }
  }

  /** `[w for w in ws if len(w) > 4]` */
  function LongWords(ws: seq<string>): (r: seq<string>)
    ensures |r| <= |ws|
    ensures forall i :: 0 <= i < |r| ==> |r[i]| > 4
    ensures forall w :: w in r ==> w in ws
  {
    if ws == [] then []
    else if |ws[0]| > 4 then [ws[0]] + LongWords(ws[1..])
    else LongWords(ws[1..])
  }

  /** `s[:n]` for `n >= 0`. */
  function Take<T>(s: seq<T>, n: nat): (r: seq<T>)
    ensures |r| <= n && |r| <= |s|
    ensures r == s[..|r|]
    ensures |s| >= n ==> |r| == n
  {
    if |s| <= n then s else s[..n]
  }

  /**
   * `[w for w in content.lower().split() if len(w) > 4][:5]`: the keyword extraction shared by
   * the memory record's tags and the embedding index's tags.
   */
  function KeyWords(content: string): (r: seq<string>)
    ensures |r| <= 5
    ensures forall i :: 0 <= i < |r| ==> |r[i]| > 4
    ensures forall w :: w in r ==> w in Words(Lower(content))
  {
    Take(LongWords(Words(Lower(content))), 5)
  }

  predicate StartsWith(s: string, p: string) {
    |p| <= |s| && s[..|p|] == p
  }

  /** Python's `sub in s`. */
  predicate Contains(s: string, sub: string)
    decreases |s|
  {
    StartsWith(s, sub) || (s != [] && Contains(s[1..], sub))
  }

  predicate OccursAt(s: string, sub: string, i: int) {
    0 <= i && i + |sub| <= |s| && s[i..i + |sub|] == sub
  }

  /** `Contains` agrees with "occurs at some index". */
  lemma {:induction false} ContainsIff(s: string, sub: string)
    ensures Contains(s, sub) <==> exists i :: OccursAt(s, sub, i)
  {
    if StartsWith(s, sub) {
      assert OccursAt(s, sub, 0);
    } else if s != [] {
      ContainsIff(s[1..], sub);
      if Contains(s[1..], sub) {
        var i :| OccursAt(s[1..], sub, i);
        assert s[i + 1..i + 1 + |sub|] == s[1..][i..i + |sub|];
        assert OccursAt(s, sub, i + 1);
      } else {
        forall i | 0 < i && i + |sub| <= |s| ensures !OccursAt(s, sub, i) {
          assert s[1..][i - 1..i - 1 + |sub|] == s[i..i + |sub|];
          assert !OccursAt(s[1..], sub, i - 1);
        }
      }
    }
  }

  /** A text containing `x + y` contains `y`. */
  lemma ContainsTail(s: string, x: string, y: string)
    requires Contains(s, x + y)
    ensures Contains(s, y)
  {
    ContainsIff(s, x + y);
    var i :| OccursAt(s, x + y, i);
    assert s[i + |x|..i + |x| + |y|] == s[i..i + |x + y|][|x|..];
    assert OccursAt(s, y, i + |x|);
    ContainsIff(s, y);
  }

  /** Every text contains itself and the empty text. */
  lemma ContainsSelf(s: string)
    ensures Contains(s, s) && Contains(s, "")
  {
    assert StartsWith(s, s) && StartsWith(s, "");
  }

  /** `s.replace(pat, rep)`: leftmost, non-overlapping occurrences, scanning left to right. */
  function Replace(s: string, pat: string, rep: string): string
    requires pat != []
    decreases |s|
  {
    if |s| < |pat| then s
    else
      var (head, skip) := if s[..|pat|] == pat then (rep, |pat|) else ([s[0]], 1);
      head + Replace(s[skip..], pat, rep)
  }

  /** Replacing a pattern that does not occur changes nothing. */
  lemma {:induction false} ReplaceAbsent(s: string, pat: string, rep: string)
    requires pat != [] && !Contains(s, pat)
    ensures Replace(s, pat, rep) == s
  {
    if |s| >= |pat| {
      assert !StartsWith(s, pat);
      ReplaceAbsent(s[1..], pat, rep);
      assert s == [s[0]] + s[1..];
    }
  }

  /** Replacing a one-character pattern by text without that character leaves none of it. */
  lemma {:induction false} ReplaceCharGone(s: string, c: char, rep: string)
    requires c !in rep
    ensures c !in Replace(s, [c], rep)
    decreases |s|
  {
    if |s| >= 1 {
      ReplaceCharGone(s[1..], c, rep);
      if s[..1] != [c] {
        assert s[0] != c;
      }
    }
  }

  /** A pattern whose first character is absent from `s` is not replaced anywhere in it. */
  lemma {:induction false} ReplaceNoFirstChar(s: string, pat: string, rep: string)
    requires pat != [] && pat[0] !in s
    ensures Replace(s, pat, rep) == s
    decreases |s|
  {
    if |s| >= |pat| {
      assert s[..|pat|][0] == s[0];
      ReplaceNoFirstChar(s[1..], pat, rep);
      assert s == [s[0]] + s[1..];
    }
  }

  /** A prefix without the pattern's first character is copied through unchanged. */
  lemma {:induction false} ReplaceAfterPrefix(x: string, y: string, pat: string, rep: string)
    requires pat != [] && pat[0] !in x
    ensures Replace(x + y, pat, rep) == x + Replace(y, pat, rep)
    decreases |x|
  {
    if x != [] {
      var t := x + y;
      if |t| >= |pat| {
        assert t[..|pat|][0] == x[0];
      }
      assert t[1..] == x[1..] + y;
      ReplaceAfterPrefix(x[1..], y, pat, rep);
      assert x == [x[0]] + x[1..];
    } else {
      assert x + y == y;
    }
  }

  /** The leftmost occurrence is replaced and the scan resumes right after it. */
  lemma ReplaceAt(x: string, pat: string, y: string, rep: string)
    requires pat != [] && pat[0] !in x
    ensures Replace(x + pat + y, pat, rep) == x + rep + Replace(y, pat, rep)
  {
    assert x + pat + y == x + (pat + y);
    ReplaceAfterPrefix(x, pat + y, pat, rep);
    assert (pat + y)[..|pat|] == pat && (pat + y)[|pat|..] == y;
  }

  /** `s.split(sep)` for a non-empty separator. */
  function SplitOn(s: string, sep: string): (r: seq<string>)
    requires sep != []
    ensures |r| >= 1
    decreases |s|
  {
    if |s| < |sep| then [s]
    else if s[..|sep|] == sep then [""] + SplitOn(s[|sep|..], sep)
    else
      var rest := SplitOn(s[1..], sep);
      [[s[0]] + rest[0]] + rest[1..]
  }

  /** Without the separator, `split` gives the text back whole. */
  lemma {:induction false} SplitOnAbsent(s: string, sep: string)
    requires sep != [] && !Contains(s, sep)
    ensures SplitOn(s, sep) == [s]
  {
    if |s| >= |sep| {
      assert !StartsWith(s, sep);
      SplitOnAbsent(s[1..], sep);
      assert s == [s[0]] + s[1..];
    }
  }

  /** When `sep` starts nowhere inside `x`, splitting `x + sep + rest` yields `x` first. */
  lemma {:induction false} SplitOnFirst(x: string, sep: string, rest: string)
    requires sep != []
    requires forall p :: 0 <= p < |x| ==> !OccursAt(x + sep + rest, sep, p)
    ensures SplitOn(x + sep + rest, sep) == [x] + SplitOn(rest, sep)
  {
    var t := x + sep + rest;
    if x == [] {
      assert t[..|sep|] == sep && t[|sep|..] == rest;
    } else {
      assert !OccursAt(t, sep, 0);
      assert t[1..] == x[1..] + sep + rest;
      forall p | 0 <= p < |x[1..]| ensures !OccursAt(x[1..] + sep + rest, sep, p) {
        assert !OccursAt(t, sep, p + 1);
        assert t[p + 1..p + 1 + |sep|] == t[1..][p..p + |sep|];
      }
      SplitOnFirst(x[1..], sep, rest);
      assert [t[0]] + x[1..] == x;
    }
  }

  /** A character that differs from every position of `s` is not in it. */
  lemma NotInByIndex(s: string, c: char)
    requires forall i :: 0 <= i < |s| ==> s[i] != c
    ensures c !in s
  {
  }

  /** A one-character separator that does not occur in `s` leaves it whole. */
  lemma SplitOnCharAbsent(s: string, c: char)
    requires c !in s
    ensures SplitOn(s, [c]) == [s]
  {
    ContainsIff(s, [c]);
    forall i ensures !OccursAt(s, [c], i) {
      if 0 <= i < |s| {
        assert s[i..i + 1] == [s[i]];
      }
    }
    SplitOnAbsent(s, [c]);
  }

  /** Splitting `x + [c] + rest` on `c`, where `c` is not in `x`, yields `x` first. */
  lemma SplitOnCharFirst(x: string, c: char, rest: string)
    requires c !in x
    ensures SplitOn(x + [c] + rest, [c]) == [x] + SplitOn(rest, [c])
  {
    forall p | 0 <= p < |x| ensures !OccursAt(x + [c] + rest, [c], p) {
      assert (x + [c] + rest)[p] == x[p];
    }
    SplitOnFirst(x, [c], rest);
  }

  /** `sep.join(parts)` */
  function Join(sep: string, parts: seq<string>): string {
    if parts == [] then ""
    else if |parts| == 1 then parts[0]
    else parts[0] + sep + Join(sep, parts[1..])
  }

  /** The last part closes the joined text. */
  lemma {:induction false} JoinLast(sep: string, parts: seq<string>)
    requires parts != []
    ensures var j := Join(sep, parts); var last := parts[|parts| - 1];
      |last| <= |j| && j[|j| - |last|..] == last
  {
    if |parts| > 1 {
      JoinLast(sep, parts[1..]);
      var rest := Join(sep, parts[1..]);
      assert Join(sep, parts) == (parts[0] + sep) + rest;
    }
  }

  function StripLeft(s: string): (r: string)
    ensures |r| <= |s|
  {
    if s != [] && IsSpace(s[0]) then StripLeft(s[1..]) else s
  }

  function StripRight(s: string): (r: string)
    ensures |r| <= |s|
  {
    if s != [] && IsSpace(s[|s| - 1]) then StripRight(s[..|s| - 1]) else s
  }

  /** `s.strip()` */
  function Strip(s: string): (r: string)
    ensures |r| <= |s|
  {
    StripRight(StripLeft(s))
  }

  /** Latin-1 capitals fold too: `"CAFÉ".lower()` is "café". */
  lemma LowerLatin1Word()
    ensures Lower("CAF\U{C9}") == "caf\U{E9}"
  {
  }

  /** A run of non-space characters ended by a space, or by the end, has its own length. */
  lemma {:induction false} WordLenOf(w: string, rest: string)
    requires forall i :: 0 <= i < |w| ==> !IsSpace(w[i])
    requires rest == [] || IsSpace(rest[0])
    ensures WordLen(w + rest) == |w|
  {
    if w != [] {
      assert (w + rest)[1..] == w[1..] + rest;
      WordLenOf(w[1..], rest);
    }
  }

  /** A word ended by a space, or by the end, is the first of the split. */
  lemma WordFirst(w: string, rest: string)
    requires w != [] && forall i :: 0 <= i < |w| ==> !IsSpace(w[i])
    requires rest == [] || IsSpace(rest[0])
    ensures Words(w + rest) == [w] + Words(rest)
  {
    var s := w + rest;
    WordLenOf(w, rest);
    assert s[0] == w[0];
    assert s[..|w|] == w && s[|w|..] == rest;
  }

  /** Two words around one space: the split gives both. */
  lemma TwoWords(a: string, sp: char, b: string)
    requires a != [] && b != [] && IsSpace(sp)
    requires forall i :: 0 <= i < |a| ==> !IsSpace(a[i])
    requires forall i :: 0 <= i < |b| ==> !IsSpace(b[i])
    ensures Words(a + [sp] + b) == [a, b]
  {
    assert a + [sp] + b == a + ([sp] + b);
    WordFirst(a, [sp] + b);
    assert ([sp] + b)[1..] == b;
    assert Words([sp] + b) == Words(b);
    WordFirst(b, []);
    assert b + [] == b;
  }

  /** A no-break space separates words: `"hello\u00a0world".split()` gives two. */
  lemma NoBreakSpaceSplits()
    ensures Words("hello\U{A0}world") == ["hello", "world"]
  {
    assert "hello\U{A0}world" == "hello" + ['\U{A0}'] + "world";
    TwoWords("hello", '\U{A0}', "world");
  }

  /** Ideographic spaces are stripped: `"\u3000\u3000hi\u3000\u3000".strip()` is "hi". */
  lemma IdeographicSpacesStrip()
    ensures Strip("\U{3000}\U{3000}hi\U{3000}\U{3000}") == "hi"
  {
    var s := "\U{3000}\U{3000}hi\U{3000}\U{3000}";
    assert s[1..][1..] == "hi\U{3000}\U{3000}";
    assert StripLeft(s) == "hi\U{3000}\U{3000}";
    var t := "hi\U{3000}\U{3000}";
    assert t[..3] == "hi\U{3000}" && t[..3][..2] == "hi";
    assert StripRight(t) == "hi";
  }

  function DigitChar(d: nat): char
    requires d < 10
  {
    "0123456789"[d]
  }

  /** `str(n)` for a natural number. */
  function NatToString(n: nat): (r: string)
    ensures r != []
  {
    if n < 10 then [DigitChar(n)] else NatToString(n / 10) + [DigitChar(n % 10)]
  }

  /** `str(i)` for an integer. */
  function IntToString(i: int): string {
    if i < 0 then "-" + NatToString(-i) else NatToString(i)
  }

  /** A slice bound of Python's `s[:k]` / `s[k:]` made non-negative and clipped to the length. */
  function PyBound(len: nat, k: int): (b: nat)
    ensures b <= len
    ensures 0 <= k ==> b == if k <= len then k else len
    ensures k < 0 ==> b == if len + k < 0 then 0 else len + k
  {
    if k < 0 then (if len + k < 0 then 0 else len + k)
    else if k > len then len
    else k
  }

  /** Python's `s[:k]`. */
  function PySliceTo<T>(s: seq<T>, k: int): (r: seq<T>)
    ensures r == s[..PyBound(|s|, k)]
    ensures 0 <= k ==> |r| <= k
  {
    s[..PyBound(|s|, k)]
  }

  /** Python's `s[k:]`. */
  function PySliceFrom<T>(s: seq<T>, k: int): (r: seq<T>)
    ensures r == s[PyBound(|s|, k)..]
    ensures k < 0 ==> |r| <= -k
  {
    s[PyBound(|s|, k)..]
  }
}
