/** The string helpers of src/lib/utils.ts: `slugify`, `capitalize` and
    `truncate`, together with the pieces of JavaScript's string library they
    rely on (`toLowerCase`, `toUpperCase`, `trim`, `slice`, and the regular
    expression classes `\s` and `\w`). Case mapping is modelled on ASCII
    letters only. */
module Utils {

  // ---------------------------------------------------------------------
  // Character classes
  // ---------------------------------------------------------------------

  predicate IsAsciiUpper(c: char) { 'A' <= c <= 'Z' }
  predicate IsAsciiLower(c: char) { 'a' <= c <= 'z' }
  predicate IsAsciiDigit(c: char) { '0' <= c <= '9' }

  /** The class `\w` of a JavaScript regular expression without the `u`
      flag: ASCII letters, digits and the underscore. */
  predicate IsWordChar(c: char) {
    IsAsciiUpper(c) || IsAsciiLower(c) || IsAsciiDigit(c) || c == '_'
  }

  /** The class `\s`, which is also the set of characters `trim` removes:
      ECMAScript white space and line terminators. */
  predicate IsSpace(c: char) {
    || c == ' ' || c == '\t' || c == '\n' || c == '\U{000B}' || c == '\U{000C}'
    || c == '\r' || c == '\U{00A0}' || c == '\U{1680}'
    || ('\U{2000}' <= c <= '\U{200A}')
    || c == '\U{2028}' || c == '\U{2029}' || c == '\U{202F}' || c == '\U{205F}'
    || c == '\U{3000}' || c == '\U{FEFF}'
  }

  /** The characters a slug is made of: `[a-z0-9_-]`. */
  predicate IsSlugChar(c: char) {
    IsAsciiLower(c) || IsAsciiDigit(c) || c == '_' || c == '-'
  }

  function ToLowerChar(c: char): (r: char)
    ensures !IsAsciiUpper(r)
    ensures IsAsciiUpper(c) ==> IsAsciiLower(r)
    ensures !IsAsciiUpper(c) ==> r == c
  {
    if IsAsciiUpper(c) then (c as int + 32) as char else c
  }

  function ToUpperChar(c: char): (r: char)
    ensures !IsAsciiLower(r)
    ensures IsAsciiLower(c) ==> IsAsciiUpper(r)
    ensures !IsAsciiLower(c) ==> r == c
  {
    if IsAsciiLower(c) then (c as int - 32) as char else c
  }

  /** `String.prototype.toLowerCase`, on ASCII letters. */
  function Lower(s: string): (r: string)
    ensures |r| == |s|
    ensures forall i :: 0 <= i < |s| ==> r[i] == ToLowerChar(s[i])
  {
    if s == [] then [] else [ToLowerChar(s[0])] + Lower(s[1..])
  }

  // ---------------------------------------------------------------------
  // slice
  // ---------------------------------------------------------------------

  /** How `slice` reads an index argument: a negative index counts back
      from the end, and every index is clamped to `[0, len]`. */
  function RelativeIndex(len: nat, k: int): (r: nat)
    ensures r <= len
    ensures 0 <= k <= len ==> r == k
    ensures k < 0 && len + k >= 0 ==> r == len + k
  {
    if k < 0 then (if len + k < 0 then 0 else len + k)
    else if k > len then len
    else k
  }

  /** `s.slice(start, end)`: empty when the clamped start is not before the
      clamped end. */
  function Slice(s: string, start: int, end: int): (r: string)
    ensures |r| <= |s|
    ensures 0 <= start <= end <= |s| ==> r == s[start..end]
  {
    var a := RelativeIndex(|s|, start);
    var b := RelativeIndex(|s|, end);
    if a < b then s[a..b] else []
  }

  /** `s.slice(start)`. */
  function SliceFrom(s: string, start: int): (r: string)
    ensures |r| <= |s|
    ensures 0 <= start <= |s| ==> r == s[start..]
    ensures start < 0 && |s| + start >= 0 ==> r == s[|s| + start..]
    ensures start < 0 && |s| + start < 0 ==> r == s
    ensures start > |s| ==> r == []
  {
    Slice(s, start, |s|)
  }

  // ---------------------------------------------------------------------
  // slugify (src/lib/utils.ts:33-41)
  // ---------------------------------------------------------------------

  predicate NoSpace(s: string) {
    forall i :: 0 <= i < |s| ==> !IsSpace(s[i])
  }

  predicate NoDoubleDash(s: string) {
    forall i :: 0 <= i < |s| - 1 ==> !(s[i] == '-' && s[i + 1] == '-')
  }

  predicate NoUpper(s: string) {
    forall i :: 0 <= i < |s| ==> !IsAsciiUpper(s[i])
  }

  predicate AllSlugChars(s: string) {
    forall i :: 0 <= i < |s| ==> IsSlugChar(s[i])
  }

  /** `trimEnd`: drops the trailing white space. */
  function TrimEnd(s: string): (r: string)
    ensures |r| <= |s| && r == s[..|r|]
    ensures r == [] || !IsSpace(r[|r| - 1])
    ensures forall i :: |r| <= i < |s| ==> IsSpace(s[i])
  {
    if |s| > 0 && IsSpace(s[|s| - 1]) then TrimEnd(s[..|s| - 1]) else s
  }

  /** The number of white-space characters `s` starts with. */
  function LeadingSpaces(s: string): (n: nat)
    ensures n <= |s|
    ensures forall i :: 0 <= i < n ==> IsSpace(s[i])
    ensures n < |s| ==> !IsSpace(s[n])
  {
    if |s| > 0 && IsSpace(s[0]) then 1 + LeadingSpaces(s[1..]) else 0
  }

  /** Removing white space from both ends of `s` keeps the count of every
      other character. */
  lemma OuterSpaceCounts(s: string, k: nat, m: nat)
    requires k <= m <= |s|
    requires forall i :: 0 <= i < k ==> IsSpace(s[i])
    requires forall i :: m <= i < |s| ==> IsSpace(s[i])
    ensures forall c :: !IsSpace(c) ==> multiset(s[k..m])[c] == multiset(s)[c]
  {
    assert s == s[..k] + s[k..m] + s[m..];
    forall c | !IsSpace(c) ensures multiset(s[k..m])[c] == multiset(s)[c] {
      assert c !in s[..k];
      assert c !in s[m..];
    }
  }

  /** What is left once the leading and the trailing white space is gone. */
  function Trimmed(s: string): string {
    TrimEnd(s[LeadingSpaces(s)..])
  }

  /** The trimmed string is the slice between the leading and the trailing
      white space. */
  lemma TrimmedSlice(s: string)
    ensures LeadingSpaces(s) + |Trimmed(s)| <= |s|
    ensures Trimmed(s) == s[LeadingSpaces(s)..LeadingSpaces(s) + |Trimmed(s)|]
    ensures forall i :: LeadingSpaces(s) + |Trimmed(s)| <= i < |s| ==> IsSpace(s[i])
  {
    var k := LeadingSpaces(s);
    assert forall i :: k + |Trimmed(s)| <= i < |s| ==> s[i] == s[k..][i - k];
  }

  /** The trimmed string neither starts nor ends with white space. */
  lemma TrimmedEnds(s: string)
    ensures Trimmed(s) == [] || (!IsSpace(Trimmed(s)[0]) && !IsSpace(Trimmed(s)[|Trimmed(s)| - 1]))
  {
    var k := LeadingSpaces(s);
    var r := Trimmed(s);
    if r != [] {
      assert r[0] == s[k..][0] == s[k];
    }
  }

  /** A string without white space is left as it is. */
  lemma TrimmedNoSpace(s: string)
    requires NoSpace(s)
    ensures Trimmed(s) == s
  {
    assert LeadingSpaces(s) == 0;
    assert s[0..] == s;
  }

  /** Trimming keeps the count of every character that is not white space,
      and keeps a string without upper-case letters so. */
  lemma TrimmedContent(s: string)
    ensures forall c :: !IsSpace(c) ==> multiset(Trimmed(s))[c] == multiset(s)[c]
    ensures NoUpper(s) ==> NoUpper(Trimmed(s))
  {
    var k := LeadingSpaces(s);
    var r := Trimmed(s);
    TrimmedSlice(s);
    OuterSpaceCounts(s, k, k + |r|);
    if NoUpper(s) {
      forall i | 0 <= i < |r| ensures !IsAsciiUpper(r[i]) {
        assert r[i] == s[k + i];
      }
    }
  }

  /** `trim`: the input with its leading white space and its trailing white
      space removed, and nothing else. */
  function Trim(s: string): (r: string)
    ensures LeadingSpaces(s) + |r| <= |s|
    ensures r == s[LeadingSpaces(s)..LeadingSpaces(s) + |r|]
    ensures forall i :: LeadingSpaces(s) + |r| <= i < |s| ==> IsSpace(s[i])
    ensures r == [] || (!IsSpace(r[0]) && !IsSpace(r[|r| - 1]))
    ensures forall c :: !IsSpace(c) ==> multiset(r)[c] == multiset(s)[c]
    ensures NoSpace(s) ==> r == s
    ensures NoUpper(s) ==> NoUpper(r)
  {
    TrimmedSlice(s);
    TrimmedEnds(s);
    TrimmedContent(s);
    if NoSpace(s) then TrimmedNoSpace(s); Trimmed(s) else Trimmed(s)
  }

  /** `.replace(/\s+/g, '-')`: every maximal run of white space becomes a
      single dash, and every other character is kept. The lemmas below
      (`DashSpacesCounts`, `DashSpacesRun`, `DashSpacesAppend`) pin it down
      run by run. */
  function DashSpaces(s: string): (r: string)
    ensures NoSpace(r)
    ensures NoSpace(s) ==> r == s
    ensures NoUpper(s) ==> NoUpper(r)
  {
    if s == [] then []
    else if IsSpace(s[0]) then
      if |s| > 1 && IsSpace(s[1]) then DashSpaces(s[1..]) else "-" + DashSpaces(s[1..])
    else [s[0]] + DashSpaces(s[1..])
  }

  /** Dashing keeps the count of every character that is neither white
      space nor a dash. */
  lemma {:induction false} DashSpacesCounts(s: string)
    ensures forall c :: !IsSpace(c) && c != '-' ==> multiset(DashSpaces(s))[c] == multiset(s)[c]
  {
    if s != [] {
      DashSpacesCounts(s[1..]);
      assert s == [s[0]] + s[1..];
    }
  }

  /** A run of white space on its own becomes one dash. */
  lemma {:induction false} DashSpacesRun(w: string)
    requires w != [] && forall i :: 0 <= i < |w| ==> IsSpace(w[i])
    ensures DashSpaces(w) == "-"
  {
    if |w| > 1 {
      assert IsSpace(w[1]);
      assert forall i :: 0 <= i < |w[1..]| ==> w[1..][i] == w[i + 1];
      DashSpacesRun(w[1..]);
    }
  }

  /** Cut anywhere but inside a run of white space, the string is dashed
      piece by piece. */
  lemma {:induction false} DashSpacesAppend(a: string, b: string)
    requires a == [] || b == [] || !IsSpace(a[|a| - 1]) || !IsSpace(b[0])
    ensures DashSpaces(a + b) == DashSpaces(a) + DashSpaces(b)
  {
    if a == [] {
      assert a + b == b;
    } else if b == [] {
      assert a + b == a;
    } else {
      var t := a[1..];
      assert (a + b)[0] == a[0] && (a + b)[1..] == t + b;
      if t == [] {
        assert (a + b)[1] == b[0];
      } else {
        assert (a + b)[1] == t[0] == a[1];
        assert t[|t| - 1] == a[|a| - 1];
        DashSpacesAppend(t, b);
      }
    }
  }

  /** The characters `[\w-]` keeps. */
  predicate IsKept(c: char) {
    IsWordChar(c) || c == '-'
  }

  /** `.replace(/[^\w\-]+/g, '')`: drops every character that is neither a
      word character nor a dash, and keeps every other one, as often as it
      occurs (`StripNonWordCounts`) and in order (`StripNonWordAppend`). */
  function StripNonWord(s: string): (r: string)
    ensures forall i :: 0 <= i < |r| ==> IsKept(r[i])
    ensures NoUpper(s) ==> AllSlugChars(r)
    ensures AllSlugChars(s) ==> r == s
  {
    if s == [] then []
    else if IsKept(s[0]) then [s[0]] + StripNonWord(s[1..])
    else StripNonWord(s[1..])
  }

  /** Every word character and every dash is kept, as often as it occurs. */
  lemma {:induction false} StripNonWordCounts(s: string)
    ensures forall c :: IsKept(c) ==> multiset(StripNonWord(s))[c] == multiset(s)[c]
  {
    if s != [] {
      StripNonWordCounts(s[1..]);
      assert s == [s[0]] + s[1..];
    }
  }

  /** Characters are kept or dropped one by one, so the kept ones stay in
      their order. */
  lemma {:induction false} StripNonWordAppend(a: string, b: string)
    ensures StripNonWord(a + b) == StripNonWord(a) + StripNonWord(b)
  {
    if a == [] {
      assert a + b == b;
    } else {
      assert (a + b)[0] == a[0] && (a + b)[1..] == a[1..] + b;
      StripNonWordAppend(a[1..], b);
    }
  }

  /** `.replace(/\-\-+/g, '-')`: every run of two or more dashes becomes a
      single dash, and every other character is kept (`CollapseDashesCounts`,
      `CollapseDashesRun`, `CollapseDashesAppend`). */
  function CollapseDashes(s: string): (r: string)
    ensures |s| > 0 ==> |r| > 0 && r[0] == s[0]
    ensures NoDoubleDash(r)
    ensures AllSlugChars(s) ==> AllSlugChars(r)
    ensures NoDoubleDash(s) ==> r == s
  {
    if |s| <= 1 then s
    else if s[0] == '-' && s[1] == '-' then CollapseDashes(s[1..])
    else [s[0]] + CollapseDashes(s[1..])
  }

  /** Every character but the dash is kept, as often as it occurs. */
  lemma {:induction false} CollapseDashesCounts(s: string)
    ensures forall c :: c != '-' ==> multiset(CollapseDashes(s))[c] == multiset(s)[c]
  {
    if |s| > 1 {
      CollapseDashesCounts(s[1..]);
      assert s == [s[0]] + s[1..];
    }
  }

  /** A run of dashes on its own becomes one dash. */
  lemma {:induction false} CollapseDashesRun(w: string)
    requires w != [] && forall i :: 0 <= i < |w| ==> w[i] == '-'
    ensures CollapseDashes(w) == "-"
  {
    if |w| > 1 {
      assert w[0] == '-' && w[1] == '-';
      assert forall i :: 0 <= i < |w[1..]| ==> w[1..][i] == w[i + 1];
      CollapseDashesRun(w[1..]);
    }
  }

  /** Cut anywhere but inside a run of dashes, the dashes are collapsed piece
      by piece. */
  lemma {:induction false} CollapseDashesAppend(a: string, b: string)
    requires a == [] || b == [] || a[|a| - 1] != '-' || b[0] != '-'
    ensures CollapseDashes(a + b) == CollapseDashes(a) + CollapseDashes(b)
  {
    if a == [] {
      assert a + b == b;
    } else if b == [] {
      assert a + b == a;
    } else {
      var t := a[1..];
      assert (a + b)[0] == a[0] && (a + b)[1..] == t + b;
      if t == [] {
        assert (a + b)[1] == b[0];
      } else {
        assert (a + b)[1] == t[0] == a[1];
        assert t[|t| - 1] == a[|a| - 1];
        CollapseDashesAppend(t, b);
      }
    }
  }

  /** `slugify`: lower-case, trim, dash the white space, drop everything
      but `[\w-]`, collapse the dashes. Its result is made of `[a-z0-9_-]`
      only and never holds two dashes in a row. */
  function Slugify(s: string): (r: string)
    ensures AllSlugChars(r)
    ensures NoDoubleDash(r)
  {
    var lowered := Lower(s);
    assert NoUpper(lowered);
    CollapseDashes(StripNonWord(DashSpaces(Trim(lowered))))
  }

  /** No letter, digit or underscore is lost: the slug holds each of them,
      once lower-cased, as often as the input does. */
  lemma SlugifyKeepsWordChars(s: string)
    ensures forall c :: IsWordChar(c) ==> multiset(Slugify(s))[c] == multiset(Lower(s))[c]
  {
    var t1 := Trim(Lower(s));
    var t2 := DashSpaces(t1);
    var t3 := StripNonWord(t2);
    DashSpacesCounts(t1);
    StripNonWordCounts(t2);
    CollapseDashesCounts(t3);
    assert Slugify(s) == CollapseDashes(t3);
    forall c | IsWordChar(c) ensures multiset(Slugify(s))[c] == multiset(Lower(s))[c] {
      assert !IsSpace(c) && c != '-' && IsKept(c);
      assert multiset(t3)[c] == multiset(t2)[c] == multiset(t1)[c];
    }
  }

  /** A string already made of slug characters without a double dash is its
      own slug. */
  lemma SlugIsFixed(s: string)
    requires AllSlugChars(s) && NoDoubleDash(s)
    ensures Slugify(s) == s
  {
    assert Lower(s) == s;
    assert NoSpace(s) by {
      forall i | 0 <= i < |s| ensures !IsSpace(s[i]) {
        assert IsSlugChar(s[i]);
      }
    }
  }

  /** A slug is its own slug. */
  lemma SlugifyIdempotent(s: string)
    ensures Slugify(Slugify(s)) == Slugify(s)
  {
    SlugIsFixed(Slugify(s));
  }

  /** An input with a leading space, a capital, a double space and a final
      mark, stage by stage, then through the whole pipeline. */
  lemma SlugifyExampleLower()
    ensures Lower(" A  b!") == " a  b!"
  {
  }

  lemma SlugifyExampleTrim()
    ensures Trim(" a  b!") == "a  b!"
  {
    var s := " a  b!";
    assert IsSpace(s[0]) && !IsSpace(s[1]) && !IsSpace(s[|s| - 1]);
    assert LeadingSpaces(s) == 1;
  }

  lemma SlugifyExampleDash()
    ensures DashSpaces("a  b!") == "a-b!"
  {
  }

  lemma SlugifyExampleStrip()
    ensures StripNonWord("a-b!") == "a-b"
  {
    StripNonWordAppend("a-b", "!");
    assert "a-b" + "!" == "a-b!";
    assert AllSlugChars("a-b");
    assert StripNonWord("!") == "";
  }

  lemma SlugifyExampleCollapse()
    ensures CollapseDashes("a-b") == "a-b"
  {
  }

  lemma SlugifyExample()
    ensures Slugify(" A  b!") == "a-b"
  {
    SlugifyExampleLower();
    SlugifyExampleTrim();
    SlugifyExampleDash();
    SlugifyExampleStrip();
    SlugifyExampleCollapse();
  }

  // ---------------------------------------------------------------------
  // capitalize (src/lib/utils.ts:43-45)
  // ---------------------------------------------------------------------

  /** `text.charAt(0).toUpperCase() + text.slice(1)`. */
  function Capitalize(s: string): (r: string)
    ensures |r| == |s|
    ensures |s| > 0 ==> r[0] == ToUpperChar(s[0]) && r[1..] == s[1..]
  {
    (if s == [] then [] else [ToUpperChar(s[0])]) + SliceFrom(s, 1)
  }

  /** Capitalizing twice is capitalizing once, and only the first character
      ever changes. */
  lemma CapitalizeIdempotent(s: string)
    ensures Capitalize(Capitalize(s)) == Capitalize(s)
    ensures forall i :: 1 <= i < |s| ==> Capitalize(s)[i] == s[i]
  {
    if s != [] {
      var r := Capitalize(s);
      assert r[0] == ToUpperChar(s[0]);
      assert Capitalize(r)[0] == ToUpperChar(r[0]) == r[0];
      assert Capitalize(r) == [Capitalize(r)[0]] + Capitalize(r)[1..];
      assert r == [r[0]] + r[1..];
      forall i | 1 <= i < |s| ensures r[i] == s[i] {
        assert r[i] == r[1..][i - 1];
      }
    }
  }

  // ---------------------------------------------------------------------
  // truncate (src/lib/utils.ts:47-50)
  // ---------------------------------------------------------------------

  /** The length `truncate` uses when none is given. */
  const DefaultTruncateLength := 100

  /** `truncate(text, length)`: the text itself when it fits, otherwise
      `text.slice(0, length)` followed by three dots. */
  function Truncate(s: string, n: int): (r: string)
    ensures |s| <= n ==> r == s
    ensures 0 <= n < |s| ==> r == s[..n] + "..." && |r| == n + 3
    ensures n < 0 && |s| + n >= 0 ==> r == s[..|s| + n] + "..."
    ensures n < 0 && |s| + n < 0 ==> r == "..."
  {
    if |s| <= n then s else Slice(s, 0, n) + "..."
  }

  /** Whatever the length, the result is either the whole text or a prefix
      of it marked with three dots, and never longer than `n + 3` when `n`
      is not negative. */
  lemma TruncateIsMarkedPrefix(s: string, n: int)
    ensures var r := Truncate(s, n);
      r == s ||
      (|r| >= 3 && r[|r| - 3..] == "..." && r[..|r| - 3] <= s)
    ensures n >= 0 ==> |Truncate(s, n)| <= n + 3
  {
    var r := Truncate(s, n);
    if r != s {
      var k := |r| - 3;
      var b := RelativeIndex(|s|, n);
      assert Slice(s, 0, n) == s[..b];
      assert r[..k] == s[..b];
      assert r[k..] == "...";
    }
  }
}
