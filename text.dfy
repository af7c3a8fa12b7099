/** The JavaScript string operations the dashboard relies on, over `string` (= `seq<char>`):
    `includes`, `split(' ')`, ASCII `toLowerCase`/`toUpperCase`, `trim`, and the decimal
    rendering of a natural number used in relative-time labels. */
module Text {

  // ---------------------------------------------------------------------------
  // includes
  // ---------------------------------------------------------------------------

  /** `t` matches `s` from offset `i`, comparing the characters of `t` from position `j` on. */
  predicate MatchesAt(s: string, t: string, i: nat, j: nat)
    requires i + |t| <= |s| && j <= |t|
    decreases |t| - j
  {
    j == |t| || (s[i + j] == t[j] && MatchesAt(s, t, i, j + 1))
  }

  /** `t` occurs in `s` at some offset `i` or later. */
  predicate IncludesFrom(s: string, t: string, i: nat)
    decreases |s| - i
  {
    i + |t| <= |s| && (MatchesAt(s, t, i, 0) || IncludesFrom(s, t, i + 1))
  }

  /** `s.includes(t)`: `t` is a contiguous substring of `s`. */
  predicate Includes(s: string, t: string)
  {
    IncludesFrom(s, t, 0)
  }

  lemma {:induction false} MatchesAtIff(s: string, t: string, i: nat, j: nat)
    requires i + |t| <= |s| && j <= |t|
    ensures MatchesAt(s, t, i, j) <==> s[i + j..i + |t|] == t[j..]
    decreases |t| - j
  {
    if j < |t| {
      MatchesAtIff(s, t, i, j + 1);
      assert s[i + j..i + |t|] == [s[i + j]] + s[i + j + 1..i + |t|];
      assert t[j..] == [t[j]] + t[j + 1..];
    }
  }

  /** The window of `s` at offset `i` is exactly `t`. */
  ghost predicate OccursAt(s: string, t: string, i: nat)
  {
    i + |t| <= |s| && s[i..i + |t|] == t
  }

  lemma {:induction false} IncludesFromIff(s: string, t: string, k: nat)
    ensures IncludesFrom(s, t, k) <==> exists i: nat :: k <= i && OccursAt(s, t, i)
    decreases |s| - k
  {
    if k + |t| <= |s| {
      MatchesAtIff(s, t, k, 0);
      assert t[0..] == t;
      assert MatchesAt(s, t, k, 0) <==> OccursAt(s, t, k);
      IncludesFromIff(s, t, k + 1);
      if exists i: nat :: k <= i && OccursAt(s, t, i) {
        var i: nat :| k <= i && OccursAt(s, t, i);
        assert i == k || (k + 1 <= i && OccursAt(s, t, i));
      }
    }
  }

  /** The reference definition of `includes`: some window of `s` equals `t`. */
  lemma IncludesIff(s: string, t: string)
    ensures Includes(s, t) <==> exists i: nat :: OccursAt(s, t, i)
  {
    IncludesFromIff(s, t, 0);
  }

  /** Every string includes the empty string. */
  lemma IncludesEmpty(s: string)
    ensures Includes(s, "")
  {
    assert OccursAt(s, "", 0);
    IncludesIff(s, "");
  }

  /** Every string includes itself. */
  lemma IncludesSelf(s: string)
    ensures Includes(s, s)
  {
    assert s[0..|s|] == s;
    assert OccursAt(s, s, 0);
    IncludesIff(s, s);
  }

  /** A string includes each of the pieces it is built from. */
  lemma IncludesMiddle(a: string, t: string, b: string)
    ensures Includes(a + t + b, t)
  {
    var s := a + t + b;
    assert s[|a|..|a| + |t|] == t;
    assert OccursAt(s, t, |a|);
    IncludesIff(s, t);
  }

  /** Whatever includes a string includes every piece of it. */
  lemma IncludesInfix(s: string, t: string, i: nat, j: nat)
    requires i <= j <= |t|
    ensures Includes(s, t) ==> Includes(s, t[i..j])
  {
    IncludesIff(s, t);
    if !Includes(s, t) {
      return;
    }
    var o: nat :| OccursAt(s, t, o);
    var u := t[i..j];
    var window := s[o + i..o + i + |u|];
    forall m | 0 <= m < |u| ensures window[m] == u[m] {
      assert s[o..o + |t|][i + m] == s[o + i + m];
    }
    assert window == u;
    assert OccursAt(s, u, o + i);
    IncludesIff(s, u);
  }

  /** The character of `s` under position `k` of an occurrence of `t` at `i`. */
  lemma OccursAtChar(s: string, t: string, i: nat, k: int)
    ensures OccursAt(s, t, i) && 0 <= k < |t| ==> t[k] == s[i + k]
  {
    if OccursAt(s, t, i) && 0 <= k < |t| {
      assert s[i..i + |t|][k] == s[i + k];
    }
  }

  /** A string without spaces found in `a + " " + b` lies wholly in `a` or wholly in `b`. */
  lemma IncludesAcrossSpace(a: string, b: string, w: string)
    requires ' ' !in w
    ensures Includes(a + " " + b, w) ==> Includes(a, w) || Includes(b, w)
  {
    var s := a + " " + b;
    IncludesIff(s, w);
    if Includes(s, w) {
      var o: nat :| OccursAt(s, w, o);
      if o + |w| <= |a| {
        assert s[o..o + |w|] == a[o..o + |w|];
        assert OccursAt(a, w, o);
        IncludesIff(a, w);
      } else if o > |a| {
        assert s[o..o + |w|] == b[o - |a| - 1..o - |a| - 1 + |w|];
        assert OccursAt(b, w, o - |a| - 1);
        IncludesIff(b, w);
      } else {
        OccursAtChar(s, w, o, |a| - o);
        assert false;
      }
    }
  }

  /** A string only includes strings no longer than itself. */
  lemma IncludesShorter(s: string, t: string)
    requires Includes(s, t)
    ensures |t| <= |s|
  {
    IncludesIff(s, t);
  }

  // ---------------------------------------------------------------------------
  // split(' ') and its inverse
  // ---------------------------------------------------------------------------

  /** Position of the first `c` in `s`, or `|s|` when there is none. */
  function IndexOf(s: string, c: char): (k: nat)
    ensures k <= |s|
    ensures k < |s| ==> s[k] == c
    ensures forall i :: 0 <= i < k ==> s[i] != c
  {
    if s == [] then 0
    else if s[0] == c then 0
    else 1 + IndexOf(s[1..], c)
  }

  /** `s.split(' ')`: cut at every single space, so leading, trailing or doubled spaces
      produce empty words. */
  function Split(s: string): (words: seq<string>)
    ensures |words| >= 1
    ensures forall w :: w in words ==> ' ' !in w
    decreases |s|
  {
    var k := IndexOf(s, ' ');
    if k == |s| then [s]
    else [s[..k]] + Split(s[k + 1..])
  }

  /** `words.join(' ')`. */
  function Join(words: seq<string>): string
    requires |words| >= 1
  {
    if |words| == 1 then words[0] else words[0] + " " + Join(words[1..])
  }

  /** Splitting loses nothing: joining the words with single spaces gives back the input. */
  lemma {:induction false} JoinSplit(s: string)
    ensures Join(Split(s)) == s
    decreases |s|
  {
    var k := IndexOf(s, ' ');
    if k < |s| {
      JoinSplit(s[k + 1..]);
      assert s == s[..k] + " " + s[k + 1..];
    }
  }

  /** Splitting inverts joining, for words that contain no space. */
  lemma {:induction false} SplitJoin(words: seq<string>)
    requires |words| >= 1
    requires forall w :: w in words ==> ' ' !in w
    ensures Split(Join(words)) == words
    decreases |words|
  {
    if |words| == 1 {
      IndexOfAbsent(words[0], ' ');
    } else {
      assert words[0] in words;
      SplitAfterWord(words[0], Join(words[1..]));
      assert forall w :: w in words[1..] ==> w in words;
      SplitJoin(words[1..]);
      assert words == [words[0]] + words[1..];
    }
  }

  /** A space-free word followed by a space is split off as the first word. */
  lemma SplitAfterWord(a: string, rest: string)
    requires ' ' !in a
    ensures Split(a + " " + rest) == [a] + Split(rest)
  {
    var s := a + " " + rest;
    IndexOfAfter(a, rest, ' ');
    assert s[..|a|] == a;
    assert s[|a| + 1..] == rest;
  }

  lemma IndexOfAbsent(s: string, c: char)
    requires c !in s
    ensures IndexOf(s, c) == |s|
  {
  }

  lemma IndexOfAfter(a: string, b: string, c: char)
    requires c !in a
    ensures IndexOf(a + [c] + b, c) == |a|
  {
    var s := a + [c] + b;
    assert forall i :: 0 <= i < |a| ==> s[i] == a[i];
    assert s[|a|] == c;
  }

  /** Two adjacent spaces always yield an empty word. */
  lemma {:induction false} DoubleSpaceGivesEmptyWord(s: string, i: nat)
    requires i + 1 < |s| && s[i] == ' ' && s[i + 1] == ' '
    ensures "" in Split(s)
    decreases |s|
  {
    var k := IndexOf(s, ' ');
    assert k <= i;
    if k == i {
      assert IndexOf(s[k + 1..], ' ') == 0;
      assert Split(s[k + 1..])[0] == "";
    } else {
      var rest := s[k + 1..];
      assert rest[i - k - 1] == ' ' && rest[i - k] == ' ';
      DoubleSpaceGivesEmptyWord(rest, i - k - 1);
    }
  }

  // ---------------------------------------------------------------------------
  // toLowerCase / toUpperCase (ASCII letters)
  // ---------------------------------------------------------------------------

  predicate IsUpperAscii(c: char) { 'A' <= c <= 'Z' }
  predicate IsLowerAscii(c: char) { 'a' <= c <= 'z' }

  function LowerChar(c: char): char
  {
    if IsUpperAscii(c) then (c as int + 32) as char else c
  }

  function UpperChar(c: char): char
  {
    if IsLowerAscii(c) then (c as int - 32) as char else c
  }

  /** `s.toLowerCase()` on ASCII letters; every other character is kept. */
  function Lower(s: string): (r: string)
    ensures |r| == |s|
    ensures forall i :: 0 <= i < |s| ==> !IsUpperAscii(r[i])
    ensures forall i :: 0 <= i < |s| && !IsUpperAscii(s[i]) ==> r[i] == s[i]
  {
    seq(|s|, i requires 0 <= i < |s| => LowerChar(s[i]))
  }

  /** `s.toUpperCase()` on ASCII letters; every other character is kept. */
  function Upper(s: string): (r: string)
    ensures |r| == |s|
    ensures forall i :: 0 <= i < |s| ==> !IsLowerAscii(r[i])
    ensures forall i :: 0 <= i < |s| && !IsLowerAscii(s[i]) ==> r[i] == s[i]
  {
    seq(|s|, i requires 0 <= i < |s| => UpperChar(s[i]))
  }

  /** Lower-casing twice is lower-casing once. */
  lemma LowerIdempotent(s: string)
    ensures Lower(Lower(s)) == Lower(s)
  {
  }

  /** `s.toLowerCase().includes(t.toLowerCase())`: the search boxes' test. */
  predicate IncludesIgnoringCase(s: string, t: string)
  {
    Includes(Lower(s), Lower(t))
  }

  /** A prefix is found ignoring case whatever case it was written in: upper-casing a prefix
      does not hide it from a case-insensitive search. */
  lemma UpperPrefixMatches(a: string, b: string)
    ensures IncludesIgnoringCase(Upper(a) + b, a)
  {
    var s := Upper(a) + b;
    assert Lower(s)[..|a|] == Lower(a) by {
      forall i | 0 <= i < |a| ensures Lower(s)[i] == Lower(a)[i] {
        assert s[i] == UpperChar(a[i]);
      }
    }
    IncludesMiddle("", Lower(a), Lower(s)[|a|..]);
    assert "" + Lower(a) + Lower(s)[|a|..] == Lower(s);
  }

  /** An empty search term matches everything. */
  lemma EmptyTermMatches(s: string)
    ensures IncludesIgnoringCase(s, "")
  {
    IncludesEmpty(Lower(s));
  }

  // ---------------------------------------------------------------------------
  // trim
  // ---------------------------------------------------------------------------

  /** The characters `String.prototype.trim` strips: the ECMAScript WhiteSpace
      (tab, vertical tab, form feed, no-break space, byte-order mark and the Unicode
      space separators) and LineTerminator (line feed, carriage return, U+2028, U+2029) sets. */
  predicate IsWhitespace(c: char)
  {
    c == ' ' || c == '\t' || c == '\n' || c == '\r' || c == '\U{000B}' || c == '\U{000C}'
    || c == '\U{00A0}' || c == '\U{1680}' || ('\U{2000}' <= c <= '\U{200A}')
    || c == '\U{2028}' || c == '\U{2029}' || c == '\U{202F}' || c == '\U{205F}'
    || c == '\U{3000}' || c == '\U{FEFF}'
  }

  /** Drops the leading whitespace: the result is the suffix of `s` that starts at its first
      non-whitespace character. */
  function TrimStart(s: string): (r: string)
    ensures |r| <= |s| && r == s[|s| - |r|..]
    ensures r == [] || !IsWhitespace(r[0])
    ensures forall i :: 0 <= i < |s| - |r| ==> IsWhitespace(s[i])
  {
    if s == [] || !IsWhitespace(s[0]) then s else TrimStart(s[1..])
  }

  /** Drops the trailing whitespace: the result is the prefix of `s` that ends at its last
      non-whitespace character. */
  function TrimEnd(s: string): (r: string)
    ensures |r| <= |s| && r == s[..|r|]
    ensures r == [] || !IsWhitespace(r[|r| - 1])
    ensures forall i :: |r| <= i < |s| ==> IsWhitespace(s[i])
  {
    if s == [] || !IsWhitespace(s[|s| - 1]) then s else TrimEnd(s[..|s| - 1])
  }

  /** `s.trim()`. */
  function Trim(s: string): string
  {
    TrimEnd(TrimStart(s))
  }

  /** `s.trim() === ''` exactly when every character of `s` is whitespace. */
  lemma TrimEmptyIff(s: string)
    ensures Trim(s) == "" <==> forall i :: 0 <= i < |s| ==> IsWhitespace(s[i])
  {
    if Trim(s) == "" {
      assert TrimStart(s) == [];
    }
  }

  // ---------------------------------------------------------------------------
  // number rendering
  // ---------------------------------------------------------------------------

  function DigitChar(d: nat): char
    requires d < 10
  {
    ('0' as int + d) as char
  }

  /** The decimal digits of `n`, as a template literal renders it. */
  function NatToString(n: nat): (r: string)
    ensures |r| >= 1
    ensures forall i :: 0 <= i < |r| ==> '0' <= r[i] <= '9'
  {
    if n < 10 then [DigitChar(n)] else NatToString(n / 10) + [DigitChar(n % 10)]
  }

  /** Reads back a string of decimal digits. */
  function ParseDigits(s: string): nat
    requires forall i :: 0 <= i < |s| ==> '0' <= s[i] <= '9'
  {
    if s == [] then 0 else 10 * ParseDigits(s[..|s| - 1]) + (s[|s| - 1] as int - '0' as int)
  }

  /** The rendering is faithful: reading the digits back gives the number. */
  lemma {:induction false} NatToStringRoundTrip(n: nat)
    ensures ParseDigits(NatToString(n)) == n
  {
    if n >= 10 {
      NatToStringRoundTrip(n / 10);
      var r := NatToString(n);
      assert r[..|r| - 1] == NatToString(n / 10);
    }
  }
}
