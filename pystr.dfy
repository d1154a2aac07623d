/** The Python `str` and slicing operations the modelled code relies on, with Python's semantics:
    `strip`, ASCII `lower`/`upper`/`capitalize`, `in`, `count`, `split`, `join`, `replace`,
    `seq[start:stop]`, decimal formatting of an `int`, and the
    `[line.strip() for line in f if line.strip()]` comprehension over a text file. */
module PyStr {

  // ---------------------------------------------------------------- whitespace and strip

  /** Python's `str.isspace()` on one character (every code point Python counts as whitespace). */
  predicate IsSpace(c: char)
  {
    var n := c as int;
    (9 <= n <= 13) || (28 <= n <= 32) || n == 0x85 || n == 0xA0 || n == 0x1680
    || (0x2000 <= n <= 0x200A) || n == 0x2028 || n == 0x2029 || n == 0x202F
    || n == 0x205F || n == 0x3000
  }

  predicate AllSpace(s: string)
  {
    forall k :: 0 <= k < |s| ==> IsSpace(s[k])
  }

  /** Neither end of `s` is whitespace: what `strip()` returns. */
  predicate NoEdgeSpace(s: string)
  {
    s == [] || (!IsSpace(s[0]) && !IsSpace(s[|s| - 1]))
  }

  /** Python's `s.lstrip()`. */
  function StripLeft(s: string): (r: string)
    ensures |r| <= |s| && r == s[|s| - |r|..]
    ensures r == [] || !IsSpace(r[0])
    decreases |s|
  {
    if |s| > 0 && IsSpace(s[0]) then StripLeft(s[1..]) else s
  }

  /** Python's `s.rstrip()`. */
  function StripRight(s: string): (r: string)
    ensures |r| <= |s| && r == s[..|r|]
    ensures r == [] || !IsSpace(r[|r| - 1])
    decreases |s|
  {
    if |s| > 0 && IsSpace(s[|s| - 1]) then StripRight(s[..|s| - 1]) else s
  }

  /** Python's `s.strip()`; the result has no whitespace at either end. */
  function Strip(s: string): (r: string)
    ensures NoEdgeSpace(r)
  {
    var l := StripLeft(s);
    var r := StripRight(l);
    assert r != [] ==> r[0] == l[0];
    r
  }

  /** `lstrip()` removes whitespace only. */
  lemma {:induction false} StripLeftSpaces(s: string)
    ensures AllSpace(s[..|s| - |StripLeft(s)|])
    decreases |s|
  {
    if |s| > 0 && IsSpace(s[0]) {
      var t := s[1..];
      StripLeftSpaces(t);
      var n := |t| - |StripLeft(t)|;
      assert StripLeft(s) == StripLeft(t);
      forall k | 0 <= k < n + 1
        ensures IsSpace(s[k])
      {
        if k > 0 {
          assert s[k] == t[..n][k - 1];
        }
      }
    }
  }

  /** `rstrip()` removes whitespace only. */
  lemma {:induction false} StripRightSpaces(s: string)
    ensures AllSpace(s[|StripRight(s)|..])
    decreases |s|
  {
    if |s| > 0 && IsSpace(s[|s| - 1]) {
      StripRightSpaces(s[..|s| - 1]);
      assert s[|StripRight(s)|..] == s[..|s| - 1][|StripRight(s[..|s| - 1])|..] + [s[|s| - 1]];
    }
  }

  /** What `strip()` removes is whitespace: `s` is whitespace, then `Strip(s)`, then whitespace.
      With `NoEdgeSpace` this determines the result. */
  lemma StripTrims(s: string)
    ensures exists i | 0 <= i <= |s| - |Strip(s)| ::
              s[i..i + |Strip(s)|] == Strip(s) && AllSpace(s[..i]) && AllSpace(s[i + |Strip(s)|..])
  {
    var l := StripLeft(s);
    var r := StripRight(l);
    assert r == Strip(s);
    StripLeftSpaces(s);
    StripRightSpaces(l);
    TrimWitness(s, l, r);
  }

  /** A space run, then `r`, then a space run, read off a suffix `l` of `s` that `r` begins. */
  lemma TrimWitness(s: string, l: string, r: string)
    requires |l| <= |s| && l == s[|s| - |l|..] && AllSpace(s[..|s| - |l|])
    requires |r| <= |l| && r == l[..|r|] && AllSpace(l[|r|..])
    ensures exists i | 0 <= i <= |s| - |r| ::
              s[i..i + |r|] == r && AllSpace(s[..i]) && AllSpace(s[i + |r|..])
  {
    var i := |s| - |l|;
    assert s[i..i + |r|] == l[..|r|];
    assert s[i + |r|..] == l[|r|..];
  }

  /** A string with no whitespace at its ends is left as it is by `strip()`. */
  lemma StripNoEdgeSpace(s: string)
    requires NoEdgeSpace(s)
    ensures Strip(s) == s
  {
    assert StripLeft(s) == s;
    assert StripRight(s) == s;
  }

  /** `strip()` leaves a string alone exactly when neither end is whitespace. */
  lemma StripFixedPoint(s: string)
    ensures Strip(s) == s <==> NoEdgeSpace(s)
  {
    if NoEdgeSpace(s) {
      StripNoEdgeSpace(s);
    }
  }

  /** `strip()` is idempotent. */
  lemma StripIdempotent(s: string)
    ensures Strip(Strip(s)) == Strip(s)
  {
    StripNoEdgeSpace(Strip(s));
  }

  /** `strip()` only removes characters, so a character absent before is absent after. */
  lemma StripKeepsAbsent(s: string, c: char)
    requires c !in s
    ensures c !in Strip(s)
  {
    StripTrims(s);
    var i :| 0 <= i <= |s| - |Strip(s)| && s[i..i + |Strip(s)|] == Strip(s);
    forall k | 0 <= k < |Strip(s)|
      ensures Strip(s)[k] != c
    {
      assert Strip(s)[k] == s[i + k];
    }
  }

  // ---------------------------------------------------------------- ASCII case

  predicate IsAsciiUpper(c: char) { 'A' <= c <= 'Z' }

  predicate IsAsciiLower(c: char) { 'a' <= c <= 'z' }

  function LowerChar(c: char): char
  {
    if IsAsciiUpper(c) then (c as int + 32) as char else c
  }

  function UpperChar(c: char): char
  {
    if IsAsciiLower(c) then (c as int - 32) as char else c
  }

  /** Python's `s.lower()` on ASCII letters: every character lowered, length kept. */
  function Lower(s: string): (r: string)
    ensures |r| == |s|
    ensures forall i :: 0 <= i < |s| ==> r[i] == LowerChar(s[i])
    ensures forall i :: 0 <= i < |r| ==> !IsAsciiUpper(r[i])
    decreases |s|
  {
    if s == [] then [] else [LowerChar(s[0])] + Lower(s[1..])
  }

  /** Lower-casing twice is lower-casing once. */
  lemma LowerIdempotent(s: string)
    ensures Lower(Lower(s)) == Lower(s)
  {
    assert forall i :: 0 <= i < |s| ==> LowerChar(LowerChar(s[i])) == LowerChar(s[i]);
  }

  /** Python's `s.capitalize()` on ASCII letters: the same letters up to case, the first one not
      lower-case, the others not upper-case. */
  function Capitalize(s: string): (r: string)
    ensures |r| == |s|
    ensures Lower(r) == Lower(s)
    ensures r == [] || !IsAsciiLower(r[0])
    ensures forall i :: 1 <= i < |r| ==> !IsAsciiUpper(r[i])
  {
    if s == [] then [] else [UpperChar(s[0])] + Lower(s[1..])
  }

  /** A text whose tail has no capital is capitalised by upper-casing its first letter. */
  lemma CapitalizeLowerTail(s: string)
    requires s != [] && forall i :: 1 <= i < |s| ==> !IsAsciiUpper(s[i])
    ensures Capitalize(s) == [UpperChar(s[0])] + s[1..]
  {
    assert Lower(s[1..]) == s[1..];
  }

  // ---------------------------------------------------------------- `in` and `count`

  predicate OccursAt(s: string, sub: string, i: int)
  {
    0 <= i && i + |sub| <= |s| && s[i..i + |sub|] == sub
  }

  /** Python's `sub in s`. */
  predicate Contains(s: string, sub: string)
  {
    exists i | 0 <= i <= |s| - |sub| :: OccursAt(s, sub, i)
  }

  /** For a one-character `sub`, `sub in s` is membership of that character. */
  lemma ContainsChar(s: string, c: char)
    ensures Contains(s, [c]) <==> c in s
  {
    if c in s {
      var i :| 0 <= i < |s| && s[i] == c;
      assert s[i..i + 1] == [c];
      assert OccursAt(s, [c], i);
    }
    if Contains(s, [c]) {
      var i :| 0 <= i <= |s| - 1 && OccursAt(s, [c], i);
      assert s[i] == s[i..i + 1][0];
    }
  }

  /** Whatever stands between two strings is contained in their concatenation. */
  lemma ContainsMiddle(a: string, b: string, c: string)
    ensures Contains(a + b + c, b)
  {
    assert (a + b + c)[|a|..|a| + |b|] == b;
    assert OccursAt(a + b + c, b, |a|);
  }

  /** Both halves of a concatenation are contained in it. */
  lemma ContainsHalves(a: string, b: string)
    ensures Contains(a + b, a)
    ensures Contains(a + b, b)
  {
    assert (a + b)[0..|a|] == a;
    assert OccursAt(a + b, a, 0);
    assert (a + b)[|a|..|a| + |b|] == b;
    assert OccursAt(a + b, b, |a|);
  }

  /** Containment is transitive. */
  lemma ContainsTrans(a: string, b: string, c: string)
    requires Contains(a, b) && Contains(b, c)
    ensures Contains(a, c)
  {
    var i :| 0 <= i <= |a| - |b| && OccursAt(a, b, i);
    var j :| 0 <= j <= |b| - |c| && OccursAt(b, c, j);
    forall k | 0 <= k < |c|
      ensures a[i + j..i + j + |c|][k] == c[k]
    {
      assert a[i..i + |b|][j + k] == b[j + k];
      assert b[j..j + |c|][k] == c[k];
    }
    assert a[i + j..i + j + |c|] == c;
    assert OccursAt(a, c, i + j);
  }

  /** Python's `s.count(c)` for a one-character `c`. */
  function CountChar(s: string, c: char): nat
  {
    multiset(s)[c]
  }

  // ---------------------------------------------------------------- split and join

  /** Python's `s.split(sep)` for a non-empty `sep`: the text is scanned left to right and cut at
      every occurrence of `sep` that does not overlap an earlier cut. */
  function Split(s: string, sep: string): (r: seq<string>)
    requires |sep| > 0
    ensures |r| >= 1
    decreases |s|
  {
    if |s| < |sep| then [s]
    else if s[..|sep|] == sep then [""] + Split(s[|sep|..], sep)
    else
      var t := Split(s[1..], sep);
      [[s[0]] + t[0]] + t[1..]
  }

  /** Python's `sep.join(parts)`. */
  function Join(parts: seq<string>, sep: string): string
    decreases |parts|
  {
    if |parts| == 0 then ""
    else if |parts| == 1 then parts[0]
    else parts[0] + sep + Join(parts[1..], sep)
  }

  /** What `Join` puts after the first part. */
  function JoinTail(rest: seq<string>, sep: string): string
  {
    if rest == [] then "" else sep + Join(rest, sep)
  }

  lemma JoinFirst(parts: seq<string>, sep: string)
    requires |parts| >= 1
    ensures Join(parts, sep) == parts[0] + JoinTail(parts[1..], sep)
  {
  }

  /** Every part appears in the joined text. */
  lemma {:induction false} JoinContainsPart(parts: seq<string>, sep: string, i: nat)
    requires i < |parts|
    ensures Contains(Join(parts, sep), parts[i])
    decreases |parts|
  {
    if |parts| == 1 {
      ContainsHalves(parts[0], "");
      assert parts[0] + "" == parts[0];
    } else {
      var rest := Join(parts[1..], sep);
      assert Join(parts, sep) == (parts[0] + sep) + rest;
      ContainsHalves(parts[0] + sep, rest);
      if i == 0 {
        ContainsHalves(parts[0], sep);
        ContainsTrans(Join(parts, sep), parts[0] + sep, parts[0]);
      } else {
        JoinContainsPart(parts[1..], sep, i - 1);
        ContainsTrans(Join(parts, sep), rest, parts[i]);
      }
    }
  }

  /** Joining one more part appends the separator and that part. */
  lemma {:induction false} JoinSnoc(parts: seq<string>, p: string, sep: string)
    ensures Join(parts + [p], sep) == if parts == [] then p else Join(parts, sep) + sep + p
    decreases |parts|
  {
    if |parts| == 1 {
      assert (parts + [p])[1..] == [p];
    } else if |parts| > 1 {
      assert (parts + [p])[1..] == parts[1..] + [p];
      JoinSnoc(parts[1..], p, sep);
    }
  }

  /** The last element, Python's `parts[-1]`. */
  function Last(parts: seq<string>): string
    requires |parts| >= 1
  {
    parts[|parts| - 1]
  }

  /** The last part ends the joined text and, when there are several parts, follows a separator. */
  lemma JoinLast(parts: seq<string>, sep: string)
    requires |parts| >= 1
    ensures |Last(parts)| <= |Join(parts, sep)|
    ensures Join(parts, sep)[|Join(parts, sep)| - |Last(parts)|..] == Last(parts)
    ensures |parts| > 1 ==>
              |Last(parts)| + |sep| <= |Join(parts, sep)|
              && Join(parts, sep)[|Join(parts, sep)| - |Last(parts)| - |sep|..|Join(parts, sep)| - |Last(parts)|] == sep
  {
    var init := parts[..|parts| - 1];
    assert parts == init + [Last(parts)];
    JoinSnoc(init, Last(parts), sep);
    if |parts| > 1 {
      var j := Join(init, sep) + sep + Last(parts);
      assert j[|j| - |Last(parts)|..] == Last(parts);
      assert j[|j| - |Last(parts)| - |sep|..|j| - |Last(parts)|] == sep;
    }
  }

  /** Joining the pieces with the separator gives back the text. */
  lemma {:induction false} SplitJoin(s: string, sep: string)
    requires |sep| > 0
    ensures Join(Split(s, sep), sep) == s
    decreases |s|
  {
    if |s| < |sep| {
    } else if s[..|sep|] == sep {
      var t := Split(s[|sep|..], sep);
      SplitJoin(s[|sep|..], sep);
      JoinEmptyHead(t, sep);
      assert s == sep + s[|sep|..];
    } else {
      var t := Split(s[1..], sep);
      SplitJoin(s[1..], sep);
      JoinMergeHead(s[0], t, sep);
      assert s == [s[0]] + s[1..];
    }
  }

  /** An empty first part contributes only the separator before the rest. */
  lemma JoinEmptyHead(t: seq<string>, sep: string)
    requires |t| >= 1
    ensures Join([""] + t, sep) == sep + Join(t, sep)
  {
    assert ([""] + t)[1..] == t;
  }

  /** A character put in front of the first part is put in front of the joined text. */
  lemma JoinMergeHead(c: char, t: seq<string>, sep: string)
    requires |t| >= 1
    ensures Join([[c] + t[0]] + t[1..], sep) == [c] + Join(t, sep)
  {
    var r := [[c] + t[0]] + t[1..];
    JoinFirst(r, sep);
    JoinFirst(t, sep);
    assert r[1..] == t[1..];
  }

  /** The first piece is a prefix of the text. */
  lemma SplitFirstIsPrefix(s: string, sep: string)
    requires |sep| > 0
    ensures |Split(s, sep)[0]| <= |s| && s[..|Split(s, sep)[0]|] == Split(s, sep)[0]
  {
    var r := Split(s, sep);
    SplitJoin(s, sep);
    JoinFirst(r, sep);
  }

  /** No piece contains the separator. */
  lemma {:induction false} SplitPiecesFree(s: string, sep: string)
    requires |sep| > 0
    ensures forall k :: 0 <= k < |Split(s, sep)| ==> !Contains(Split(s, sep)[k], sep)
    decreases |s|
  {
    var r := Split(s, sep);
    if |s| < |sep| {
    } else if s[..|sep|] == sep {
      SplitPiecesFree(s[|sep|..], sep);
      assert forall k :: 1 <= k < |r| ==> r[k] == Split(s[|sep|..], sep)[k - 1];
    } else {
      var t := Split(s[1..], sep);
      SplitPiecesFree(s[1..], sep);
      SplitFirstIsPrefix(s[1..], sep);
      MergedHeadFree(s, sep, t[0]);
      assert forall k :: 1 <= k < |r| ==> r[k] == t[k];
    }
  }

  /** When `s` does not start with `sep`, putting its first character before a prefix of the
      rest that is free of `sep` gives a text free of `sep`. */
  lemma MergedHeadFree(s: string, sep: string, t0: string)
    requires |sep| > 0 && |s| >= |sep| && s[..|sep|] != sep
    requires |t0| <= |s| - 1 && s[1..][..|t0|] == t0 && !Contains(t0, sep)
    ensures !Contains([s[0]] + t0, sep)
  {
    var p := [s[0]] + t0;
    assert p == s[..1 + |t0|];
    forall i | 0 <= i <= |p| - |sep| && OccursAt(p, sep, i)
      ensures false
    {
      if i > 0 {
        assert t0[i - 1..i - 1 + |sep|] == p[i..i + |sep|];
        assert OccursAt(t0, sep, i - 1);
      }
    }
  }

  /** A text that does not contain the separator is one piece. */
  lemma {:induction false} SplitAbsent(s: string, sep: string)
    requires |sep| > 0 && !Contains(s, sep)
    ensures Split(s, sep) == [s]
    decreases |s|
  {
    if |s| < |sep| {
    } else {
      assert !OccursAt(s, sep, 0);
      forall i | 0 <= i <= |s[1..]| - |sep| && OccursAt(s[1..], sep, i)
        ensures false
      {
        assert s[1..][i..i + |sep|] == s[i + 1..i + 1 + |sep|];
        assert OccursAt(s, sep, i + 1);
      }
      SplitAbsent(s[1..], sep);
      assert s == [s[0]] + s[1..];
    }
  }

  /** Index of the first `c` in `s`, or `|s|` when there is none: an independent account of where
      a one-character split makes its first cut. */
  function FirstIndex(s: string, c: char): (r: nat)
    ensures r <= |s|
    ensures forall k :: 0 <= k < r ==> s[k] != c
    ensures r < |s| ==> s[r] == c
    decreases |s|
  {
    if |s| == 0 then 0 else if s[0] == c then 0 else 1 + FirstIndex(s[1..], c)
  }

  /** Splitting at a one-character separator: the first piece runs up to the first `c`; there is a
      second piece exactly when `c` occurs; the remaining pieces are those of the text after it. */
  lemma {:induction false} SplitCharFirst(s: string, c: char)
    ensures Split(s, [c])[0] == s[..FirstIndex(s, c)]
    ensures |Split(s, [c])| > 1 <==> c in s
    ensures c in s ==> Split(s, [c])[1..] == Split(s[FirstIndex(s, c) + 1..], [c])
    decreases |s|
  {
    if |s| < 1 {
    } else if s[..1] == [c] {
      assert s[0] == c;
    } else {
      assert s[0] != c;
      SplitCharFirst(s[1..], c);
      var t := Split(s[1..], [c]);
      var f := FirstIndex(s[1..], c);
      assert FirstIndex(s, c) == 1 + f;
      assert [s[0]] + s[1..][..f] == s[..1 + f];
      assert c in s <==> c in s[1..];
      if c in s[1..] {
        assert s[1..][f + 1..] == s[f + 2..];
      }
    }
  }

  /** A one-character separator at the very end leaves an empty last piece. */
  lemma {:induction false} SplitCharAppend(s: string, c: char)
    ensures Split(s + [c], [c]) == Split(s, [c]) + [""]
    decreases |s|
  {
    if s == [] {
      assert ([c])[..1] == [c];
      assert ([c])[1..] == [];
    } else {
      assert (s + [c])[1..] == s[1..] + [c];
      assert (s + [c])[..1] == s[..1];
      SplitCharAppend(s[1..], c);
      if s[..1] != [c] {
        assert |s| >= 1 && |s + [c]| >= 1;
      }
    }
  }

  // ---------------------------------------------------------------- replace

  /** Python's `s.replace(pattern, repl)` for a non-empty `pattern`: the same left-to-right,
      non-overlapping scan as `split`. */
  function Replace(s: string, pattern: string, repl: string): string
    requires |pattern| > 0
    decreases |s|
  {
    if |s| < |pattern| then s
    else if s[..|pattern|] == pattern then repl + Replace(s[|pattern|..], pattern, repl)
    else [s[0]] + Replace(s[1..], pattern, repl)
  }

  /** A text that starts with `pattern` has that occurrence replaced first. */
  lemma ReplaceAtHead(pattern: string, t: string, repl: string)
    requires |pattern| > 0
    ensures Replace(pattern + t, pattern, repl) == repl + Replace(t, pattern, repl)
  {
    assert (pattern + t)[..|pattern|] == pattern;
    assert (pattern + t)[|pattern|..] == t;
  }

  /** A first character that does not start an occurrence of `pattern` is kept. */
  lemma ReplaceKeepsHead(x: char, t: string, pattern: string, repl: string)
    requires |pattern| > 0
    requires |pattern| <= |[x] + t| ==> ([x] + t)[..|pattern|] != pattern
    ensures Replace([x] + t, pattern, repl) == [x] + Replace(t, pattern, repl)
  {
    assert ([x] + t)[1..] == t;
  }

  /** Replacing a one-character `pattern` works character by character. */
  lemma ReplaceCharCons(x: char, s: string, c: char, repl: string)
    ensures Replace([x] + s, [c], repl) == (if x == c then repl else [x]) + Replace(s, [c], repl)
  {
    assert ([x] + s)[..1] == [x];
    assert ([x] + s)[1..] == s;
  }

  /** Removing a character (`s.replace(c, "")`) leaves every other character, in order, and no `c`. */
  lemma {:induction false} RemoveChar(s: string, c: char)
    ensures c !in Replace(s, [c], "")
    ensures multiset(Replace(s, [c], "")) == multiset(s)[c := 0]
    ensures IsSubsequence(Replace(s, [c], ""), s)
    decreases |s|
  {
    if s != [] {
      RemoveChar(s[1..], c);
      ReplaceCharCons(s[0], s[1..], c, "");
      assert s == [s[0]] + s[1..];
      var r := Replace(s[1..], [c], "");
      if s[0] != c {
        assert ([s[0]] + r)[1..] == r;
        assert IsSubsequence([s[0]] + r, s);
      } else {
        assert Replace(s, [c], "") == r;
        assert IsSubsequence(r, s[1..]);
      }
    }
  }

  // ---------------------------------------------------------------- subsequences

  lemma SeqEmptyLeft<T>(x: seq<T>)
    ensures [] + x == x
  {
  }

  lemma SeqEmptyRight<T>(x: seq<T>)
    ensures x + [] == x
  {
  }

  lemma SeqAssoc<T>(x: seq<T>, y: seq<T>, z: seq<T>)
    ensures x + (y + z) == (x + y) + z
  {
  }

  lemma SeqCons<T>(xs: seq<T>)
    requires xs != []
    ensures [xs[0]] + xs[1..] == xs
  {
  }

  /** `a` is `b` with some elements left out, the rest in their order. */
  ghost predicate IsSubsequence<T>(a: seq<T>, b: seq<T>)
    decreases |b|
  {
    a == [] || (b != [] && ((a[0] == b[0] && IsSubsequence(a[1..], b[1..])) || IsSubsequence(a, b[1..])))
  }

  // ---------------------------------------------------------------- slicing

  /** Python's normalisation of a slice bound: a negative bound counts from the end, and the
      result is clamped to `0..len`. */
  function SliceIndex(i: int, len: nat): (r: nat)
    ensures r <= len
  {
    if i < 0 then (if i + len < 0 then 0 else i + len)
    else if i > len then len
    else i
  }

  /** Python's `s[start:stop]`. */
  function PySlice<T>(s: seq<T>, start: int, stop: int): seq<T>
  {
    var lo := SliceIndex(start, |s|);
    var hi := SliceIndex(stop, |s|);
    if lo < hi then s[lo..hi] else []
  }

  // ---------------------------------------------------------------- decimal integers

  function DigitChar(d: nat): char
    requires d < 10
  {
    (('0' as int) + d) as char
  }

  /** Python's `str(n)` for a natural number: decimal digits, no leading zero. */
  function NatToString(n: nat): (r: string)
    ensures |r| >= 1
    ensures forall i :: 0 <= i < |r| ==> '0' <= r[i] <= '9'
    ensures |r| > 1 ==> r[0] != '0'
    decreases n
  {
    if n < 10 then [DigitChar(n)] else NatToString(n / 10) + [DigitChar(n % 10)]
  }

  /** Reading decimal digits back: the reference `int(s)`. */
  function ParseDigits(s: string): int
    decreases |s|
  {
    if s == [] then 0 else ParseDigits(s[..|s| - 1]) * 10 + (s[|s| - 1] as int - '0' as int)
  }

  /** The decimal text of `n` reads back as `n`, so distinct numbers print differently. */
  lemma {:induction false} NatToStringRoundTrip(n: nat)
    ensures ParseDigits(NatToString(n)) == n
    decreases n
  {
    if n >= 10 {
      NatToStringRoundTrip(n / 10);
      var r := NatToString(n);
      assert r[..|r| - 1] == NatToString(n / 10);
    }
  }

  // ---------------------------------------------------------------- text files of lines

  /** A line terminator once Python's universal-newline reading is applied. */
  predicate IsLineBreak(c: char) { c == '\n' || c == '\r' }

  /** The pieces of `text` between line terminators (a `\r\n` pair yields an extra empty piece,
      which the readers below drop like any blank line). */
  function Lines(text: string): (r: seq<string>)
    ensures |r| >= 1
    decreases |text|
  {
    if text == [] then [""]
    else if IsLineBreak(text[0]) then [""] + Lines(text[1..])
    else
      var t := Lines(text[1..]);
      [[text[0]] + t[0]] + t[1..]
  }

  /** A line with no line terminator followed by `\n` is read as itself. */
  lemma {:induction false} LinesCons(u: string, rest: string)
    requires forall k :: 0 <= k < |u| ==> !IsLineBreak(u[k])
    ensures Lines(u + "\n" + rest) == [u] + Lines(rest)
    decreases |u|
  {
    if u == [] {
      assert ("\n" + rest)[1..] == rest;
    } else {
      assert (u + "\n" + rest)[1..] == u[1..] + "\n" + rest;
      LinesCons(u[1..], rest);
      assert [u[0]] + u[1..] == u;
    }
  }

  /** `[x.strip() for x in xs if x.strip()]`: every element is non-blank and stripped. */
  function KeepStrippedNonBlank(xs: seq<string>): (r: seq<string>)
    ensures |r| <= |xs|
    ensures forall k :: 0 <= k < |r| ==> r[k] != "" && NoEdgeSpace(r[k])
    decreases |xs|
  {
    if xs == [] then [] else KeptLine(xs[0]) + KeepStrippedNonBlank(xs[1..])
  }

  /** What one line contributes: its stripped text, unless that is blank. */
  function KeptLine(x: string): (r: seq<string>)
    ensures |r| <= 1
    ensures forall k :: 0 <= k < |r| ==> r[k] != "" && NoEdgeSpace(r[k])
  {
    if Strip(x) != "" then [Strip(x)] else []
  }

  /** Keeping stripped non-blank lines commutes with concatenating the lists. */
  lemma {:induction false} KeepStrippedNonBlankAppend(a: seq<string>, b: seq<string>)
    ensures KeepStrippedNonBlank(a + b) == KeepStrippedNonBlank(a) + KeepStrippedNonBlank(b)
    decreases |a|
  {
    if a != [] {
      assert (a + b)[0] == a[0];
      assert (a + b)[1..] == a[1..] + b;
      KeepStrippedNonBlankAppend(a[1..], b);
      assert KeepStrippedNonBlank(a + b) == KeptLine(a[0]) + KeepStrippedNonBlank(a[1..] + b);
      assert KeepStrippedNonBlank(a) == KeptLine(a[0]) + KeepStrippedNonBlank(a[1..]);
      SeqAssoc(KeptLine(a[0]), KeepStrippedNonBlank(a[1..]), KeepStrippedNonBlank(b));
    } else {
      SeqEmptyLeft(b);
      SeqEmptyLeft(KeepStrippedNonBlank(b));
    }
  }

  /** What is kept is exactly the non-blank stripped lines. */
  lemma {:induction false} KeepStrippedNonBlankMembers(xs: seq<string>, s: string)
    ensures s in KeepStrippedNonBlank(xs) <==> s != "" && exists k :: 0 <= k < |xs| && Strip(xs[k]) == s
    decreases |xs|
  {
    if xs != [] {
      var rest := xs[1..];
      KeepStrippedNonBlankMembers(rest, s);
      assert KeepStrippedNonBlank(xs) == KeptLine(xs[0]) + KeepStrippedNonBlank(rest);
      if exists k :: 0 <= k < |xs| && Strip(xs[k]) == s {
        var k :| 0 <= k < |xs| && Strip(xs[k]) == s;
        if k > 0 {
          assert rest[k - 1] == xs[k];
        }
      }
      if exists k :: 0 <= k < |rest| && Strip(rest[k]) == s {
        var k :| 0 <= k < |rest| && Strip(rest[k]) == s;
        assert xs[k + 1] == rest[k];
      }
    }
  }

  /** An empty last line, as after a final line feed, is dropped. */
  lemma KeepStrippedNonBlankBlankLast(xs: seq<string>)
    ensures KeepStrippedNonBlank(xs + [""]) == KeepStrippedNonBlank(xs)
  {
    KeepStrippedNonBlankAppend(xs, [""]);
    StripNoEdgeSpace("");
    assert KeptLine("") == [];
    assert [""][1..] == [];
    assert KeepStrippedNonBlank([""]) == [];
    SeqEmptyRight(KeepStrippedNonBlank(xs));
  }

  /** A list of lines that are already non-blank and stripped is kept as it is. */
  lemma {:induction false} KeepStrippedNonBlankIdentity(xs: seq<string>)
    requires forall k :: 0 <= k < |xs| ==> xs[k] != "" && NoEdgeSpace(xs[k])
    ensures KeepStrippedNonBlank(xs) == xs
    decreases |xs|
  {
    if xs != [] {
      KeepStrippedNonBlankIdentity(xs[1..]);
      StripNoEdgeSpace(xs[0]);
      assert KeptLine(xs[0]) == [xs[0]];
      assert KeepStrippedNonBlank(xs) == [xs[0]] + xs[1..];
      SeqCons(xs);
    }
  }

  /** `[line.strip() for line in f if line.strip()]` over the contents `text` of file `f`. */
  function ReadStrippedLines(text: string): (r: seq<string>)
    ensures forall k :: 0 <= k < |r| ==> r[k] != "" && NoEdgeSpace(r[k])
  {
    KeepStrippedNonBlank(Lines(text))
  }
}
