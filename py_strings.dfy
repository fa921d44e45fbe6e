/** Python's string and sequence primitives, as the modelled code uses them:
    `str.split()`, `str.split(c)`, `sep.join(...)`, `str.strip()`, `s.replace(c, "")`,
    indexing with negative indices and slicing `s[a:b]`. */
module PyStrings {
  import opened Outcomes

  /** Space, tab, newline, carriage return, vertical tab and form feed: the whitespace of
      `str.split()` and `str.strip()` on the inputs the model handles (\x1c-\x1f and the
      Unicode spaces are left out). */
  predicate IsSpace(c: char) {
    c == ' ' || c == '\t' || c == '\n' || c == '\r' || c as int == 11 || c as int == 12
  }

  predicate NoSpace(s: string) {
    forall i :: 0 <= i < |s| ==> !IsSpace(s[i])
  }

  predicate NoChar(s: string, c: char) {
    forall i :: 0 <= i < |s| ==> s[i] != c
  }

  /** Number of occurrences of c in s. */
  function Count(s: string, c: char): nat {
    if s == [] then 0 else (if s[0] == c then 1 else 0) + Count(s[1..], c)
  }

  lemma {:induction false} CountZero(s: string, c: char)
    ensures Count(s, c) == 0 <==> NoChar(s, c)
  {
    if s != [] {
      CountZero(s[1..], c);
      assert forall i :: 1 <= i < |s| ==> s[i] == s[1..][i - 1];
    }
  }

  lemma {:induction false} CountAppend(a: string, b: string, c: char)
    ensures Count(a + b, c) == Count(a, c) + Count(b, c)
  {
    if a == [] {
      assert a + b == b;
    } else {
      assert (a + b)[1..] == a[1..] + b;
      CountAppend(a[1..], b, c);
    }
  }

  // ---------------------------------------------------------------------------
  // str.split() and sep.join(parts)
  // ---------------------------------------------------------------------------

  /** Length of the leading run of non-whitespace characters of s. */
  function TokenLen(s: string): (n: nat)
    ensures n <= |s|
    ensures forall i :: 0 <= i < n ==> !IsSpace(s[i])
    ensures n < |s| ==> IsSpace(s[n])
  {
    if s == [] || IsSpace(s[0]) then 0 else 1 + TokenLen(s[1..])
  }

  /** `s.split()`: the maximal runs of non-whitespace characters of s, in order. */
  function Words(s: string): (r: seq<string>)
    decreases |s|
  {
    if s == [] then []
    else if IsSpace(s[0]) then Words(s[1..])
    else
      var k := TokenLen(s);
      [s[..k]] + Words(s[k..])
  }

  /** Every word is non-empty and holds no whitespace. */
  lemma {:induction false} WordsShape(s: string)
    ensures forall i :: 0 <= i < |Words(s)| ==> Words(s)[i] != [] && NoSpace(Words(s)[i])
    decreases |s|
  {
    if s == [] {
    } else if IsSpace(s[0]) {
      WordsShape(s[1..]);
    } else {
      var k := TokenLen(s);
      WordsShape(s[k..]);
      assert Words(s) == [s[..k]] + Words(s[k..]);
    }
  }

  /** A string with no whitespace at all is a single word (or none, when empty). */
  lemma {:induction false} WordsOfToken(w: string)
    requires NoSpace(w)
    ensures Words(w) == if w == [] then [] else [w]
  {
    if w != [] {
      TokenLenAll(w);
      assert w[|w|..] == [];
      assert w[..|w|] == w;
    }
  }

  lemma {:induction false} TokenLenAll(w: string)
    requires NoSpace(w)
    ensures TokenLen(w) == |w|
  {
    if w != [] {
      assert NoSpace(w[1..]) by {
        forall i | 0 <= i < |w[1..]| ensures !IsSpace(w[1..][i]) {
          assert w[1..][i] == w[i + 1];
        }
      }
      TokenLenAll(w[1..]);
    }
  }

  /** A token followed by whitespace and then the rest splits as the token and the words of the rest. */
  lemma {:induction false} WordsTokenThenSpace(w: string, sp: char, rest: string)
    requires w != [] && NoSpace(w) && IsSpace(sp)
    ensures Words(w + [sp] + rest) == [w] + Words(rest)
  {
    var s := w + [sp] + rest;
    TokenLenPrefix(w, [sp] + rest);
    assert s == w + ([sp] + rest);
    assert s[..|w|] == w;
    assert s[|w|..] == [sp] + rest;
    assert ([sp] + rest)[1..] == rest;
  }

  lemma {:induction false} TokenLenPrefix(w: string, tail: string)
    requires NoSpace(w)
    requires tail == [] || IsSpace(tail[0])
    ensures TokenLen(w + tail) == |w|
  {
    if w == [] {
      assert w + tail == tail;
    } else {
      assert (w + tail)[1..] == w[1..] + tail;
      assert NoSpace(w[1..]) by {
        forall i | 0 <= i < |w[1..]| ensures !IsSpace(w[1..][i]) {
          assert w[1..][i] == w[i + 1];
        }
      }
      TokenLenPrefix(w[1..], tail);
    }
  }

  /** `sep.join(parts)`. */
  function Join(parts: seq<string>, sep: string): string {
    if parts == [] then ""
    else if |parts| == 1 then parts[0]
    else parts[0] + sep + Join(parts[1..], sep)
  }

  lemma {:induction false} JoinLength(parts: seq<string>, sep: string)
    requires parts != []
    ensures |Join(parts, sep)| == SumLengths(parts) + (|parts| - 1) * |sep|
  {
    if |parts| > 1 {
      JoinLength(parts[1..], sep);
    }
  }

  function SumLengths(parts: seq<string>): nat {
    if parts == [] then 0 else |parts[0]| + SumLengths(parts[1..])
  }

  // ---------------------------------------------------------------------------
  // str.split(c) for a one-character separator
  // ---------------------------------------------------------------------------

  /** `s.split(c)`: the pieces of s between the occurrences of c. */
  function SplitOn(s: string, c: char): (r: seq<string>)
    ensures |r| >= 1
  {
    if s == [] then [""]
    else if s[0] == c then [""] + SplitOn(s[1..], c)
    else
      var rest := SplitOn(s[1..], c);
      [[s[0]] + rest[0]] + rest[1..]
  }

  /** There is one more piece than there are separators, no piece holds the separator, and
      joining the pieces back with the separator gives the original string. */
  lemma {:induction false} SplitOnJoin(s: string, c: char)
    ensures |SplitOn(s, c)| == Count(s, c) + 1
    ensures forall i :: 0 <= i < |SplitOn(s, c)| ==> NoChar(SplitOn(s, c)[i], c)
    ensures Join(SplitOn(s, c), [c]) == s
  {
    SplitOnCount(s, c);
    SplitOnPieces(s, c);
    SplitOnJoinBack(s, c);
  }

  lemma {:induction false} SplitOnCount(s: string, c: char)
    ensures |SplitOn(s, c)| == Count(s, c) + 1
  {
    if s != [] {
      SplitOnCount(s[1..], c);
    }
  }

  lemma {:induction false} SplitOnPieces(s: string, c: char)
    ensures forall i :: 0 <= i < |SplitOn(s, c)| ==> NoChar(SplitOn(s, c)[i], c)
  {
    if s != [] {
      SplitOnPieces(s[1..], c);
      var rest := SplitOn(s[1..], c);
      if s[0] == c {
        assert SplitOn(s, c) == [""] + rest;
      } else {
        var r := [[s[0]] + rest[0]] + rest[1..];
        assert SplitOn(s, c) == r;
        assert forall i :: 1 <= i < |r| ==> r[i] == rest[i];
        assert NoChar(r[0], c) by {
          forall i | 0 <= i < |r[0]| ensures r[0][i] != c {
            if i > 0 { assert r[0][i] == rest[0][i - 1]; }
          }
        }
      }
    }
  }

  lemma {:induction false} SplitOnJoinBack(s: string, c: char)
    ensures Join(SplitOn(s, c), [c]) == s
  {
    if s != [] {
      SplitOnJoinBack(s[1..], c);
      var rest := SplitOn(s[1..], c);
      assert s == [s[0]] + s[1..];
      if s[0] == c {
        assert SplitOn(s, c) == [""] + rest;
        assert ([""] + rest)[1..] == rest;
        assert Join(SplitOn(s, c), [c]) == "" + [c] + Join(rest, [c]);
      } else {
        assert SplitOn(s, c) == [[s[0]] + rest[0]] + rest[1..];
        assert rest == [rest[0]] + rest[1..];
        JoinConsHead(s[0], rest[0], rest[1..], [c]);
      }
    }
  }

  /** A character in front of the first part comes out in front of the join. */
  lemma JoinConsHead(x: char, p: string, q: seq<string>, sep: string)
    ensures Join([[x] + p] + q, sep) == [x] + Join([p] + q, sep)
  {
    var a := [[x] + p] + q;
    var b := [p] + q;
    if q != [] {
      assert a[1..] == q && b[1..] == q;
      assert Join(a, sep) == ([x] + p) + sep + Join(q, sep);
      assert Join(b, sep) == p + sep + Join(q, sep);
    }
  }

  /** Splitting a string with no separator in it gives the string itself. */
  lemma {:induction false} SplitOnNone(s: string, c: char)
    requires NoChar(s, c)
    ensures SplitOn(s, c) == [s]
  {
    if s != [] {
      assert NoChar(s[1..], c) by {
        forall i | 0 <= i < |s[1..]| ensures s[1..][i] != c { assert s[1..][i] == s[i + 1]; }
      }
      SplitOnNone(s[1..], c);
      assert [s[0]] + s[1..] == s;
    }
  }

  /** Splitting a string with exactly one separator gives the text before and the text after it. */
  lemma {:induction false} SplitOnOne(a: string, b: string, c: char)
    requires NoChar(a, c) && NoChar(b, c)
    ensures SplitOn(a + [c] + b, c) == [a, b]
  {
    if a == [] {
      assert a + [c] + b == [c] + b;
      assert ([c] + b)[1..] == b;
      SplitOnNone(b, c);
    } else {
      assert (a + [c] + b)[1..] == a[1..] + [c] + b;
      assert NoChar(a[1..], c) by {
        forall i | 0 <= i < |a[1..]| ensures a[1..][i] != c { assert a[1..][i] == a[i + 1]; }
      }
      SplitOnOne(a[1..], b, c);
      assert [a[0]] + a[1..] == a;
    }
  }

  // ---------------------------------------------------------------------------
  // strip, strip(chars), replace(c, "")
  // ---------------------------------------------------------------------------

  /** `s.lstrip(chars)`: drops the leading characters that are in chars. */
  function LStripChars(s: string, chars: set<char>): (r: string)
    ensures |r| <= |s| && r == s[|s| - |r|..]
    ensures r == [] || r[0] !in chars
  {
    if s != [] && s[0] in chars then LStripChars(s[1..], chars) else s
  }

  /** `s.rstrip(chars)`: drops the trailing characters that are in chars. */
  function RStripChars(s: string, chars: set<char>): (r: string)
    ensures |r| <= |s| && r == s[..|r|]
    ensures r == [] || r[|r| - 1] !in chars
  {
    if s != [] && s[|s| - 1] in chars then RStripChars(s[..|s| - 1], chars) else s
  }

  /** `s.strip(chars)`. */
  function StripChars(s: string, chars: set<char>): string {
    RStripChars(LStripChars(s, chars), chars)
  }

  /** `s.strip()`: drops leading and trailing whitespace. */
  function Strip(s: string): string {
    StripWsRight(StripWsLeft(s))
  }

  function StripWsLeft(s: string): (r: string)
    ensures |r| <= |s|
  {
    if s != [] && IsSpace(s[0]) then StripWsLeft(s[1..]) else s
  }

  function StripWsRight(s: string): (r: string)
    ensures |r| <= |s|
  {
    if s != [] && IsSpace(s[|s| - 1]) then StripWsRight(s[..|s| - 1]) else s
  }

  /** Strip leaves a string alone whose first and last characters are not whitespace. */
  lemma StripNoEdgeSpace(s: string)
    requires s == [] || (!IsSpace(s[0]) && !IsSpace(s[|s| - 1]))
    ensures Strip(s) == s
  {
  }

  /** `s.replace(c, "")` for a one-character c. */
  function RemoveChar(s: string, c: char): (r: string)
    ensures NoChar(r, c)
  {
    if s == [] then []
    else if s[0] == c then RemoveChar(s[1..], c)
    else [s[0]] + RemoveChar(s[1..], c)
  }

  lemma {:induction false} RemoveCharAppend(a: string, b: string, c: char)
    ensures RemoveChar(a + b, c) == RemoveChar(a, c) + RemoveChar(b, c)
  {
    if a == [] {
      assert a + b == b;
    } else {
      assert (a + b)[0] == a[0];
      assert (a + b)[1..] == a[1..] + b;
      RemoveCharAppend(a[1..], b, c);
    }
  }

  lemma {:induction false} RemoveCharNone(s: string, c: char)
    requires NoChar(s, c)
    ensures RemoveChar(s, c) == s
  {
    if s != [] {
      assert NoChar(s[1..], c) by {
        forall i | 0 <= i < |s[1..]| ensures s[1..][i] != c { assert s[1..][i] == s[i + 1]; }
      }
      RemoveCharNone(s[1..], c);
      assert [s[0]] + s[1..] == s;
    }
  }

  // ---------------------------------------------------------------------------
  // Indexing and slicing
  // ---------------------------------------------------------------------------

  /** The position that `xs[i]` reads in a list of length n, where a negative i counts
      from the end; None where Python raises IndexError. */
  function PyIndex(i: int, n: nat): (r: Option<nat>)
    ensures r.Some? <==> -(n as int) <= i < n
    ensures r.Some? ==> r.value < n && (r.value == i || r.value == i + n)
  {
    if 0 <= i < n then Some(i) else if -(n as int) <= i < 0 then Some(i + n) else None
  }

  /** Where a slice bound lands in a sequence of length n: None is the default, a negative
      bound counts from the end, and the result is clamped to 0..n. */
  function SliceBound(b: Option<int>, n: nat, default: nat): (r: nat)
    requires default <= n
    ensures r <= n
  {
    match b
    case None => default
    case Some(k) => if k < 0 then (if k + n < 0 then 0 else k + n) else if k > n then n else k
  }

  /** `s[start:stop]`, where None stands for an omitted bound. */
  function PySlice<T>(s: seq<T>, start: Option<int>, stop: Option<int>): (r: seq<T>)
    ensures |r| <= |s|
  {
    var lo := SliceBound(start, |s|, 0);
    var hi := SliceBound(stop, |s|, |s|);
    if lo < hi then s[lo..hi] else []
  }

  /** With both bounds omitted the slice is the whole sequence; with in-range bounds it is
      the ordinary subsequence; a negative start takes that many elements from the end. */
  lemma PySliceFacts<T>(s: seq<T>, a: int, b: int, k: nat)
    ensures PySlice(s, None, None) == s
    ensures 0 <= a <= b <= |s| ==> PySlice(s, Some(a), Some(b)) == s[a..b]
    ensures 0 < k <= |s| ==> PySlice(s, Some(-(k as int)), None) == s[|s| - k..]
    ensures 0 <= b <= a ==> PySlice(s, Some(a), Some(b)) == []
  {
  }
}
