/** The string operations the core applies to tickers and timestamps:
    `str.upper()`, `str.strip()` and `str.replace('Z', '+00:00')`. */
module Strings {

  /** The characters for which Python's `str.isspace()` holds; `str.strip()`
      with no argument removes exactly these. */
  predicate IsSpace(c: char) {
    ('\t' <= c <= '\r') || ('\U{1c}' <= c <= ' ')
    || c == '\U{85}' || c == '\U{a0}' || c == '\U{1680}'
    || ('\U{2000}' <= c <= '\U{200a}') || c == '\U{2028}' || c == '\U{2029}'
    || c == '\U{202f}' || c == '\U{205f}' || c == '\U{3000}'
  }

  predicate AllSpace(s: string) {
    forall k :: 0 <= k < |s| ==> IsSpace(s[k])
  }

  function UpperChar(c: char): (u: char)
    ensures !('a' <= u <= 'z')
    ensures !('a' <= c <= 'z') ==> u == c
  {
    if 'a' <= c <= 'z' then (c as int - 32) as char else c
  }

  /** Upper-casing neither makes nor removes whitespace. */
  lemma UpperCharSpace(c: char)
    ensures IsSpace(UpperChar(c)) <==> IsSpace(c)
  {
  }

  /** `s.upper()` on the ASCII letters. */
  function Upper(s: string): (r: string)
    ensures |r| == |s|
    ensures forall k :: 0 <= k < |s| ==> r[k] == UpperChar(s[k])
  {
    if s == [] then [] else [UpperChar(s[0])] + Upper(s[1..])
  }

  /** How many whitespace characters `s` starts with. */
  function StripStart(s: string): (i: nat)
    ensures i <= |s|
  {
    if |s| > 0 && IsSpace(s[0]) then 1 + StripStart(s[1..]) else 0
  }

  /** The characters before `StripStart(s)` are whitespace, the one at it
      is not. */
  lemma {:induction false} StripStartSpec(s: string)
    ensures AllSpace(s[..StripStart(s)])
    ensures StripStart(s) == |s| || !IsSpace(s[StripStart(s)])
  {
    if |s| > 0 && IsSpace(s[0]) {
      StripStartSpec(s[1..]);
      var i := StripStart(s);
      assert forall k :: 1 <= k < i ==> s[..i][k] == s[1..][..i - 1][k - 1];
    }
  }

  /** Where the trailing whitespace of `s` begins. */
  function StripEnd(s: string): (j: nat)
    ensures j <= |s|
  {
    if |s| > 0 && IsSpace(s[|s| - 1]) then StripEnd(s[..|s| - 1]) else |s|
  }

  /** The characters from `StripEnd(s)` on are whitespace, the one before
      it is not. */
  lemma {:induction false} StripEndSpec(s: string)
    ensures AllSpace(s[StripEnd(s)..])
    ensures StripEnd(s) == 0 || !IsSpace(s[StripEnd(s) - 1])
  {
    if |s| > 0 && IsSpace(s[|s| - 1]) {
      var init := s[..|s| - 1];
      StripEndSpec(init);
      var j := StripEnd(s);
      assert j == StripEnd(init);
      forall k | 0 <= k < |s| - j
        ensures IsSpace(s[j..][k])
      {
        if k < |s| - 1 - j {
          assert s[j..][k] == init[j..][k];
        }
      }
    }
  }

  /** `s.strip()`: the slice of `s` between its leading and its trailing
      whitespace. */
  function Strip(s: string): (r: string)
    ensures |r| <= |s|
  {
    var i, j := StripStart(s), StripEnd(s);
    if j <= i then [] else s[i..j]
  }

  /** What `strip()` leaves neither starts nor ends with whitespace. */
  lemma StripTrimmed(s: string)
    ensures Strip(s) == [] || (!IsSpace(Strip(s)[0]) && !IsSpace(Strip(s)[|Strip(s)| - 1]))
  {
    StripStartSpec(s);
    StripEndSpec(s);
  }

  /** The ticker normalisation of the services: `ticker.upper().strip()`. */
  function Normalize(s: string): string {
    Strip(Upper(s))
  }

  lemma StripEmptyIffAllSpace(s: string)
    ensures Strip(s) == [] <==> AllSpace(s)
  {
    var i, j := StripStart(s), StripEnd(s);
    StripStartSpec(s);
    StripEndSpec(s);
    if j <= i {
      assert i == |s|;
      forall k | 0 <= k < |s| ensures IsSpace(s[k]) {
        assert s[..i][k] == s[k];
      }
    }
  }

  lemma {:induction false} UpperKeepsStripStart(s: string)
    ensures StripStart(Upper(s)) == StripStart(s)
  {
    if |s| > 0 {
      UpperCharSpace(s[0]);
      assert Upper(s)[1..] == Upper(s[1..]);
      UpperKeepsStripStart(s[1..]);
    }
  }

  lemma {:induction false} UpperKeepsStripEnd(s: string)
    ensures StripEnd(Upper(s)) == StripEnd(s)
  {
    if |s| > 0 {
      UpperCharSpace(s[|s| - 1]);
      assert Upper(s)[..|s| - 1] == Upper(s[..|s| - 1]);
      UpperKeepsStripEnd(s[..|s| - 1]);
    }
  }

  lemma UpperSliceAt(s: string, i: int, j: int, k: int)
    requires 0 <= i <= j <= |s| && 0 <= k < j - i
    ensures Upper(s[i..j])[k] == Upper(s)[i + k]
  {
    assert s[i..j][k] == s[i + k];
  }

  /** Upper-casing commutes with slicing. */
  lemma UpperSlice(s: string, i: int, j: int)
    requires 0 <= i <= j <= |s|
    ensures Upper(s[i..j]) == Upper(s)[i..j]
  {
    var a, b := Upper(s[i..j]), Upper(s)[i..j];
    assert |a| == |b| == j - i;
    forall k | 0 <= k < j - i
      ensures a[k] == b[k]
    {
      UpperSliceAt(s, i, j, k);
    }
  }

  /** `strip().upper()` (the briefing routes) and `upper().strip()` (the
      services) normalise every ticker to the same string. */
  lemma UpperStripCommute(s: string)
    ensures Upper(Strip(s)) == Normalize(s)
  {
    UpperKeepsStripStart(s);
    UpperKeepsStripEnd(s);
    var i, j := StripStart(s), StripEnd(s);
    if i < j {
      UpperSlice(s, i, j);
    }
  }

  lemma {:induction false} UpperIdempotent(s: string)
    ensures Upper(Upper(s)) == Upper(s)
  {
    if s != [] {
      UpperIdempotent(s[1..]);
    }
  }

  lemma StripIdempotent(s: string)
    ensures Strip(Strip(s)) == Strip(s)
  {
    var r := Strip(s);
    StripTrimmed(s);
    if r != [] {
      assert StripStart(r) == 0;
      assert StripEnd(r) == |r|;
    }
  }

  /** A normalised ticker is its own normal form, so the services may
      normalise again what the routes already normalised. */
  lemma NormalizeIdempotent(s: string)
    ensures Normalize(Normalize(s)) == Normalize(s)
  {
    var u := Upper(s);
    UpperStripCommute(u);
    UpperIdempotent(s);
    StripIdempotent(u);
  }

  /** A normalised ticker holds no lower-case ASCII letter. */
  lemma NormalizedIsUpper(s: string)
    ensures forall k :: 0 <= k < |Normalize(s)| ==> !('a' <= Normalize(s)[k] <= 'z')
  {
    var u := Upper(s);
    var n := Normalize(s);
    var i, j := StripStart(u), StripEnd(u);
    if i < j {
      assert n == u[i..j];
      forall k | 0 <= k < |n| ensures !('a' <= n[k] <= 'z') {
        assert n[k] == u[i + k];
      }
    }
  }

  /** A blank ticker passes a truthiness check but normalises to "". */
  lemma BlankNormalizesToEmpty(s: string)
    requires AllSpace(s)
    ensures Normalize(s) == []
  {
    forall k | 0 <= k < |s| ensures IsSpace(Upper(s)[k]) {
      UpperCharSpace(s[k]);
    }
    StripEmptyIffAllSpace(Upper(s));
  }

  lemma {:induction false} StripStartPadded(pre: string, rest: string)
    requires AllSpace(pre) && |rest| > 0 && !IsSpace(rest[0])
    ensures StripStart(pre + rest) == |pre|
  {
    if |pre| > 0 {
      assert (pre + rest)[1..] == pre[1..] + rest;
      StripStartPadded(pre[1..], rest);
    } else {
      assert pre + rest == rest;
    }
  }

  lemma {:induction false} StripEndPadded(rest: string, post: string)
    requires AllSpace(post) && |rest| > 0 && !IsSpace(rest[|rest| - 1])
    ensures StripEnd(rest + post) == |rest|
  {
    var s := rest + post;
    if |post| > 0 {
      assert s[..|s| - 1] == rest + post[..|post| - 1];
      StripEndPadded(rest, post[..|post| - 1]);
    } else {
      assert s == rest;
    }
  }

  /** `strip()` removes exactly the whitespace around a text that neither
      starts nor ends with whitespace. */
  lemma StripPadded(pre: string, body: string, post: string)
    requires AllSpace(pre) && AllSpace(post)
    requires |body| > 0 && !IsSpace(body[0]) && !IsSpace(body[|body| - 1])
    ensures Strip(pre + body + post) == body
  {
    var s := pre + body + post;
    StripEndPadded(pre + body, post);
    assert s == pre + (body + post);
    StripStartPadded(pre, body + post);
    assert s[|pre|..|pre| + |body|] == body;
  }

  /** `s.replace('Z', '+00:00')`. */
  function ReplaceZ(s: string): (r: string)
    ensures 'Z' !in r
    ensures 'Z' !in s ==> r == s
    ensures |r| >= |s|
  {
    if s == [] then []
    else (if s[0] == 'Z' then "+00:00" else [s[0]]) + ReplaceZ(s[1..])
  }

  /** The replacement works character by character, so it distributes
      over concatenation. */
  lemma {:induction false} ReplaceZAppend(a: string, b: string)
    ensures ReplaceZ(a + b) == ReplaceZ(a) + ReplaceZ(b)
  {
    if a != [] {
      var head := if a[0] == 'Z' then "+00:00" else [a[0]];
      var restA, restB := ReplaceZ(a[1..]), ReplaceZ(b);
      assert (a + b)[0] == a[0];
      assert (a + b)[1..] == a[1..] + b;
      assert ReplaceZ(a + b) == head + ReplaceZ(a[1..] + b);
      ReplaceZAppend(a[1..], b);
      assert ReplaceZ(a) == head + restA;
      assert head + (restA + restB) == (head + restA) + restB;
    } else {
      assert a + b == b;
    }
  }

  /** Each `Z` becomes "+00:00" and every other character stays. */
  lemma ReplaceZChar(c: char)
    ensures ReplaceZ([c]) == if c == 'Z' then "+00:00" else [c]
  {
    assert [c][1..] == [];
  }

  /** An ISO 8601 timestamp in UTC written with a trailing `Z` gets the
      offset "+00:00" that `datetime.fromisoformat` reads. */
  lemma ReplaceTrailingZ(t: string)
    requires 'Z' !in t
    ensures ReplaceZ(t + "Z") == t + "+00:00"
  {
    ReplaceZAppend(t, "Z");
    ReplaceZChar('Z');
  }
}
