/** The Python string operations the core applies to scraped text:
    `str.strip()`, `str.lower()`, the substring test `a in b` and
    `str.replace('  ', '')`. */
module Text {
  import Seqs

  /** Python's `str.isspace()` for a single character: the ASCII controls
      TAB..CR and FS..US, SPACE, and the Unicode separators. */
  predicate IsSpace(c: char)
  {
    || '\t' <= c <= '\r'
    || '\U{1C}' <= c <= '\U{1F}'
    || c == ' '
    || c == '\U{85}'
    || c == '\U{A0}'
    || c == '\U{1680}'
    || '\U{2000}' <= c <= '\U{200A}'
    || c == '\U{2028}'
    || c == '\U{2029}'
    || c == '\U{202F}'
    || c == '\U{205F}'
    || c == '\U{3000}'
  }

  predicate AllSpace(s: string)
  {
    forall k :: 0 <= k < |s| ==> IsSpace(s[k])
  }

  /** `s` neither starts nor ends with whitespace. */
  predicate Trimmed(s: string)
  {
    s == [] || (!IsSpace(s[0]) && !IsSpace(s[|s| - 1]))
  }

  /** `s.lstrip()`: drops the leading whitespace. */
  function StripLeft(s: string): (r: string)
    ensures |r| <= |s|
    ensures r != [] ==> !IsSpace(r[0])
  {
    if s != [] && IsSpace(s[0]) then StripLeft(s[1..]) else s
  }

  /** `s.rstrip()`: a prefix of `s` without its trailing whitespace. */
  function StripRight(s: string): (r: string)
    ensures |r| <= |s| && r == s[..|r|]
    ensures r != [] ==> !IsSpace(r[|r| - 1])
  {
    if s != [] && IsSpace(s[|s| - 1]) then StripRight(s[..|s| - 1]) else s
  }

  /** `s.strip()`. */
  function Strip(s: string): (r: string)
    ensures |r| <= |s|
    ensures Trimmed(r)
  {
    StripRight(StripLeft(s))
  }

  lemma {:induction false} StripLeftOfPadded(pad: string, t: string)
    requires AllSpace(pad) && (t == [] || !IsSpace(t[0]))
    ensures StripLeft(pad + t) == t
    decreases |pad|
  {
    if pad == [] {
      assert pad + t == t;
    } else {
      assert (pad + t)[1..] == pad[1..] + t;
      StripLeftOfPadded(pad[1..], t);
    }
  }

  lemma {:induction false} StripRightOfPadded(t: string, pad: string)
    requires AllSpace(pad) && (t == [] || !IsSpace(t[|t| - 1]))
    ensures StripRight(t + pad) == t
    decreases |pad|
  {
    if pad == [] {
      assert t + pad == t;
    } else {
      var shorter := pad[..|pad| - 1];
      assert (t + pad)[..|t + pad| - 1] == t + shorter;
      StripRightOfPadded(t, shorter);
    }
  }

  /** Strip removes exactly the surrounding whitespace: a trimmed text with
      whitespace around it strips back to itself. */
  lemma StripOfPadded(before: string, t: string, after: string)
    requires AllSpace(before) && AllSpace(after) && Trimmed(t)
    ensures Strip(before + t + after) == t
  {
    if t == [] {
      assert before + t + after == before + after;
      assert AllSpace(before + after);
      StripLeftOfPadded(before + after, []);
      assert before + after + [] == before + after;
      StripRightOfPadded([], []);
    } else {
      assert before + t + after == before + (t + after);
      StripLeftOfPadded(before, t + after);
      StripRightOfPadded(t, after);
    }
  }

  lemma StripIdempotent(s: string)
    ensures Strip(Strip(s)) == Strip(s)
  {
    var r := Strip(s);
    assert [] + r + [] == r;
    StripOfPadded([], r, []);
  }

  /** Python's `str.lower()` on one character, for the ASCII and the basic
      Cyrillic capitals (U+0400..U+042F). */
  function LowerChar(c: char): char
  {
    if 'A' <= c <= 'Z' then (c as int + 32) as char
    else if '\U{0410}' <= c <= '\U{042F}' then (c as int + 32) as char
    else if '\U{0400}' <= c <= '\U{040F}' then (c as int + 80) as char
    else c
  }

  /** `s.lower()`. */
  function Lower(s: string): (r: string)
    ensures |r| == |s|
    ensures forall k :: 0 <= k < |s| ==> r[k] == LowerChar(s[k])
  {
    seq(|s|, k requires 0 <= k < |s| => LowerChar(s[k]))
  }

  /** After lowering, no ASCII or basic Cyrillic capital is left. */
  lemma LowerLeavesNoCapitals(s: string)
    ensures forall k :: 0 <= k < |s| ==> !('A' <= Lower(s)[k] <= 'Z') && !('\U{0400}' <= Lower(s)[k] <= '\U{042F}')
  {
  }

  lemma LowerIdempotent(s: string)
    ensures Lower(Lower(s)) == Lower(s)
  {
  }

  /** `needle` occurs in `hay` starting at offset `k`. */
  predicate OccursAt(hay: string, needle: string, k: nat)
  {
    k + |needle| <= |hay| && hay[k..k + |needle|] == needle
  }

  /** Python's `needle in hay` on strings. */
  predicate Contains(hay: string, needle: string)
  {
    exists k: nat | k <= |hay| :: OccursAt(hay, needle, k)
  }

  /** `n` spaces. */
  function Spaces(n: nat): (r: string)
    ensures |r| == n && forall k :: 0 <= k < n ==> r[k] == ' '
  {
    if n == 0 then [] else [' '] + Spaces(n - 1)
  }

  /** `s.replace('  ', '')`: scanning left to right, every non-overlapping
      pair of spaces is deleted. */
  function RemoveDoubleSpaces(s: string): (r: string)
    ensures |r| <= |s|
  {
    if |s| >= 2 && s[0] == ' ' && s[1] == ' ' then RemoveDoubleSpaces(s[2..])
    else if s == [] then []
    else [s[0]] + RemoveDoubleSpaces(s[1..])
  }

  /** No two adjacent characters of `s` are both spaces. */
  predicate NoDoubleSpace(s: string)
  {
    forall k :: 0 < k < |s| ==> !(s[k - 1] == ' ' && s[k] == ' ')
  }

  predicate NotSpace(c: char) { c != ' ' }

  /** A text that starts with a non-space keeps that first character. */
  lemma {:induction false} RemoveKeepsLeadingNonSpace(s: string)
    requires s != [] && s[0] != ' '
    ensures RemoveDoubleSpaces(s) != [] && RemoveDoubleSpaces(s)[0] == s[0]
  {
  }

  /** A run of `k` spaces at the start of a text, followed by a non-space
      (or the end), collapses to `k % 2` spaces. */
  lemma {:induction false} RunCollapsesAtStart(k: nat, rest: string)
    requires rest == [] || rest[0] != ' '
    ensures RemoveDoubleSpaces(Spaces(k) + rest) == Spaces(k % 2) + RemoveDoubleSpaces(rest)
    decreases k
  {
    var s := Spaces(k) + rest;
    if k >= 2 {
      assert Spaces(k) == [' ', ' '] + Spaces(k - 2);
      assert s == [' ', ' '] + (Spaces(k - 2) + rest);
      assert RemoveDoubleSpaces(s) == RemoveDoubleSpaces(Spaces(k - 2) + rest);
      RunCollapsesAtStart(k - 2, rest);
      assert (k - 2) % 2 == k % 2;
    } else if k == 1 {
      assert s == [' '] + rest;
      assert s[1..] == rest;
      assert RemoveDoubleSpaces(s) == [' '] + RemoveDoubleSpaces(rest);
      assert Spaces(1) == [' '];
    } else {
      assert s == rest;
      assert Spaces(0) + RemoveDoubleSpaces(rest) == RemoveDoubleSpaces(rest);
    }
  }

  /** A text that ends in a non-space (or is empty) is replaced on its
      own: no pair of spaces straddles the boundary after it. */
  lemma {:induction false} SplitAfterNonSpace(p: string, s: string)
    requires p == [] || p[|p| - 1] != ' '
    ensures RemoveDoubleSpaces(p + s) == RemoveDoubleSpaces(p) + RemoveDoubleSpaces(s)
    decreases |p|
  {
    if p == [] {
      assert p + s == s;
    } else if |p| >= 2 && p[0] == ' ' && p[1] == ' ' {
      assert (p + s)[2..] == p[2..] + s;
      SplitAfterNonSpace(p[2..], s);
    } else {
      assert (p + s)[0] == p[0];
      assert |p| >= 2 ==> (p + s)[1] == p[1];
      assert (p + s)[1..] == p[1..] + s;
      SplitAfterNonSpace(p[1..], s);
      assert RemoveDoubleSpaces(p + s) == [p[0]] + RemoveDoubleSpaces(p[1..] + s);
    }
  }

  /** A maximal run of `k` spaces anywhere in a text, after a non-space (or
      the start) and before a non-space (or the end), collapses to `k % 2`
      spaces and leaves the text on either side as on its own. */
  lemma RunCollapses(p: string, k: nat, rest: string)
    requires p == [] || p[|p| - 1] != ' '
    requires rest == [] || rest[0] != ' '
    ensures RemoveDoubleSpaces(p + Spaces(k) + rest)
      == RemoveDoubleSpaces(p) + Spaces(k % 2) + RemoveDoubleSpaces(rest)
  {
    assert p + Spaces(k) + rest == p + (Spaces(k) + rest);
    SplitAfterNonSpace(p, Spaces(k) + rest);
    RunCollapsesAtStart(k, rest);
  }

  /** After the replacement no two spaces are adjacent. */
  lemma {:induction false} RemoveLeavesNoDoubleSpace(s: string)
    ensures NoDoubleSpace(RemoveDoubleSpaces(s))
    decreases |s|
  {
    if |s| >= 2 && s[0] == ' ' && s[1] == ' ' {
      RemoveLeavesNoDoubleSpace(s[2..]);
    } else if s != [] {
      var tail := RemoveDoubleSpaces(s[1..]);
      RemoveLeavesNoDoubleSpace(s[1..]);
      if s[0] == ' ' && s[1..] != [] {
        RemoveKeepsLeadingNonSpace(s[1..]);
      }
      var r := [s[0]] + tail;
      forall k | 0 < k < |r| ensures !(r[k - 1] == ' ' && r[k] == ' ') {
        if k >= 2 {
          assert r[k - 1] == tail[k - 2] && r[k] == tail[k - 1];
        }
      }
    }
  }

  /** The replacement deletes spaces only: every other character is kept,
      in order. */
  lemma {:induction false} RemoveKeepsNonSpaces(s: string)
    ensures Seqs.Keep(RemoveDoubleSpaces(s), NotSpace) == Seqs.Keep(s, NotSpace)
    decreases |s|
  {
    if |s| >= 2 && s[0] == ' ' && s[1] == ' ' {
      RemoveKeepsNonSpaces(s[2..]);
      assert s == [' ', ' '] + s[2..];
      Seqs.KeepConcat([' ', ' '], s[2..], NotSpace);
    } else if s != [] {
      RemoveKeepsNonSpaces(s[1..]);
      Seqs.KeepConcat([s[0]], RemoveDoubleSpaces(s[1..]), NotSpace);
    }
  }

  /** A text with no double space is left unchanged, so the replacement is
      idempotent. */
  lemma {:induction false} RemoveFixesNoDoubleSpace(s: string)
    requires NoDoubleSpace(s)
    ensures RemoveDoubleSpaces(s) == s
    decreases |s|
  {
    if s != [] {
      if |s| >= 2 {
        assert !(s[0] == ' ' && s[1] == ' ');
      }
      assert NoDoubleSpace(s[1..]) by {
        forall k | 0 < k < |s[1..]| ensures !(s[1..][k - 1] == ' ' && s[1..][k] == ' ') {
          assert s[1..][k - 1] == s[k] && s[1..][k] == s[k + 1];
        }
      }
      RemoveFixesNoDoubleSpace(s[1..]);
      assert s == [s[0]] + s[1..];
    }
  }

  lemma RemoveDoubleSpacesIdempotent(s: string)
    ensures RemoveDoubleSpaces(RemoveDoubleSpaces(s)) == RemoveDoubleSpaces(s)
  {
    RemoveLeavesNoDoubleSpace(s);
    RemoveFixesNoDoubleSpace(RemoveDoubleSpaces(s));
  }
}
