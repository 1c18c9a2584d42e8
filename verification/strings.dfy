/** The string operations `cleanJson` is built from: a global, left-to-right
    deletion of a pattern (`String.prototype.replace` with a `/g` regular
    expression and an empty replacement) and `String.prototype.trim`. */
module Strings {

  const Tick: char := '`'

  /** Three backticks: a Markdown code fence. */
  const Fence: string := "```"

  /** ECMAScript WhiteSpace and LineTerminator code points, the set `trim` removes. */
  predicate IsJsSpace(c: char) {
    || c == '\t' || c == '\n' || c == '\U{000B}' || c == '\U{000C}' || c == '\r' || c == ' '
    || c == '\U{00A0}' || c == '\U{1680}' || ('\U{2000}' <= c <= '\U{200A}')
    || c == '\U{2028}' || c == '\U{2029}' || c == '\U{202F}' || c == '\U{205F}'
    || c == '\U{3000}' || c == '\U{FEFF}'
  }

  /** Neither end of `s` is whitespace. */
  predicate IsTrimmed(s: string) {
    |s| == 0 || (!IsJsSpace(s[0]) && !IsJsSpace(s[|s| - 1]))
  }

  /** `p` appears in `s` as a contiguous piece. */
  predicate Occurs(p: string, s: string)
    decreases |s|
  {
    p <= s || (|s| > 0 && Occurs(p, s[1..]))
  }

  /** Deletes every occurrence of `p`, scanning left to right and resuming
      after each deleted match, as a global regular-expression replace does. */
  function DeleteAll(s: string, p: string): (r: string)
    requires |p| > 0
    ensures |r| <= |s|
    ensures r == s <==> !Occurs(p, s)
    decreases |s|
  {
    if |s| == 0 then []
    else if p <= s then DeleteAll(s[|p|..], p)
    else [s[0]] + DeleteAll(s[1..], p)
  }

  /** `trimStart`: drops leading whitespace and nothing else. */
  function TrimStart(s: string): (r: string)
    ensures |r| <= |s| && r == s[|s| - |r|..]
    ensures |r| > 0 ==> !IsJsSpace(r[0])
    ensures forall k | 0 <= k < |s| - |r| :: IsJsSpace(s[k])
    decreases |s|
  {
    if |s| > 0 && IsJsSpace(s[0]) then TrimStart(s[1..]) else s
  }

  /** `trimEnd`: drops trailing whitespace and nothing else. */
  function TrimEnd(s: string): (r: string)
    ensures |r| <= |s| && r == s[..|r|]
    ensures |r| > 0 ==> !IsJsSpace(r[|r| - 1])
    ensures forall k | |r| <= k < |s| :: IsJsSpace(s[k])
    decreases |s|
  {
    if |s| > 0 && IsJsSpace(s[|s| - 1]) then TrimEnd(s[..|s| - 1]) else s
  }

  /** `trim`: the longest infix of `s` with no whitespace at either end;
      only whitespace is cut, and only from the two ends. */
  function Trim(s: string): (r: string)
    ensures IsTrimmed(r)
    ensures IsTrimmed(s) ==> r == s
    ensures exists i, j | 0 <= i <= j <= |s| ::
      && r == s[i..j]
      && (forall k | 0 <= k < i :: IsJsSpace(s[k]))
      && (forall k | j <= k < |s| :: IsJsSpace(s[k]))
  {
    var t := TrimStart(s);
    var r := TrimEnd(t);
    var i := |s| - |t|;
    assert r == s[i..i + |r|] by {
      assert t == s[i..];
    }
    assert forall k | i + |r| <= k < |s| :: IsJsSpace(s[k]) by {
      forall k | i + |r| <= k < |s|
        ensures IsJsSpace(s[k])
      {
        assert s[k] == t[k - i];
      }
    }
    r
  }

  // ---------------------------------------------------------------------
  // Facts about Occurs

  lemma {:induction false} OccursInSuffix(p: string, s: string, k: nat)
    requires k <= |s|
    requires Occurs(p, s[k..])
    ensures Occurs(p, s)
    decreases k
  {
    if k > 0 {
      assert s[1..][k - 1..] == s[k..];
      OccursInSuffix(p, s[1..], k - 1);
    }
  }

  lemma {:induction false} OccursInPrefix(p: string, s: string, k: nat)
    requires k <= |s|
    requires Occurs(p, s[..k])
    ensures Occurs(p, s)
    decreases |s|
  {
    if p <= s[..k] {
      assert p <= s;
    } else {
      assert k > 0 && Occurs(p, s[..k][1..]);
      assert s[..k][1..] == s[1..][..k - 1];
      OccursInPrefix(p, s[1..], k - 1);
    }
  }

  /** Trimming cannot create an occurrence: `Trim(s)` is an infix of `s`. */
  lemma TrimKeepsAbsence(p: string, s: string)
    requires !Occurs(p, s)
    ensures !Occurs(p, Trim(s))
  {
    var t := TrimStart(s);
    if Occurs(p, Trim(s)) {
      OccursInPrefix(p, t, |Trim(s)|);
      OccursInSuffix(p, s, |s| - |t|);
    }
  }

  /** A value interpolated into a string occurs in it. */
  lemma {:induction false} OccursBetween(x: string, a: string, b: string)
    ensures Occurs(x, a + x + b)
    decreases |a|
  {
    if |a| == 0 {
      assert a + x + b == x + b;
    } else {
      assert (a + x + b)[1..] == a[1..] + x + b;
      OccursBetween(x, a[1..], b);
    }
  }

  /** A pattern longer than `s` cannot occur in it. */
  lemma {:induction false} TooLongNeverOccurs(p: string, s: string)
    requires |s| < |p|
    ensures !Occurs(p, s)
    decreases |s|
  {
    if |s| > 0 {
      TooLongNeverOccurs(p, s[1..]);
    }
  }

  /** Each occurrence of `p` contains an occurrence of every prefix of `p`. */
  lemma {:induction false} PrefixPatternOccurs(q: string, p: string, s: string)
    requires q <= p
    requires Occurs(p, s)
    ensures Occurs(q, s)
    decreases |s|
  {
    if !(p <= s) {
      PrefixPatternOccurs(q, p, s[1..]);
    }
  }

  /** A non-empty pattern only occurs where its first character does. */
  lemma {:induction false} OccursNeedsFirstChar(p: string, s: string)
    requires |p| > 0
    requires Occurs(p, s)
    ensures p[0] in s
    decreases |s|
  {
    if !(p <= s) {
      OccursNeedsFirstChar(p, s[1..]);
    }
  }

  // ---------------------------------------------------------------------
  // Deleting code fences

  /** The number of backticks `s` starts with. */
  function LeadingTicks(s: string): (n: nat)
    ensures n <= |s|
    decreases |s|
  {
    if |s| > 0 && s[0] == Tick then 1 + LeadingTicks(s[1..]) else 0
  }

  lemma FenceIsPrefixIff(s: string)
    ensures Fence <= s <==> LeadingTicks(s) >= 3
  {
    if |s| >= 3 && s[0] == Tick && s[1] == Tick {
      assert s[1..][0] == Tick && s[1..][1..] == s[2..];
      assert LeadingTicks(s) == 2 + LeadingTicks(s[2..]);
    }
    if |s| >= 3 {
      assert Fence <= s <==> s[0] == Tick && s[1] == Tick && s[2] == Tick;
    }
  }

  /** A run of k backticks at the start comes out as k mod 3 backticks. */
  lemma {:induction false} DeleteFenceLeadingTicks(s: string)
    ensures LeadingTicks(DeleteAll(s, Fence)) == LeadingTicks(s) % 3
    decreases |s|
  {
    FenceIsPrefixIff(s);
    if |s| == 0 {
    } else if Fence <= s {
      assert LeadingTicks(s) == 3 + LeadingTicks(s[3..]) by {
        assert s[1..][1..] == s[2..];
        assert s[2..][1..] == s[3..];
      }
      DeleteFenceLeadingTicks(s[3..]);
    } else if s[0] == Tick {
      DeleteFenceLeadingTicks(s[1..]);
      assert ([s[0]] + DeleteAll(s[1..], Fence))[1..] == DeleteAll(s[1..], Fence);
    } else {
    }
  }

  /** After deleting every fence no three backticks stand together. */
  lemma {:induction false} DeleteFenceLeavesNoFence(s: string)
    ensures !Occurs(Fence, DeleteAll(s, Fence))
    decreases |s|
  {
    if |s| == 0 {
    } else if Fence <= s {
      DeleteFenceLeavesNoFence(s[3..]);
    } else {
      var t := DeleteAll(s[1..], Fence);
      var r := [s[0]] + t;
      DeleteFenceLeavesNoFence(s[1..]);
      assert r[1..] == t;
      DeleteFenceLeadingTicks(s[1..]);
      FenceIsPrefixIff(s);
      assert !(Fence <= r) by {
        if s[0] == Tick && |t| >= 2 && t[0] == Tick {
          assert LeadingTicks(s) == 1 + LeadingTicks(s[1..]);
          assert LeadingTicks(t) <= 1;
          assert t[1..][0] != Tick;
        }
      }
    }
  }

  /** A backtick-free text in front of the rest is left alone by a deletion
      whose pattern starts with a backtick. */
  lemma {:induction false} DeleteAllSkipsTickFree(s: string, q: string, p: string)
    requires |p| > 0 && p[0] == Tick
    requires Tick !in s
    ensures DeleteAll(s + q, p) == s + DeleteAll(q, p)
    decreases |s|
  {
    if |s| > 0 {
      assert !(p <= s + q);
      assert (s + q)[1..] == s[1..] + q;
      DeleteAllSkipsTickFree(s[1..], q, p);
    } else {
      assert s + q == q;
    }
  }
}
