/** The forecast rewrap `re.sub(r'(.{70}\w*?)(\s)', r'\1\n', s)` as a left-to-right scan.
    `.` is every character but a newline, `\s` is `IsSpace`, and `\w` is the
    caller's `isWord`, which stands for Python's Unicode word class. */
module Rewrap {
  import opened Wrappers
  import opened Text

  /** The number of characters `.{70}` consumes before a break may be made. */
  const Width: nat := 70

  predicate NoNewline(s: string, a: nat, b: nat)
    requires a <= b <= |s|
  {
    forall m :: a <= m < b ==> s[m] != '\n'
  }

  predicate NoSpace(s: string, a: nat, b: nat)
    requires a <= b <= |s|
  {
    forall m :: a <= m < b ==> !IsSpace(s[m])
  }

  predicate AllWord(s: string, a: nat, b: nat, isWord: char -> bool)
    requires a <= b <= |s|
  {
    forall m :: a <= m < b ==> isWord(s[m])
  }

  /** A whitespace at j that the pattern can reach from a match start i: 70 characters
      without a newline, then only word characters up to j. */
  predicate Breakable(s: string, i: nat, j: nat, isWord: char -> bool) {
    i + Width <= j < |s| && NoNewline(s, i, i + Width) && AllWord(s, i + Width, j, isWord) && IsSpace(s[j])
  }

  /** The match the lazy `\w*?` makes from i: the first reachable whitespace. */
  predicate LazyMatch(s: string, i: nat, j: nat, isWord: char -> bool) {
    Breakable(s, i, j, isWord) && NoSpace(s, i + Width, j)
  }

  /** `\w*?(\s)` from position j: stop at the first whitespace, go on over word characters. */
  function LazyEnd(s: string, j: nat, isWord: char -> bool): (r: Option<nat>)
    requires j <= |s|
    decreases |s| - j
    ensures r.Some? ==> j <= r.value < |s| && IsSpace(s[r.value])
    ensures r.Some? ==> AllWord(s, j, r.value, isWord) && NoSpace(s, j, r.value)
  {
    if j == |s| then None
    else if IsSpace(s[j]) then Some(j)
    else if isWord(s[j]) then LazyEnd(s, j + 1, isWord)
    else None
  }

  /** Where the whitespace of a match starting at i lies, if the pattern matches at i. */
  function MatchAt(s: string, i: nat, isWord: char -> bool): (r: Option<nat>)
    requires i <= |s|
    ensures r.Some? ==> LazyMatch(s, i, r.value, isWord)
  {
    if i + Width <= |s| && NoNewline(s, i, i + Width) then LazyEnd(s, i + Width, isWord) else None
  }

  /** The lazy `\w*?(\s)` misses no whitespace it can reach over word characters. */
  lemma {:induction false} LazyEndFinds(s: string, j: nat, k: nat, isWord: char -> bool)
    requires j <= k < |s| && IsSpace(s[k]) && AllWord(s, j, k, isWord)
    decreases k - j
    ensures LazyEnd(s, j, isWord).Some? && LazyEnd(s, j, isWord).value <= k
  {
    if j < k && !IsSpace(s[j]) {
      LazyEndFinds(s, j + 1, k, isWord);
    }
  }

  /** The pattern matches wherever a breakable whitespace can be reached, and its
      whitespace comes no later than that one. */
  lemma MatchAtFinds(s: string, i: nat, j: nat, isWord: char -> bool)
    requires Breakable(s, i, j, isWord)
    ensures MatchAt(s, i, isWord).Some? && MatchAt(s, i, isWord).value <= j
  {
    LazyEndFinds(s, i + Width, j, isWord);
  }

  /** The substitution applied to `s[p..]`: at a match, keep the group and turn its
      whitespace into a newline, then go on after it; elsewhere copy one character. */
  function RewrapFrom(s: string, p: nat, isWord: char -> bool): (r: string)
    requires p <= |s|
    decreases |s| - p
    ensures |r| == |s| - p
  {
    if p == |s| then []
    else match MatchAt(s, p, isWord)
      case Some(j) => s[p..j] + "\n" + RewrapFrom(s, j + 1, isWord)
      case None => [s[p]] + RewrapFrom(s, p + 1, isWord)
  }

  function Rewrap(s: string, isWord: char -> bool): string {
    RewrapFrom(s, 0, isWord)
  }

  /** Position k of `s` (k >= p) is either copied from s into the output `r` of the scan
      from p, or is a whitespace that a match from some i >= p turned into a newline,
      with everything from i up to k copied. */
  ghost predicate SoundAt(r: string, s: string, p: nat, k: nat, isWord: char -> bool)
    requires p <= k < |s| && |r| == |s| - p
  {
    r[k - p] == s[k]
    || (r[k - p] == '\n' && IsSpace(s[k]) &&
        exists i: nat :: p <= i && LazyMatch(s, i, k, isWord) && CopiedBetween(r, s, p, i, k))
  }

  ghost predicate CopiedBetween(r: string, s: string, p: nat, i: nat, k: nat)
    requires p <= i <= k <= |s| && |r| == |s| - p
  {
    forall m :: i <= m < k ==> r[m - p] == s[m]
  }

  /** Soundness carries over from the scan from q to a scan from p whose output is
      `front` (covering p..q-1) followed by the scan from q. */
  lemma SoundShift(r: string, front: string, rest: string, s: string, p: nat, q: nat, k: nat, isWord: char -> bool)
    requires p + |front| == q <= k < |s| && |rest| == |s| - q && r == front + rest
    requires SoundAt(rest, s, q, k, isWord)
    ensures SoundAt(r, s, p, k, isWord)
  {
    assert r[k - p] == rest[k - q];
    if r[k - p] != s[k] {
      var i: nat :| q <= i && LazyMatch(s, i, k, isWord) && CopiedBetween(rest, s, q, i, k);
      forall m | i <= m < k ensures r[m - p] == s[m] {
        assert r[m - p] == rest[m - q];
      }
      assert CopiedBetween(r, s, p, i, k);
    }
  }

  lemma {:induction false} RewrapFromSound(s: string, p: nat, isWord: char -> bool)
    requires p <= |s|
    decreases |s| - p
    ensures forall k :: p <= k < |s| ==> SoundAt(RewrapFrom(s, p, isWord), s, p, k, isWord)
  {
    if p < |s| {
      var r := RewrapFrom(s, p, isWord);
      match MatchAt(s, p, isWord)
      case Some(j) =>
        var front, rest := s[p..j] + "\n", RewrapFrom(s, j + 1, isWord);
        RewrapFromSound(s, j + 1, isWord);
        assert r == front + rest;
        forall k | p <= k < |s| ensures SoundAt(r, s, p, k, isWord) {
          if k < j {
            assert r[k - p] == s[k];
          } else if k == j {
            assert r[k - p] == '\n';
            assert CopiedBetween(r, s, p, p, k);
          } else {
            SoundShift(r, front, rest, s, p, j + 1, k, isWord);
          }
        }
      case None =>
        var rest := RewrapFrom(s, p + 1, isWord);
        RewrapFromSound(s, p + 1, isWord);
        assert r == [s[p]] + rest;
        forall k | p < k < |s| ensures SoundAt(r, s, p, k, isWord) {
          SoundShift(r, [s[p]], rest, s, p, p + 1, k, isWord);
        }
        assert r[0] == s[p];
    }
  }

  lemma ConcatIndex(a: string, b: string, k: nat)
    requires k < |b|
    ensures (a + b)[|a| + k] == b[k]
  {
  }

  ghost predicate NewlineAt(r: string, p: nat, k: nat) {
    p <= k < p + |r| && r[k - p] == '\n'
  }

  /** A match made from p cannot run past the whitespace of a later breakable stretch. */
  lemma MatchStopsAtBreakable(s: string, p: nat, e: nat, i: nat, j: nat, isWord: char -> bool)
    requires p <= i && LazyMatch(s, p, e, isWord) && Breakable(s, i, j, isWord)
    ensures e <= j
  {
  }

  /** Some position in [i, j] of the text holds a newline in the scan output r from p. */
  ghost predicate NewlineWithin(r: string, p: nat, i: nat, j: nat) {
    exists k :: i <= k <= j && NewlineAt(r, p, k)
  }

  /** A newline found in the scan from q is found, at the same place, in a scan from p
      whose output starts with `front` of length q - p. */
  lemma NewlineLift(r: string, front: string, rest: string, p: nat, q: nat, k: nat)
    requires r == front + rest && p + |front| == q && NewlineAt(rest, q, k)
    ensures NewlineAt(r, p, k)
  {
    ConcatIndex(front, rest, k - q);
  }

  /** One step of the scan where the pattern matches at p. */
  lemma UnfoldMatch(s: string, p: nat, e: nat, isWord: char -> bool)
    requires p < |s| && MatchAt(s, p, isWord) == Some(e)
    ensures e < |s| && RewrapFrom(s, p, isWord) == (s[p..e] + "\n") + RewrapFrom(s, e + 1, isWord)
  {
  }

  /** One step of the scan where the pattern does not match at p. */
  lemma UnfoldCopy(s: string, p: nat, isWord: char -> bool)
    requires p < |s| && MatchAt(s, p, isWord).None?
    ensures RewrapFrom(s, p, isWord) == [s[p]] + RewrapFrom(s, p + 1, isWord)
  {
  }

  /** A newline written at position e of the text, inside [i, j]. */
  lemma NewlineHere(r: string, front: string, rest: string, p: nat, e: nat, i: nat, j: nat)
    requires r == front + rest
    requires 0 < |front| && p + |front| == e + 1 && front[|front| - 1] == '\n' && i <= e <= j
    ensures NewlineWithin(r, p, i, j)
  {
    assert NewlineAt(r, p, e);
  }

  /** After a match at p with its whitespace at e, a newline the scan from e + 1 writes
      in [i, j] is in the scan from p too. */
  lemma LiftAfterMatch(s: string, p: nat, e: nat, i: nat, j: nat, isWord: char -> bool)
    requires p < |s| && MatchAt(s, p, isWord) == Some(e)
    requires NewlineWithin(RewrapFrom(s, e + 1, isWord), e + 1, i, j)
    ensures NewlineWithin(RewrapFrom(s, p, isWord), p, i, j)
  {
    var front := s[p..e] + "\n";
    var r, rest := RewrapFrom(s, p, isWord), RewrapFrom(s, e + 1, isWord);
    assert r == front + rest by {
      UnfoldMatch(s, p, e, isWord);
    }
    var k :| i <= k <= j && NewlineAt(rest, e + 1, k);
    NewlineLift(r, front, rest, p, e + 1, k);
  }

  /** The newline a match at p writes at e, when e lies in [i, j]. */
  lemma NewlineAtMatch(s: string, p: nat, e: nat, i: nat, j: nat, isWord: char -> bool)
    requires p < |s| && MatchAt(s, p, isWord) == Some(e) && i <= e <= j
    ensures NewlineWithin(RewrapFrom(s, p, isWord), p, i, j)
  {
    var front := s[p..e] + "\n";
    var r, rest := RewrapFrom(s, p, isWord), RewrapFrom(s, e + 1, isWord);
    assert r == front + rest by {
      UnfoldMatch(s, p, e, isWord);
    }
    NewlineHere(r, front, rest, p, e, i, j);
  }

  /** Where the pattern does not match at p, a newline the scan from p + 1 writes in
      [i, j] is in the scan from p too. */
  lemma LiftAfterCopy(s: string, p: nat, i: nat, j: nat, isWord: char -> bool)
    requires p < |s| && MatchAt(s, p, isWord).None?
    requires NewlineWithin(RewrapFrom(s, p + 1, isWord), p + 1, i, j)
    ensures NewlineWithin(RewrapFrom(s, p, isWord), p, i, j)
  {
    var r, rest := RewrapFrom(s, p, isWord), RewrapFrom(s, p + 1, isWord);
    assert r == [s[p]] + rest by {
      UnfoldCopy(s, p, isWord);
    }
    var k :| i <= k <= j && NewlineAt(rest, p + 1, k);
    NewlineLift(r, [s[p]], rest, p, p + 1, k);
  }

  lemma {:induction false} RewrapFromComplete(s: string, p: nat, i: nat, j: nat, isWord: char -> bool)
    requires p <= i && Breakable(s, i, j, isWord)
    decreases |s| - p
    ensures NewlineWithin(RewrapFrom(s, p, isWord), p, i, j)
  {
    var m := MatchAt(s, p, isWord);
    if m.Some? {
      var e := m.value;
      if e < i {
        assert NewlineWithin(RewrapFrom(s, e + 1, isWord), e + 1, i, j) by {
          RewrapFromComplete(s, e + 1, i, j, isWord);
        }
        LiftAfterMatch(s, p, e, i, j, isWord);
      } else {
        assert e <= j by {
          MatchStopsAtBreakable(s, p, e, i, j, isWord);
        }
        NewlineAtMatch(s, p, e, i, j, isWord);
      }
    } else {
      assert p < i by {
        if p == i {
          MatchAtFinds(s, i, j, isWord);
        }
      }
      assert NewlineWithin(RewrapFrom(s, p + 1, isWord), p + 1, i, j) by {
        RewrapFromComplete(s, p + 1, i, j, isWord);
      }
      LiftAfterCopy(s, p, i, j, isWord);
    }
  }

  /** What the substitution does to the forecast text: the length is kept; a character
      either stays or is a whitespace that became a newline; each such newline follows
      at least 70 characters that are not newlines, and ends a match (70 characters
      without a newline, then only word characters); and no breakable whitespace is
      missed: every stretch the pattern could match gets a newline within it. */
  lemma RewrapSpec(s: string, isWord: char -> bool)
    ensures |Rewrap(s, isWord)| == |s|
    ensures forall k :: 0 <= k < |s| ==>
      Rewrap(s, isWord)[k] == s[k] || (IsSpace(s[k]) && Rewrap(s, isWord)[k] == '\n')
    ensures forall k :: 0 <= k < |s| && Rewrap(s, isWord)[k] != s[k] ==>
      && Width <= k
      && (forall m :: k - Width <= m < k ==> Rewrap(s, isWord)[m] != '\n')
      && exists i: nat :: i + Width <= k && LazyMatch(s, i, k, isWord)
    ensures forall i: nat, j: nat :: Breakable(s, i, j, isWord) ==>
      exists k :: i <= k <= j && Rewrap(s, isWord)[k] == '\n'
  {
    var r := Rewrap(s, isWord);
    RewrapFromSound(s, 0, isWord);
    forall k | 0 <= k < |s| ensures r[k] == s[k] || (IsSpace(s[k]) && r[k] == '\n') {
      assert SoundAt(r, s, 0, k, isWord);
    }
    forall k | 0 <= k < |s| && r[k] != s[k]
      ensures Width <= k && (forall m :: k - Width <= m < k ==> r[m] != '\n')
      ensures exists i: nat :: i + Width <= k && LazyMatch(s, i, k, isWord)
    {
      assert SoundAt(r, s, 0, k, isWord);
      var i: nat :| LazyMatch(s, i, k, isWord) && CopiedBetween(r, s, 0, i, k);
      forall m | k - Width <= m < k ensures r[m] != '\n' {
        assert r[m] == s[m];
        if m >= i + Width {
          assert !IsSpace(s[m]);
        }
      }
    }
    forall i: nat, j: nat | Breakable(s, i, j, isWord)
      ensures exists k :: i <= k <= j && r[k] == '\n'
    {
      RewrapFromComplete(s, 0, i, j, isWord);
      var k :| i <= k <= j && NewlineAt(r, 0, k);
      assert r[k] == '\n';
    }
  }

  /** A text with no breakable whitespace comes back unchanged. */
  lemma RewrapShortText(s: string, isWord: char -> bool)
    requires |s| <= Width
    ensures Rewrap(s, isWord) == s
  {
    RewrapSpec(s, isWord);
  }
}
