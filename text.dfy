/** The two text operations the generator applies to template and config
    text: Python's `str.replace` (every occurrence, left to right, without
    overlaps) and a restricted `str.format` (named fields and doubled
    braces only). */
module Text {
  import opened Base

  /** `w` occurs in `s` at index `i`. */
  predicate OccursAt(s: string, w: string, i: int) {
    0 <= i && i + |w| <= |s| && s[i..i + |w|] == w
  }

  ghost predicate Occurs(s: string, w: string) {
    exists i :: OccursAt(s, w, i)
  }

  lemma OccursInMiddle(a: string, w: string, b: string)
    ensures OccursAt(a + w + b, w, |a|)
  {
    assert (a + w + b)[|a|..|a| + |w|] == w;
  }

  /** An occurrence survives text added on either side. */
  lemma OccursExtended(a: string, b: string, w: string)
    ensures Occurs(a, w) ==> Occurs(a + b, w)
    ensures Occurs(b, w) ==> Occurs(a + b, w)
  {
    if Occurs(a, w) {
      var i :| OccursAt(a, w, i);
      assert (a + b)[i..i + |w|] == a[i..i + |w|];
      assert OccursAt(a + b, w, i);
    }
    if Occurs(b, w) {
      var i :| OccursAt(b, w, i);
      assert (a + b)[|a| + i..|a| + i + |w|] == b[i..i + |w|];
      assert OccursAt(a + b, w, |a| + i);
    }
  }

  lemma OccursSelf(w: string)
    ensures Occurs(w, w)
  {
    assert OccursAt(w, w, 0);
  }

  /** A word with a character the text lacks does not occur in it. */
  lemma MissingChar(s: string, w: string, k: nat)
    requires k < |w| && w[k] !in s
    ensures !Occurs(s, w)
  {
    forall i: int
      ensures !OccursAt(s, w, i)
    {
      if 0 <= i && i + |w| <= |s| {
        assert s[i..i + |w|][k] == s[i + k];
        assert s[i + k] in s;
      }
    }
  }

  /** `"\n".join(lines)`. */
  function JoinLines(lines: seq<string>): string {
    if |lines| == 0 then [] else if |lines| == 1 then lines[0] else lines[0] + "\n" + JoinLines(lines[1..])
  }

  /** A character other than the newline that no line holds is not in
      the joined text. */
  lemma {:induction false} CharNotInLines(ch: char, lines: seq<string>)
    requires ch != '\n' && forall i :: 0 <= i < |lines| ==> ch !in lines[i]
    ensures ch !in JoinLines(lines)
  {
    if |lines| > 1 {
      CharNotInLines(ch, lines[1..]);
      assert ch !in lines[0];
    } else if |lines| == 1 {
      assert ch !in lines[0];
    }
  }

  /** No character of `a` is a character of `b`. */
  predicate Disjoint(a: string, b: string) {
    forall i :: 0 <= i < |a| ==> a[i] !in b
  }

  /** Python's `w in s` on two strings: `w` is a substring of `s`. */
  function IsSubstring(w: string, s: string): (b: bool)
    ensures b <==> Occurs(s, w)
    decreases |s|
  {
    if StartsWith(s, w) then
      assert OccursAt(s, w, 0);
      true
    else if s == [] then
      false
    else
      var b := IsSubstring(w, s[1..]);
      assert b <==> Occurs(s, w) by { OccursInTail(s, w); }
      b
  }

  /** An occurrence of `w` in `s` after the first position is an occurrence
      in `s[1..]`, and the other way round. */
  lemma OccursInTail(s: string, w: string)
    requires s != [] && !StartsWith(s, w)
    ensures Occurs(s, w) <==> Occurs(s[1..], w)
  {
    if Occurs(s, w) {
      var i :| OccursAt(s, w, i);
      assert i != 0;
      assert s[1..][i - 1..i - 1 + |w|] == s[i..i + |w|];
      assert OccursAt(s[1..], w, i - 1);
    }
    if Occurs(s[1..], w) {
      var i :| OccursAt(s[1..], w, i);
      assert s[1..][i..i + |w|] == s[i + 1..i + 1 + |w|];
      assert OccursAt(s, w, i + 1);
    }
  }

  // ---------------------------------------------------------------------
  // str.replace

  /** `s.replace(pat, rep)`: scan from the left; at an occurrence of `pat`
      emit `rep` and continue after it, otherwise copy one character.
      An empty `pat` matches before every character and at the end. */
  function ReplaceAll(s: string, pat: string, rep: string): string
    decreases |s|
  {
    if |pat| == 0 then
      if |s| == 0 then rep else rep + [s[0]] + ReplaceAll(s[1..], pat, rep)
    else if |s| < |pat| then s
    else if s[..|pat|] == pat then rep + ReplaceAll(s[|pat|..], pat, rep)
    else [s[0]] + ReplaceAll(s[1..], pat, rep)
  }

  /** Text without the pattern is returned unchanged. */
  lemma {:induction false} ReplaceAbsent(s: string, pat: string, rep: string)
    requires |pat| > 0 && !Occurs(s, pat)
    ensures ReplaceAll(s, pat, rep) == s
    decreases |s|
  {
    if |s| >= |pat| {
      assert !OccursAt(s, pat, 0);
      forall i | 0 <= i ensures !OccursAt(s[1..], pat, i) {
        assert !OccursAt(s, pat, i + 1);
        if i + |pat| <= |s[1..]| {
          assert s[1..][i..i + |pat|] == s[i + 1..i + 1 + |pat|];
        }
      }
      ReplaceAbsent(s[1..], pat, rep);
    }
  }

  /** A prefix none of whose characters can start the pattern passes
      through unchanged. */
  lemma {:induction false} ReplaceAfterPlain(pre: string, t: string, pat: string, rep: string)
    requires |pat| > 0
    requires forall i :: 0 <= i < |pre| ==> pre[i] != pat[0]
    ensures ReplaceAll(pre + t, pat, rep) == pre + ReplaceAll(t, pat, rep)
    decreases |pre|
  {
    if pre == [] {
      assert pre + t == t;
    } else {
      var s := pre + t;
      var c := pre[0];
      assert s[0] == c;
      assert s[1..] == pre[1..] + t;
      if |s| < |pat| {
        ReplaceAbsentShort(s, pat, rep);
        ReplaceAbsentShort(t, pat, rep);
      } else {
        assert s[..|pat|] != pat by { assert s[..|pat|][0] == c; }
        assert ReplaceAll(s, pat, rep) == [c] + ReplaceAll(s[1..], pat, rep);
        ReplaceAfterPlain(pre[1..], t, pat, rep);
        var r := ReplaceAll(t, pat, rep);
        calc {
          ReplaceAll(s, pat, rep);
          [c] + (pre[1..] + r);
          ([c] + pre[1..]) + r;
          { assert [c] + pre[1..] == pre; }
          pre + r;
        }
      }
    }
  }

  lemma ReplaceAbsentShort(t: string, pat: string, rep: string)
    requires 0 < |pat| && |t| < |pat|
    ensures ReplaceAll(t, pat, rep) == t
  {
  }

  /** An occurrence at the very start is replaced by `rep`. */
  lemma ReplaceAtStart(pat: string, t: string, rep: string)
    requires |pat| > 0
    ensures ReplaceAll(pat + t, pat, rep) == rep + ReplaceAll(t, pat, rep)
  {
    var s := pat + t;
    assert s[..|pat|] == pat;
    assert s[|pat|..] == t;
  }

  /** A prefix at which no occurrence of the pattern starts passes through
      unchanged. */
  lemma {:induction false} ReplaceAfterNoMatch(pre: string, t: string, pat: string, rep: string)
    requires |pat| > 0
    requires forall i :: 0 <= i < |pre| ==> !OccursAt(pre + t, pat, i)
    ensures ReplaceAll(pre + t, pat, rep) == pre + ReplaceAll(t, pat, rep)
    decreases |pre|
  {
    if pre == [] {
      assert pre + t == t;
    } else {
      var s := pre + t;
      var c := pre[0];
      assert s[0] == c;
      assert s[1..] == pre[1..] + t;
      if |s| < |pat| {
        ReplaceAbsentShort(s, pat, rep);
        ReplaceAbsentShort(t, pat, rep);
      } else {
        assert !OccursAt(s, pat, 0);
        assert s[..|pat|] != pat;
        assert ReplaceAll(s, pat, rep) == [c] + ReplaceAll(s[1..], pat, rep);
        forall i | 0 <= i < |pre[1..]| ensures !OccursAt(pre[1..] + t, pat, i) {
          assert !OccursAt(s, pat, i + 1);
          if i + |pat| <= |pre[1..] + t| {
            assert (pre[1..] + t)[i..i + |pat|] == s[i + 1..i + 1 + |pat|];
          }
        }
        ReplaceAfterNoMatch(pre[1..], t, pat, rep);
        var r := ReplaceAll(t, pat, rep);
        calc {
          ReplaceAll(s, pat, rep);
          [c] + (pre[1..] + r);
          ([c] + pre[1..]) + r;
          { assert [c] + pre[1..] == pre; }
          pre + r;
        }
      }
    }
  }

  /** A character of the pattern at index `t` that occurs neither in `x`
      nor earlier in the pattern anchors it: in `x + pat + y` no occurrence
      of `pat` starts inside `x`. */
  lemma AnchoredStart(x: string, pat: string, y: string, t: nat)
    requires t < |pat| && pat[t] !in x && pat[t] !in pat[..t]
    ensures forall i :: 0 <= i < |x| ==> !OccursAt(x + pat + y, pat, i)
  {
    var s := x + pat + y;
    forall k | t <= k < |x| + t ensures s[k] != pat[t] {
      if k < |x| {
        assert s[k] == x[k];
      } else {
        assert s[k] == pat[k - |x|];
        assert pat[..t][k - |x|] == pat[k - |x|];
      }
    }
    forall i | 0 <= i < |x| ensures !OccursAt(s, pat, i) {
      if i + |pat| <= |s| {
        assert s[i..i + |pat|][t] == s[i + t];
      }
    }
  }

  /** The single anchored occurrence of the pattern in `x + pat + y` is
      the only thing replaced. */
  lemma ReplaceSingle(x: string, pat: string, y: string, rep: string, t: nat)
    requires t < |pat| && pat[t] !in x && pat[t] !in pat[..t]
    requires !Occurs(y, pat)
    ensures ReplaceAll(x + pat + y, pat, rep) == x + rep + y
  {
    AnchoredStart(x, pat, y, t);
    ReplaceFirst(x, pat, y, rep);
  }

  /** The first occurrence of the pattern, with none after it, is the
      only thing replaced. */
  lemma ReplaceFirst(x: string, pat: string, y: string, rep: string)
    requires |pat| > 0
    requires forall i :: 0 <= i < |x| ==> !OccursAt(x + pat + y, pat, i)
    requires !Occurs(y, pat)
    ensures ReplaceAll(x + pat + y, pat, rep) == x + rep + y
  {
    AppendAssoc(x, pat, y);
    ReplaceAfterNoMatch(x, pat + y, pat, rep);
    ReplaceAtStart(pat, y, rep);
    ReplaceAbsent(y, pat, rep);
    AppendAssoc(x, rep, y);
  }

  /** `w` occurs in `s` at `k` and nowhere else. */
  predicate OnlyAt(s: string, w: string, k: int) {
    OccursAt(s, w, k) && forall i :: 0 <= i < |s| && i != k ==> !OccursAt(s, w, i)
  }

  /** Text holding the pattern only where `x` ends meets the conditions
      of `ReplaceFirst`. */
  lemma OnlyAtSplit(x: string, w: string, y: string)
    requires |w| > 0 && OnlyAt(x + w + y, w, |x|)
    ensures forall i :: 0 <= i < |x| ==> !OccursAt(x + w + y, w, i)
    ensures !Occurs(y, w)
  {
    if Occurs(y, w) {
      var j :| OccursAt(y, w, j);
      AppendAssoc(x, w, y);
      OccursExtended(x + w, y, w);
      assert (x + w + y)[|x| + |w| + j..|x| + |w| + j + |w|] == y[j..j + |w|];
      assert OccursAt(x + w + y, w, |x| + |w| + j);
      assert false;
    }
  }

  /** Replacing a middle part `r` whose characters cannot meet the
      pattern's anchor `w[t]`, and whose ends cannot continue the pattern
      on either side of it, leaves every occurrence wholly within `x` or
      wholly within `y`. */
  lemma OccursAcrossSwap(x: string, r: string, y: string, w: string, t: nat, i: int)
    requires t < |w| && r != [] && w[t] !in r && r[0] !in w[t + 1..] && r[|r| - 1] !in w[..t]
    requires OccursAt(x + r + y, w, i)
    ensures i + |w| <= |x| || |x| + |r| <= i
  {
    var s := x + r + y;
    assert forall k :: i <= k < i + |w| ==> s[k] == s[i..i + |w|][k - i] == w[k - i];
    assert forall k :: |x| <= k < |x| + |r| ==> s[k] == r[k - |x|];
    assert forall k :: t < k < |w| ==> w[k] == w[t + 1..][k - t - 1];
    assert forall k :: 0 <= k < t ==> w[k] == w[..t][k];
    assert s[|x|] == r[0] && s[|x| + |r| - 1] == r[|r| - 1];
  }

  /** An occurrence wholly within `x` or wholly within `y` stays one when
      the middle part is exchanged. */
  lemma OccursMoved(x: string, r: string, r2: string, y: string, w: string, i: int)
    requires OccursAt(x + r + y, w, i) && (i + |w| <= |x| || |x| + |r| <= i)
    ensures OccursAt(x + r2 + y, w, if i + |w| <= |x| then i else i - |r| + |r2|)
  {
    if i + |w| <= |x| {
      assert (x + r + y)[i..i + |w|] == x[i..i + |w|] == (x + r2 + y)[i..i + |w|];
    } else {
      var j := i - |x| - |r|;
      assert (x + r + y)[i..i + |w|] == y[j..j + |w|];
      assert (x + r2 + y)[|x| + |r2| + j..|x| + |r2| + j + |w|] == y[j..j + |w|];
    }
  }

  /** A pattern held only at `k`, outside the middle part `r2`, is held
      only at the matching place once `r2` is exchanged for a part `r`
      that cannot meet it. */
  lemma OnlyAtAcrossSwap(x: string, r: string, r2: string, y: string, w: string, t: nat, k: int)
    requires t < |w| && r != [] && w[t] !in r && r[0] !in w[t + 1..] && r[|r| - 1] !in w[..t]
    requires OnlyAt(x + r2 + y, w, k) && (k + |w| <= |x| || |x| + |r2| <= k)
    ensures OnlyAt(x + r + y, w, if k + |w| <= |x| then k else k - |r2| + |r|)
  {
    var k2 := if k + |w| <= |x| then k else k - |r2| + |r|;
    OccursMoved(x, r2, r, y, w, k);
    forall i | 0 <= i && i != k2 ensures !OccursAt(x + r + y, w, i) {
      if OccursAt(x + r + y, w, i) {
        OccursAcrossSwap(x, r, y, w, t, i);
        OccursMoved(x, r, r2, y, w, i);
      }
    }
  }

  /** An occurrence in `t` is still one after a prefix is put before it. */
  lemma OccursAfterPrefix(a: string, t: string, w: string)
    requires Occurs(t, w)
    ensures Occurs(a + t, w)
  {
    var k :| OccursAt(t, w, k);
    assert (a + t)[|a| + k..|a| + k + |w|] == t[k..k + |w|];
    assert OccursAt(a + t, w, |a| + k);
  }

  /** An occurrence in `a` is still one after a suffix is put after it. */
  lemma OccursBeforeSuffix(a: string, t: string, w: string)
    requires Occurs(a, w)
    ensures Occurs(a + t, w)
  {
    var k :| OccursAt(a, w, k);
    assert (a + t)[k..k + |w|] == a[k..k + |w|];
    assert OccursAt(a + t, w, k);
  }

  /** An occurrence at or after `n` is one in the suffix from `n`. */
  lemma OccursInSuffix(s: string, w: string, j: int, n: nat)
    requires OccursAt(s, w, j) && n <= j
    ensures Occurs(s[n..], w)
  {
    assert s[n..][j - n..j - n + |w|] == s[j..j + |w|];
    assert OccursAt(s[n..], w, j - n);
  }

  /** A word that shares no character with the start of the pattern, and
      whose first character is not in the pattern, cannot overlap an
      occurrence of the pattern, so it survives replacement. */
  lemma {:induction false} ReplaceKeepsWord(s: string, pat: string, rep: string, w: string)
    requires |pat| > 0 && |w| > 0 && w[0] !in pat
    requires forall k :: 0 <= k < |w| ==> w[k] != pat[0]
    requires Occurs(s, w)
    ensures Occurs(ReplaceAll(s, pat, rep), w)
    decreases |s|
  {
    var j :| OccursAt(s, w, j);
    assert s[j] == w[0] by { assert s[j..j + |w|][0] == s[j]; }
    var r := ReplaceAll(s, pat, rep);
    if |s| < |pat| {
      assert r == s;
    } else if s[..|pat|] == pat {
      assert forall i :: 0 <= i < |pat| ==> s[i] == pat[i] by {
        forall i | 0 <= i < |pat| ensures s[i] == pat[i] { assert s[..|pat|][i] == s[i]; }
      }
      assert j >= |pat|;
      var rest := s[|pat|..];
      OccursInSuffix(s, w, j, |pat|);
      ReplaceKeepsWord(rest, pat, rep, w);
      var rr := ReplaceAll(rest, pat, rep);
      assert r == rep + rr;
      OccursAfterPrefix(rep, rr, w);
    } else if j == 0 {
      assert s == w + s[|w|..] by { assert s[..|w|] == w; }
      ReplaceAfterPlain(w, s[|w|..], pat, rep);
      assert r[..|w|] == w;
      assert OccursAt(r, w, 0);
    } else {
      OccursInSuffix(s, w, j, 1);
      ReplaceKeepsWord(s[1..], pat, rep, w);
      var rr := ReplaceAll(s[1..], pat, rep);
      assert r == [s[0]] + rr;
      OccursAfterPrefix([s[0]], rr, w);
    }
  }

  /** If the replacement itself contains the pattern, the pattern survives
      the replacement. */
  lemma {:induction false} ReplaceKeepsPattern(s: string, pat: string, rep: string)
    requires |pat| > 0 && Occurs(rep, pat) && Occurs(s, pat)
    ensures Occurs(ReplaceAll(s, pat, rep), pat)
    decreases |s|
  {
    var r := ReplaceAll(s, pat, rep);
    var j :| OccursAt(s, pat, j);
    if s[..|pat|] == pat {
      var rest := ReplaceAll(s[|pat|..], pat, rep);
      assert r == rep + rest;
      OccursBeforeSuffix(rep, rest, pat);
    } else {
      assert j != 0;
      OccursInSuffix(s, pat, j, 1);
      ReplaceKeepsPattern(s[1..], pat, rep);
      var rest := ReplaceAll(s[1..], pat, rep);
      assert r == [s[0]] + rest;
      OccursAfterPrefix([s[0]], rest, pat);
    }
  }

  /** A replacement at least as long as the pattern never shortens. */
  lemma {:induction false} ReplaceNotShorter(s: string, pat: string, rep: string)
    requires |pat| > 0 && |rep| >= |pat|
    ensures |ReplaceAll(s, pat, rep)| >= |s|
    decreases |s|
  {
    if |s| >= |pat| {
      if s[..|pat|] == pat {
        ReplaceNotShorter(s[|pat|..], pat, rep);
      } else {
        ReplaceNotShorter(s[1..], pat, rep);
      }
    }
  }

  /** A longer replacement makes text that contains the pattern grow. */
  lemma {:induction false} ReplaceGrows(s: string, pat: string, rep: string)
    requires |pat| > 0 && |rep| > |pat| && Occurs(s, pat)
    ensures |ReplaceAll(s, pat, rep)| > |s|
    decreases |s|
  {
    var j :| OccursAt(s, pat, j);
    if s[..|pat|] == pat {
      ReplaceNotShorter(s[|pat|..], pat, rep);
    } else {
      assert j != 0;
      assert s[1..][j - 1..j - 1 + |pat|] == s[j..j + |pat|];
      assert OccursAt(s[1..], pat, j - 1);
      ReplaceGrows(s[1..], pat, rep);
    }
  }

  /** A replacement that is longer than the pattern and contains it makes
      `replace` not idempotent on any text that contains the pattern: a
      second application changes the text again. */
  lemma ReplaceNotIdempotent(s: string, pat: string, rep: string)
    requires |pat| > 0 && |rep| > |pat| && Occurs(rep, pat) && Occurs(s, pat)
    ensures ReplaceAll(ReplaceAll(s, pat, rep), pat, rep) != ReplaceAll(s, pat, rep)
  {
    var once := ReplaceAll(s, pat, rep);
    ReplaceKeepsPattern(s, pat, rep);
    ReplaceGrows(once, pat, rep);
  }

  /** Helper for ReplaceRemoves: when the replacement starts with a
      character outside the pattern, a text that does not start with a
      word made of pattern characters does not start with it after
      replacement either. */
  lemma {:induction false} ReplaceKeepsNonPrefix(t: string, w: string, pat: string, rep: string)
    requires |pat| > 0 && |rep| > 0 && rep[0] !in pat
    requires forall i :: 0 <= i < |w| ==> w[i] in pat
    requires !StartsWith(t, w)
    ensures !StartsWith(ReplaceAll(t, pat, rep), w)
    decreases |t|
  {
    var r := ReplaceAll(t, pat, rep);
    if |t| >= |pat| {
      if t[..|pat|] == pat {
        assert r[0] == rep[0];
        assert w[0] in pat;
      } else if t[0] != w[0] {
        assert r[0] == t[0];
      } else {
        assert !StartsWith(t[1..], w[1..]) by {
          if |w| - 1 <= |t[1..]| {
            assert t[..|w|] == [t[0]] + t[1..][..|w| - 1];
            assert w == [w[0]] + w[1..];
          }
        }
        ReplaceKeepsNonPrefix(t[1..], w[1..], pat, rep);
        var rest := ReplaceAll(t[1..], pat, rep);
        assert r == [t[0]] + rest;
        if |w| <= |r| {
          assert r[..|w|] == [t[0]] + rest[..|w| - 1];
          assert w == [w[0]] + w[1..];
        }
      }
    }
  }

  /** With no occurrence in `t` and none starting inside `a`, the pattern
      does not occur in `a + t`. */
  lemma NoOccursPastPrefix(a: string, t: string, pat: string)
    requires !Occurs(t, pat)
    requires forall i :: 0 <= i < |a| ==> !OccursAt(a + t, pat, i)
    ensures !Occurs(a + t, pat)
  {
    forall i | |a| <= i ensures !OccursAt(a + t, pat, i) {
      assert !OccursAt(t, pat, i - |a|);
      if i + |pat| <= |a + t| { assert (a + t)[i..i + |pat|] == t[i - |a|..i - |a| + |pat|]; }
    }
  }

  /** No occurrence of the pattern starts inside a prefix that shares no
      character with it. */
  lemma DisjointPrefixNoStart(a: string, t: string, pat: string)
    requires |pat| > 0 && Disjoint(a, pat)
    ensures forall i :: 0 <= i < |a| ==> !OccursAt(a + t, pat, i)
  {
    assert pat[0] in pat;
    forall i | 0 <= i < |a| ensures !OccursAt(a + t, pat, i) {
      assert (a + t)[i] == a[i];
      if i + |pat| <= |a + t| { assert (a + t)[i..i + |pat|][0] == (a + t)[i]; }
    }
  }

  /** Helper for ReplaceRemoves: a text that does not start with the
      pattern keeps no occurrence at its head after replacement. */
  lemma NoStartAtHead(s: string, pat: string, rep: string)
    requires |pat| > 0 && |rep| > 0 && Disjoint(rep, pat)
    requires |s| >= |pat| && s[..|pat|] != pat
    ensures !OccursAt([s[0]] + ReplaceAll(s[1..], pat, rep), pat, 0)
  {
    var rest := ReplaceAll(s[1..], pat, rep);
    var r := [s[0]] + rest;
    if s[0] == pat[0] {
      assert !StartsWith(s[1..], pat[1..]) by {
        assert s[..|pat|] == [s[0]] + s[1..][..|pat| - 1];
        assert pat == [pat[0]] + pat[1..];
      }
      assert rep[0] !in pat;
      ReplaceKeepsNonPrefix(s[1..], pat[1..], pat, rep);
      if |pat| <= |r| {
        assert r[..|pat|] == [s[0]] + rest[..|pat| - 1];
        assert pat == [pat[0]] + pat[1..];
      }
    } else {
      if |pat| <= |r| { assert r[..|pat|][0] == s[0]; }
    }
  }

  /** A non-empty replacement that shares no character with the pattern
      removes every occurrence: the result contains the pattern nowhere. */
  lemma {:induction false} ReplaceRemoves(s: string, pat: string, rep: string)
    requires |pat| > 0 && |rep| > 0 && Disjoint(rep, pat)
    ensures !Occurs(ReplaceAll(s, pat, rep), pat)
    decreases |s|
  {
    var r := ReplaceAll(s, pat, rep);
    if |s| < |pat| {
      assert r == s;
    } else if s[..|pat|] == pat {
      var rest := ReplaceAll(s[|pat|..], pat, rep);
      ReplaceRemoves(s[|pat|..], pat, rep);
      assert r == rep + rest;
      DisjointPrefixNoStart(rep, rest, pat);
      NoOccursPastPrefix(rep, rest, pat);
    } else {
      var rest := ReplaceAll(s[1..], pat, rep);
      ReplaceRemoves(s[1..], pat, rep);
      assert r == [s[0]] + rest;
      NoStartAtHead(s, pat, rep);
      NoOccursPastPrefix([s[0]], rest, pat);
    }
  }

  // ---------------------------------------------------------------------
  // Single-character replacement and brace doubling

  /** Every `c` in `s` replaced by `t`, every other character kept. */
  function MapChar(s: string, c: char, t: string): string {
    if s == [] then [] else (if s[0] == c then t else [s[0]]) + MapChar(s[1..], c, t)
  }

  lemma {:induction false} ReplaceOneChar(s: string, c: char, t: string)
    ensures ReplaceAll(s, [c], t) == MapChar(s, c, t)
    decreases |s|
  {
    if s != [] {
      assert s[..1] == [s[0]];
      assert s[1..] == s[|[c]|..];
      ReplaceOneChar(s[1..], c, t);
    }
  }

  lemma {:induction false} MapCharConcat(a: string, b: string, c: char, t: string)
    ensures MapChar(a + b, c, t) == MapChar(a, c, t) + MapChar(b, c, t)
    decreases |a|
  {
    if a == [] {
      assert a + b == b;
    } else {
      assert (a + b)[0] == a[0];
      assert (a + b)[1..] == a[1..] + b;
      MapCharConcat(a[1..], b, c, t);
      var h := if a[0] == c then t else [a[0]];
      assert MapChar(a, c, t) == h + MapChar(a[1..], c, t);
      assert MapChar(a + b, c, t) == h + MapChar(a[1..] + b, c, t);
      assert h + (MapChar(a[1..], c, t) + MapChar(b, c, t)) == (h + MapChar(a[1..], c, t)) + MapChar(b, c, t);
    }
  }

  /** Every brace doubled, as Python's `.replace('{', '{{').replace('}', '}}')`
      does to text. */
  function DoubleBraces(s: string): string {
    if s == [] then []
    else (if s[0] == '{' || s[0] == '}' then [s[0], s[0]] else [s[0]]) + DoubleBraces(s[1..])
  }

  /** The chained replace is exactly brace doubling. */
  lemma {:induction false} EscapeIsDoubling(s: string)
    ensures ReplaceAll(ReplaceAll(s, "{", "{{"), "}", "}}") == DoubleBraces(s)
  {
    ReplaceOneChar(s, '{', "{{");
    var once := MapChar(s, '{', "{{");
    ReplaceOneChar(once, '}', "}}");
    MapCharTwice(s);
  }

  lemma {:induction false} MapCharTwice(s: string)
    ensures MapChar(MapChar(s, '{', "{{"), '}', "}}") == DoubleBraces(s)
    decreases |s|
  {
    if s != [] {
      var head := if s[0] == '{' then "{{" else [s[0]];
      assert MapChar(s, '{', "{{") == head + MapChar(s[1..], '{', "{{");
      MapCharConcat(head, MapChar(s[1..], '{', "{{"), '}', "}}");
      MapCharTwice(s[1..]);
      if s[0] == '{' {
        assert MapChar(head, '}', "}}") == "{{";
      } else {
        assert MapChar(head, '}', "}}") == (if s[0] == '}' then "}}" else [s[0]]);
      }
    }
  }

  // ---------------------------------------------------------------------
  // str.format with named fields

  function Prefix(p: string, r: Result<string>): Result<string> {
    match r
    case Ok(t) => Ok(p + t)
    case Err(e) => Err(e)
  }

  function FieldEnd(s: string, i: nat): (j: nat)
    requires i <= |s|
    ensures i <= j <= |s|
    ensures j < |s| ==> s[j] == '{' || s[j] == '}'
    ensures forall k :: i <= k < j ==> s[k] != '{' && s[k] != '}'
    decreases |s| - i
  {
    if i == |s| || s[i] == '{' || s[i] == '}' then i else FieldEnd(s, i + 1)
  }

  /** `s.format(**ctx)`: "{{" and "}}" stand for one brace, "{name}" for
      `ctx[name]`; an unknown name raises KeyError, a lone "}" or an
      unterminated field raises ValueError. */
  function Format(s: string, ctx: map<string, string>): Result<string>
    decreases |s|
  {
    if s == [] then Ok([])
    else if s[0] == '{' then
      if |s| > 1 && s[1] == '{' then Prefix("{", Format(s[2..], ctx))
      else
        var j := FieldEnd(s, 1);
        if j == |s| then Err(ValueError("expected '}' before end of string"))
        else if s[j] == '{' then Err(ValueError("unexpected '{' in field name"))
        else if s[1..j] !in ctx then Err(KeyError(s[1..j]))
        else Prefix(ctx[s[1..j]], Format(s[j + 1..], ctx))
    else if s[0] == '}' then
      if |s| > 1 && s[1] == '}' then Prefix("}", Format(s[2..], ctx))
      else Err(ValueError("Single '}' encountered in format string"))
    else Prefix([s[0]], Format(s[1..], ctx))
  }

  predicate BraceFree(s: string) {
    forall i :: 0 <= i < |s| ==> s[i] != '{' && s[i] != '}'
  }

  /** Text without braces formats to itself, whatever the context. */
  lemma {:induction false} FormatPlainPrefix(p: string, t: string, ctx: map<string, string>)
    requires BraceFree(p)
    ensures Format(p + t, ctx) == Prefix(p, Format(t, ctx))
    decreases |p|
  {
    if p == [] {
      assert p + t == t;
      match Format(t, ctx) {
        case Ok(v) => assert p + v == v;
        case Err(e) =>
      }
    } else {
      assert (p + t)[0] == p[0];
      assert (p + t)[1..] == p[1..] + t;
      FormatPlainPrefix(p[1..], t, ctx);
      assert [p[0]] + p[1..] == p;
      match Format(t, ctx) {
        case Ok(v) => assert [p[0]] + (p[1..] + v) == p + v;
        case Err(e) =>
      }
    }
  }

  lemma FormatPlain(s: string, ctx: map<string, string>)
    requires BraceFree(s)
    ensures Format(s, ctx) == Ok(s)
  {
    FormatPlainPrefix(s, [], ctx);
    assert s + [] == s;
  }

  /** A field "{name}" is replaced by its value, or raises KeyError when the
      context has no such name. */
  lemma FormatField(name: string, t: string, ctx: map<string, string>)
    requires BraceFree(name)
    ensures Format("{" + name + "}" + t, ctx)
         == if name in ctx then Prefix(ctx[name], Format(t, ctx)) else Err(KeyError(name))
  {
    var s := "{" + name + "}" + t;
    assert s[0] == '{';
    assert |s| > 1;
    assert s[1] != '{' by {
      if |name| > 0 { assert s[1] == name[0]; } else { assert s[1] == '}'; }
    }
    assert forall k :: 1 <= k < |name| + 1 ==> s[k] == name[k - 1];
    assert s[|name| + 1] == '}';
    var j := FieldEnd(s, 1);
    assert j == |name| + 1;
    assert s[1..j] == name;
    assert s[j + 1..] == t;
  }

  /** Formatting undoes brace doubling: `format` applied to doubled text
      gives back the original text, and no field is ever substituted. */
  lemma {:induction false} FormatUndoesDoubling(s: string, ctx: map<string, string>)
    ensures Format(DoubleBraces(s), ctx) == Ok(s)
    decreases |s|
  {
    if s != [] {
      var d := DoubleBraces(s);
      FormatUndoesDoubling(s[1..], ctx);
      if s[0] == '{' || s[0] == '}' {
        assert d == [s[0], s[0]] + DoubleBraces(s[1..]);
        assert d[2..] == DoubleBraces(s[1..]);
      } else {
        assert d == [s[0]] + DoubleBraces(s[1..]);
        assert d[1..] == DoubleBraces(s[1..]);
      }
      assert [s[0]] + s[1..] == s;
    }
  }
}
