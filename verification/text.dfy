/** String helpers with the semantics of the JavaScript built-ins the program uses:
    `startsWith`, `Array.prototype.join`, `toLowerCase` (ASCII letters only) and a
    global, literal `replace`. */
module Text {

  /** `s.startsWith(p)` */
  predicate StartsWith(s: string, p: string) {
    |p| <= |s| && s[..|p|] == p
  }

  /** `pat` occurs in `s` starting at index `i`. */
  predicate OccursAt(s: string, pat: string, i: int) {
    0 <= i && i + |pat| <= |s| && s[i..i + |pat|] == pat
  }

  /** `parts.join(sep)`: the empty list joins to "", one part joins to itself. */
  function Join(parts: seq<string>, sep: string): string
    decreases |parts|
  {
    if |parts| == 0 then ""
    else if |parts| == 1 then parts[0]
    else parts[0] + sep + Join(parts[1..], sep)
  }

  /** Joining one more part appends the separator and that part, so the parts
      appear in the result in list order. */
  lemma {:induction false} JoinSnoc(parts: seq<string>, last: string, sep: string)
    ensures Join(parts + [last], sep) == if parts == [] then last else Join(parts, sep) + sep + last
    decreases |parts|
  {
    if |parts| <= 1 {
    } else {
      assert (parts + [last])[1..] == parts[1..] + [last];
      JoinSnoc(parts[1..], last, sep);
    }
  }

  function LowerChar(c: char): char {
    if 'A' <= c <= 'Z' then (c as int + 32) as char else c
  }

  /** `toLowerCase` restricted to ASCII letters (every name it is applied to is ASCII). */
  function Lower(s: string): (r: string)
    ensures |r| == |s|
    ensures forall i :: 0 <= i < |s| ==> r[i] == LowerChar(s[i])
  {
    seq(|s|, i requires 0 <= i < |s| => LowerChar(s[i]))
  }

  /** `s.replace(new RegExp(pat, 'g'), rep)` for a pattern without metacharacters and
      a replacement without `$`: scan left to right, replace each occurrence, and
      resume scanning after it (occurrences never overlap, replacements are not rescanned). */
  function ReplaceAll(s: string, pat: string, rep: string): string
    requires |pat| > 0
    decreases |s|
  {
    if |s| < |pat| then s
    else if s[..|pat|] == pat then rep + ReplaceAll(s[|pat|..], pat, rep)
    else [s[0]] + ReplaceAll(s[1..], pat, rep)
  }

  /** Occurrences in the tail `s[1..]` are the occurrences in `s` shifted by one. */
  lemma OccursAtTail(s: string, pat: string, i: nat)
    requires |s| > 0
    ensures OccursAt(s[1..], pat, i) <==> OccursAt(s, pat, i + 1)
  {
    if 0 <= i && i + |pat| <= |s| - 1 {
      assert s[1..][i..i + |pat|] == s[i + 1..i + 1 + |pat|];
    }
  }

  /** Text in which the pattern does not occur is returned unchanged. */
  lemma {:induction false} ReplaceAllAbsent(s: string, pat: string, rep: string)
    requires |pat| > 0
    requires forall i :: !OccursAt(s, pat, i)
    ensures ReplaceAll(s, pat, rep) == s
    decreases |s|
  {
    if |s| >= |pat| {
      assert !OccursAt(s, pat, 0);
      forall i ensures !OccursAt(s[1..], pat, i) {
        if i >= 0 {
          OccursAtTail(s, pat, i);
        }
      }
      ReplaceAllAbsent(s[1..], pat, rep);
    }
  }

  /** Where the pattern does not start at the front, the scan keeps the first
      character and moves on. */
  lemma ReplaceAllSkipsFirst(s: string, pat: string, rep: string)
    requires |pat| > 0 && |s| > 0
    requires !OccursAt(s, pat, 0)
    ensures ReplaceAll(s, pat, rep) == [s[0]] + ReplaceAll(s[1..], pat, rep)
  {
  }

  lemma TailHasNoEarlierOccurrence(s: string, pat: string, i: nat)
    requires 0 < i && |s| > 0
    requires forall j :: 0 <= j < i ==> !OccursAt(s, pat, j)
    ensures forall j :: 0 <= j < i - 1 ==> !OccursAt(s[1..], pat, j)
  {
    forall j | 0 <= j < i - 1 ensures !OccursAt(s[1..], pat, j) {
      OccursAtTail(s, pat, j);
    }
  }

  /** Where the pattern starts at the front, it is replaced and the scan resumes
      after it. */
  lemma ReplaceAllAtFront(s: string, pat: string, rep: string)
    requires |pat| > 0
    requires OccursAt(s, pat, 0)
    ensures ReplaceAll(s, pat, rep) == rep + ReplaceAll(s[|pat|..], pat, rep)
  {
    assert s[..|pat|] == pat;
  }

  lemma ConsSplit(s: string, i: nat, x: string, y: string)
    requires 0 < i <= |s|
    ensures [s[0]] + (s[1..][..i - 1] + x + y) == s[..i] + x + y
  {
    assert [s[0]] + s[1..][..i - 1] == s[..i];
  }

  /** The leftmost occurrence is replaced, and scanning resumes right after it:
      every occurrence the scan meets is replaced, none is skipped. */
  lemma {:induction false} ReplaceAllLeftmost(s: string, pat: string, rep: string, i: nat)
    requires |pat| > 0
    requires OccursAt(s, pat, i)
    requires forall j :: 0 <= j < i ==> !OccursAt(s, pat, j)
    ensures ReplaceAll(s, pat, rep) == s[..i] + rep + ReplaceAll(s[i + |pat|..], pat, rep)
    decreases i
  {
    if i == 0 {
      ReplaceAllAtFront(s, pat, rep);
      assert s[..i] + rep == rep;
    } else {
      var t := s[1..];
      var rest := ReplaceAll(s[i + |pat|..], pat, rep);
      assert ReplaceAll(t, pat, rep) == t[..i - 1] + rep + rest by {
        OccursAtTail(s, pat, i - 1);
        TailHasNoEarlierOccurrence(s, pat, i);
        ReplaceAllLeftmost(t, pat, rep, i - 1);
        assert t[i - 1 + |pat|..] == s[i + |pat|..];
      }
      calc {
        ReplaceAll(s, pat, rep);
      == { ReplaceAllSkipsFirst(s, pat, rep); }
        [s[0]] + ReplaceAll(t, pat, rep);
      == { ConsSplit(s, i, rep, rest); }
        s[..i] + rep + rest;
      }
    }
  }

  /** Occurrences in `s[k..]` are the occurrences in `s` shifted by `k`. */
  lemma OccursAtDrop(s: string, pat: string, k: nat, i: nat)
    requires k <= |s|
    ensures OccursAt(s[k..], pat, i) <==> OccursAt(s, pat, i + k)
  {
    if i + |pat| <= |s| - k {
      assert s[k..][i..i + |pat|] == s[i + k..i + k + |pat|];
    }
  }

  /** No occurrence of `pat` in `a + c` starts inside `a` and ends inside `c`. */
  predicate NoStraddle(a: string, c: string, pat: string) {
    forall i :: 0 <= i < |a| < i + |pat| ==> !OccursAt(a + c, pat, i)
  }

  lemma NoStraddleDrop(a: string, c: string, pat: string, k: nat)
    requires NoStraddle(a, c, pat) && k <= |a|
    ensures NoStraddle(a[k..], c, pat)
  {
    assert (a + c)[k..] == a[k..] + c;
    forall i | 0 <= i < |a[k..]| < i + |pat| ensures !OccursAt(a[k..] + c, pat, i) {
      OccursAtDrop(a + c, pat, k, i);
    }
  }

  /** The front case of `ReplaceAllSplit`: an occurrence at the start lies within `a`. */
  lemma SplitAtFront(a: string, c: string, pat: string, rep: string)
    requires 0 < |pat| <= |a| && OccursAt(a + c, pat, 0)
    requires ReplaceAll(a[|pat|..] + c, pat, rep) == ReplaceAll(a[|pat|..], pat, rep) + ReplaceAll(c, pat, rep)
    ensures ReplaceAll(a + c, pat, rep) == ReplaceAll(a, pat, rep) + ReplaceAll(c, pat, rep)
  {
    assert (a + c)[..|pat|] == a[..|pat|];
    assert (a + c)[|pat|..] == a[|pat|..] + c;
    ReplaceAllAtFront(a + c, pat, rep);
    ReplaceAllAtFront(a, pat, rep);
  }

  /** The skip case of `ReplaceAllSplit`: the first character is kept on both sides. */
  lemma SplitSkipping(a: string, c: string, pat: string, rep: string)
    requires 0 < |pat| <= |a + c| && |a| > 0 && !OccursAt(a + c, pat, 0)
    requires ReplaceAll(a[1..] + c, pat, rep) == ReplaceAll(a[1..], pat, rep) + ReplaceAll(c, pat, rep)
    ensures ReplaceAll(a + c, pat, rep) == ReplaceAll(a, pat, rep) + ReplaceAll(c, pat, rep)
  {
    assert (a + c)[1..] == a[1..] + c;
    ReplaceAllSkipsFirst(a + c, pat, rep);
    if |a| >= |pat| {
      assert a[..|pat|] == (a + c)[..|pat|];
    }
    KeepsFirst(a, pat, rep);
  }

  /** Text that does not start with the pattern keeps its first character. */
  lemma KeepsFirst(a: string, pat: string, rep: string)
    requires 0 < |pat| && |a| > 0 && !OccursAt(a, pat, 0)
    ensures ReplaceAll(a, pat, rep) == [a[0]] + ReplaceAll(a[1..], pat, rep)
  {
    if |a| < |pat| {
      assert a == [a[0]] + a[1..];
    } else {
      ReplaceAllSkipsFirst(a, pat, rep);
    }
  }

  /** Replacing in a concatenation replaces in each part, as long as no occurrence
      crosses the boundary between them. */
  lemma {:induction false} ReplaceAllSplit(a: string, c: string, pat: string, rep: string)
    requires |pat| > 0
    requires NoStraddle(a, c, pat)
    ensures ReplaceAll(a + c, pat, rep) == ReplaceAll(a, pat, rep) + ReplaceAll(c, pat, rep)
    decreases |a|
  {
    if a == [] {
      assert a + c == c;
    } else if |a + c| < |pat| {
      assert ReplaceAll(a, pat, rep) == a;
    } else if OccursAt(a + c, pat, 0) {
      assert |pat| <= |a|;
      NoStraddleDrop(a, c, pat, |pat|);
      ReplaceAllSplit(a[|pat|..], c, pat, rep);
      SplitAtFront(a, c, pat, rep);
    } else {
      NoStraddleDrop(a, c, pat, 1);
      ReplaceAllSplit(a[1..], c, pat, rep);
      SplitSkipping(a, c, pat, rep);
    }
  }
}
