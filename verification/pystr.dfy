/**
 The handful of Python `str` operations the driver relies on, written out
 exactly: `sep.join(parts)`, `s.split(sep)` (left-to-right, non-overlapping),
 `s.strip()`, `s.replace(c, '')`, plus the occurrence vocabulary used to
 state their properties.
 */
module PyStr {
  import opened Base

  /** The pattern `p` occurs in `s` starting at index `i`. */
  predicate Occurs(s: string, p: string, i: nat) {
    i + |p| <= |s| && s[i..i + |p|] == p
  }

  /** `p in s`. */
  predicate Contains(s: string, p: string) {
    exists i: nat | i <= |s| :: Occurs(s, p, i)
  }

  lemma OccursShift(s: string, p: string, m: nat, k: nat)
    requires m <= |s|
    ensures Occurs(s[m..], p, k) <==> Occurs(s, p, m + k)
  {
    if k + |p| <= |s| - m {
      assert s[m..][k..k + |p|] == s[m + k..m + k + |p|];
    }
  }

  lemma OccursInPrefix(s: string, p: string, n: nat, k: nat)
    requires n <= |s|
    ensures Occurs(s[..n], p, k) <==> k + |p| <= n && Occurs(s, p, k)
  {
    if k + |p| <= n {
      assert s[..n][k..k + |p|] == s[k..k + |p|];
    }
  }

  /** The first index at or after `from` where `p` occurs (`s.find(p, from)`). */
  function Find(s: string, p: string, from: nat): (r: Option<nat>)
    decreases |s| - from
    ensures r.Some? ==> from <= r.value && Occurs(s, p, r.value)
    ensures r.Some? ==> forall k: nat :: from <= k < r.value ==> !Occurs(s, p, k)
    ensures r.None? ==> forall k: nat :: from <= k ==> !Occurs(s, p, k)
  {
    if from + |p| > |s| then None
    else if s[from..from + |p|] == p then Some(from)
    else Find(s, p, from + 1)
  }

  /** `sep.join(parts)`. */
  function Join(parts: seq<string>, sep: string): string
  {
    if |parts| == 0 then ""
    else if |parts| == 1 then parts[0]
    else parts[0] + sep + Join(parts[1..], sep)
  }

  /** Joining two non-empty lists puts exactly one separator between them. */
  lemma {:induction false} JoinConcat(a: seq<string>, b: seq<string>, sep: string)
    requires |a| > 0 && |b| > 0
    ensures Join(a + b, sep) == Join(a, sep) + sep + Join(b, sep)
    decreases |a|
  {
    if |a| == 1 {
      assert (a + b)[0] == a[0];
      assert (a + b)[1..] == b;
    } else {
      assert (a + b)[0] == a[0];
      assert (a + b)[1..] == a[1..] + b;
      JoinConcat(a[1..], b, sep);
    }
  }

  /** Three parts joined: the separator between each neighbouring pair. */
  lemma JoinThree(a: string, b: string, c: string, sep: string)
    ensures Join([a, b, c], sep) == a + sep + b + sep + c
  {
    assert [a, b, c][1..] == [b, c];
    assert [b, c][1..] == [c];
    assert Join([b, c], sep) == b + sep + c;
    assert a + sep + (b + sep + c) == a + sep + b + sep + c;
  }

  /** `s.split(sep)` for a non-empty separator: the pieces between the
      left-to-right, non-overlapping matches of `sep`. Joining them back with
      `sep` gives `s` again. */
  function Split(s: string, sep: string): (r: seq<string>)
    requires sep != []
    decreases |s|
    ensures |r| >= 1
    ensures Join(r, sep) == s
  {
    match Find(s, sep, 0)
    case None => [s]
    case Some(i) =>
      var rest := Split(s[i + |sep|..], sep);
      assert s == s[..i] + sep + s[i + |sep|..];
      [s[..i]] + rest
  }

  /** No piece of a split contains the separator: every match was cut. */
  lemma {:induction false} SplitPiecesFree(s: string, sep: string)
    requires sep != []
    decreases |s|
    ensures forall k :: 0 <= k < |Split(s, sep)| ==> !Contains(Split(s, sep)[k], sep)
  {
    match Find(s, sep, 0)
    case None =>
      assert Split(s, sep) == [s];
    case Some(i) =>
      assert !Contains(s[..i], sep) by {
        forall k: nat ensures !Occurs(s[..i], sep, k) {
          OccursInPrefix(s, sep, i, k);
        }
      }
      SplitPiecesFree(s[i + |sep|..], sep);
      assert Split(s, sep) == [s[..i]] + Split(s[i + |sep|..], sep);
  }

  /** A split produces one piece exactly when the separator does not occur. */
  lemma SplitSingle(s: string, sep: string)
    requires sep != []
    ensures |Split(s, sep)| == 1 <==> Find(s, sep, 0).None?
  {
  }

  /** The start of the last match found by the left-to-right scan that
      `split` performs, if there is one: everything before it is the other
      pieces joined back together. */
  function LastMatch(s: string, p: string): Option<nat>
    requires p != []
  {
    var pieces := Split(s, p);
    if |pieces| == 1 then None else Some(|Join(pieces[..|pieces| - 1], p)|)
  }

  /** A split into at least two pieces is the text up to the last match,
      the separator, and a last piece free of it. */
  lemma SplitAtLast(s: string, p: string)
    requires p != []
    ensures var pieces := Split(s, p);
            |pieces| > 1 ==> s == Join(pieces[..|pieces| - 1], p) + p + pieces[|pieces| - 1]
  {
    var pieces := Split(s, p);
    var n := |pieces|;
    if n > 1 {
      assert pieces == pieces[..n - 1] + [pieces[n - 1]];
      JoinConcat(pieces[..n - 1], [pieces[n - 1]], p);
    }
  }

  /** After the last match, the rest of the text is the last piece. */
  lemma AfterLastMatch(s: string, p: string)
    requires p != [] && |Split(s, p)| > 1
    ensures var pieces := Split(s, p);
            var v := |Join(pieces[..|pieces| - 1], p)|;
            && Occurs(s, p, v)
            && s[v + |p|..] == pieces[|pieces| - 1]
  {
    SplitAtLast(s, p);
  }

  /** A text whose suffix from `m` on does not contain `p` has no match
      starting at or after `m`. */
  lemma NoMatchInSuffix(s: string, p: string, m: nat)
    requires m <= |s| && !Contains(s[m..], p)
    ensures forall k: nat :: m <= k ==> !Occurs(s, p, k)
  {
    forall k: nat | m <= k ensures !Occurs(s, p, k) {
      OccursShift(s, p, m, k - m);
      if k - m > |s| - m {
        assert !Occurs(s[m..], p, k - m);
      }
    }
  }

  /** A suffix equal to a text free of `p` holds no match of `p`. */
  lemma FreeSuffixNoMatch(s: string, p: string, m: nat, rest: string)
    requires m <= |s| && s[m..] == rest && !Contains(rest, p)
    ensures forall k: nat :: m <= k ==> !Occurs(s, p, k)
  {
    NoMatchInSuffix(s, p, m);
  }

  /** In particular the last piece is free of the separator. */
  lemma LastPieceFree(s: string, p: string)
    requires p != []
    ensures !Contains(Split(s, p)[|Split(s, p)| - 1], p)
  {
    SplitPiecesFree(s, p);
  }

  /** No match starts after the last match ends. */
  lemma NoMatchAfterLast(s: string, p: string)
    requires p != [] && |Split(s, p)| > 1
    ensures var pieces := Split(s, p);
            var v := |Join(pieces[..|pieces| - 1], p)|;
            forall k: nat :: v + |p| <= k ==> !Occurs(s, p, k)
  {
    var pieces := Split(s, p);
    var v := |Join(pieces[..|pieces| - 1], p)|;
    AfterLastMatch(s, p);
    LastPieceFree(s, p);
    FreeSuffixNoMatch(s, p, v + |p|, pieces[|pieces| - 1]);
  }

  /** The last match of the scan is a real occurrence, no occurrence starts
      after it ends, and there is none exactly when `p` does not occur. */
  lemma LastMatchSpec(s: string, p: string)
    requires p != []
    ensures LastMatch(s, p).None? <==> !Contains(s, p)
    ensures LastMatch(s, p).Some? ==> Occurs(s, p, LastMatch(s, p).value)
    ensures LastMatch(s, p).Some? ==>
              forall k: nat :: LastMatch(s, p).value + |p| <= k ==> !Occurs(s, p, k)
  {
    var pieces := Split(s, p);
    if |pieces| == 1 {
      LastPieceFree(s, p);
      assert pieces[0] == s;
    } else {
      AfterLastMatch(s, p);
      NoMatchAfterLast(s, p);
    }
  }

  /** `p` overlaps itself: a proper suffix of `p` is also a prefix of it,
      so two occurrences can share characters (as `aa` does in `aaa`). */
  predicate SelfOverlaps(p: string) {
    exists d :: 0 < d < |p| && p[d..] == p[..|p| - d]
  }

  /** Two occurrences less than `|p|` apart overlap, which only a
      self-overlapping `p` allows. */
  lemma OverlappingOccurrences(s: string, p: string, v: nat, k: nat)
    requires v < k < v + |p|
    requires Occurs(s, p, v) && Occurs(s, p, k)
    ensures SelfOverlaps(p)
  {
    var d := k - v;
    assert p[d..] == p[..|p| - d] by {
      forall i | 0 <= i < |p| - d ensures p[d..][i] == p[..|p| - d][i] {
        assert p[d + i] == s[v..v + |p|][d + i] == s[v + d + i];
        assert p[i] == s[k..k + |p|][i] == s[k + i];
      }
    }
  }

  /** For a primer that cannot overlap itself the scan's last match is the
      last occurrence: no occurrence starts after it. */
  lemma LastMatchIsLastOccurrence(s: string, p: string)
    requires p != [] && !SelfOverlaps(p)
    requires LastMatch(s, p).Some?
    ensures forall k: nat :: LastMatch(s, p).value < k ==> !Occurs(s, p, k)
  {
    var v := LastMatch(s, p).value;
    LastMatchSpec(s, p);
    forall k: nat | v < k && Occurs(s, p, k) ensures false {
      if k < v + |p| {
        OverlappingOccurrences(s, p, v, k);
      }
    }
  }

  /** Python's `str.isspace` for a single character: the characters that a
      bare `strip()` removes. */
  predicate IsSpace(c: char) {
    || ('\t' <= c <= '\r')
    || ('\U{1c}' <= c <= '\U{1f}')
    || c == ' ' || c == '\U{85}' || c == '\U{a0}' || c == '\U{1680}'
    || ('\U{2000}' <= c <= '\U{200a}')
    || c == '\U{2028}' || c == '\U{2029}' || c == '\U{202f}' || c == '\U{205f}' || c == '\U{3000}'
  }

  predicate AllSpace(s: string) {
    forall k :: 0 <= k < |s| ==> IsSpace(s[k])
  }

  /** `s.lstrip()`: the suffix of `s` left after dropping leading whitespace. */
  function LStrip(s: string): (r: string)
    decreases |s|
    ensures |r| <= |s| && r == s[|s| - |r|..]
    ensures AllSpace(s[..|s| - |r|])
    ensures r != [] ==> !IsSpace(r[0])
  {
    if s != [] && IsSpace(s[0]) then
      var r := LStrip(s[1..]);
      assert s[..|s| - |r|] == [s[0]] + s[1..][..|s| - 1 - |r|];
      r
    else s
  }

  /** `s.rstrip()`: the prefix of `s` left after dropping trailing whitespace. */
  function RStrip(s: string): (r: string)
    decreases |s|
    ensures |r| <= |s| && r == s[..|r|]
    ensures AllSpace(s[|r|..])
    ensures r != [] ==> !IsSpace(r[|r| - 1])
  {
    if s != [] && IsSpace(s[|s| - 1]) then
      var r := RStrip(s[..|s| - 1]);
      assert s[|r|..] == s[..|s| - 1][|r|..] + [s[|s| - 1]];
      r
    else s
  }

  /** `r` is what `strip()` leaves of `s`: a slice of `s` with only
      whitespace cut on either side and no whitespace at either end. */
  ghost predicate IsStripOf(s: string, r: string) {
    && (r == [] || (!IsSpace(r[0]) && !IsSpace(r[|r| - 1])))
    && exists i, j | 0 <= i <= j <= |s| :: r == s[i..j] && AllSpace(s[..i]) && AllSpace(s[j..])
  }

  /** `s.strip()`. */
  function Strip(s: string): (r: string)
    ensures IsStripOf(s, r)
  {
    StripIsSlice(s);
    RStrip(LStrip(s))
  }

  lemma StripIsSlice(s: string)
    ensures IsStripOf(s, RStrip(LStrip(s)))
  {
    var l := LStrip(s);
    var r := RStrip(l);
    var i := |s| - |l|;
    var j := i + |r|;
    assert l == s[i..];
    assert AllSpace(s[..i]);
    assert r == s[i..j];
    assert AllSpace(s[j..]) by {
      assert s[j..] == l[|r|..];
    }
    if r != [] {
      assert r[0] == l[0];
    }
  }

  /** A string that already has no whitespace at either end is its own strip. */
  lemma StripKeepsTrimmed(s: string)
    requires s == [] || (!IsSpace(s[0]) && !IsSpace(s[|s| - 1]))
    ensures Strip(s) == s
  {
  }

  /** Occurrences of `c` in `s`. */
  function Count(s: string, c: char): nat
  {
    if s == [] then 0 else (if s[0] == c then 1 else 0) + Count(s[1..], c)
  }

  lemma {:induction false} CountConcat(a: string, b: string, c: char)
    ensures Count(a + b, c) == Count(a, c) + Count(b, c)
    decreases |a|
  {
    if a != [] {
      assert (a + b)[0] == a[0];
      assert (a + b)[1..] == a[1..] + b;
      CountConcat(a[1..], b, c);
    } else {
      assert a + b == b;
    }
  }

  lemma {:induction false} CountAbsent(s: string, c: char)
    ensures Count(s, c) == 0 <==> c !in s
    decreases |s|
  {
    if s != [] {
      CountAbsent(s[1..], c);
      assert s == [s[0]] + s[1..];
    }
  }

  /** `s.replace(c, '')`: `s` with every `c` removed, the rest in order. */
  function RemoveChar(s: string, c: char): (r: string)
    decreases |s|
    ensures c !in r
    ensures |r| == |s| - Count(s, c)
    ensures c !in s ==> r == s
  {
    if s == [] then []
    else (if s[0] == c then [] else [s[0]]) + RemoveChar(s[1..], c)
  }

  /** Removal works piecewise, so it commutes with concatenation. */
  lemma {:induction false} RemoveCharConcat(a: string, b: string, c: char)
    ensures RemoveChar(a + b, c) == RemoveChar(a, c) + RemoveChar(b, c)
    decreases |a|
  {
    if a != [] {
      var head := if a[0] == c then [] else [a[0]];
      assert (a + b)[0] == a[0];
      assert (a + b)[1..] == a[1..] + b;
      RemoveCharConcat(a[1..], b, c);
      assert RemoveChar(a + b, c) == head + (RemoveChar(a[1..], c) + RemoveChar(b, c));
      assert RemoveChar(a, c) == head + RemoveChar(a[1..], c);
    } else {
      assert a + b == b;
    }
  }
}
