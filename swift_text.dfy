/**
 * The Foundation string operations that `injectScriptIntoHTML` relies on:
 * `contains` and `replacingOccurrences(of:with:)`, which scans left to right
 * and replaces non-overlapping occurrences. `Split` and `Join` are the
 * reference view of a replacement: the text between the occurrences stays,
 * only the separators change.
 */
module SwiftText {

  predicate HasPrefix(s: string, p: string) {
    |p| <= |s| && s[..|p|] == p
  }

  /** `s.contains(p)`: `p` occurs at some position of `s`. */
  predicate Contains(s: string, p: string) {
    exists i :: 0 <= i <= |s| && HasPrefix(s[i..], p)
  }

  /** `s.replacingOccurrences(of: target, with: replacement)`; an empty target changes nothing. */
  function ReplacingOccurrences(s: string, target: string, replacement: string): string
    decreases |s|
  {
    if |target| == 0 || |s| == 0 then s
    else if HasPrefix(s, target) then replacement + ReplacingOccurrences(s[|target|..], target, replacement)
    else [s[0]] + ReplacingOccurrences(s[1..], target, replacement)
  }

  /** The number of non-overlapping occurrences of `target` found by a left-to-right scan. */
  function Occurrences(s: string, target: string): nat
    requires |target| > 0
    decreases |s|
  {
    if |s| == 0 then 0
    else if HasPrefix(s, target) then 1 + Occurrences(s[|target|..], target)
    else Occurrences(s[1..], target)
  }

  /** The pieces of `s` between the occurrences of `sep`, as the same scan finds them. */
  function Split(s: string, sep: string): (pieces: seq<string>)
    requires |sep| > 0
    ensures |pieces| == Occurrences(s, sep) + 1
    decreases |s|
  {
    if |s| == 0 then [""]
    else if HasPrefix(s, sep) then [""] + Split(s[|sep|..], sep)
    else
      var rest := Split(s[1..], sep);
      [[s[0]] + rest[0]] + rest[1..]
  }

  /** The pieces glued together with `sep` between neighbours. */
  function Join(pieces: seq<string>, sep: string): string
    decreases |pieces|
  {
    if |pieces| == 0 then ""
    else if |pieces| == 1 then pieces[0]
    else pieces[0] + sep + Join(pieces[1..], sep)
  }

  lemma JoinConsHead(x: string, y: string, rest: seq<string>, sep: string)
    ensures Join([x + y] + rest, sep) == x + Join([y] + rest, sep)
  {
    if rest != [] {
      assert ([x + y] + rest)[1..] == rest;
      assert ([y] + rest)[1..] == rest;
    }
  }

  lemma JoinConsEmpty(rest: seq<string>, sep: string)
    requires |rest| >= 1
    ensures Join([""] + rest, sep) == sep + Join(rest, sep)
  {
    assert ([""] + rest)[1..] == rest;
  }

  /** Splitting at `sep` and joining with `sep` gives back the original string. */
  lemma {:induction false} JoinSplit(s: string, sep: string)
    requires |sep| > 0
    ensures Join(Split(s, sep), sep) == s
    decreases |s|
  {
    if |s| == 0 {
    } else if HasPrefix(s, sep) {
      JoinSplit(s[|sep|..], sep);
      JoinConsEmpty(Split(s[|sep|..], sep), sep);
      assert s == sep + s[|sep|..];
    } else {
      JoinSplit(s[1..], sep);
      var rest := Split(s[1..], sep);
      JoinConsHead([s[0]], rest[0], rest[1..], sep);
      assert [rest[0]] + rest[1..] == rest;
      assert s == [s[0]] + s[1..];
    }
  }

  /** Replacing every occurrence is joining the same pieces with the replacement. */
  lemma {:induction false} ReplacingIsJoin(s: string, target: string, replacement: string)
    requires |target| > 0
    ensures ReplacingOccurrences(s, target, replacement) == Join(Split(s, target), replacement)
    decreases |s|
  {
    if |s| == 0 {
    } else if HasPrefix(s, target) {
      ReplacingIsJoin(s[|target|..], target, replacement);
      JoinConsEmpty(Split(s[|target|..], target), replacement);
    } else {
      ReplacingIsJoin(s[1..], target, replacement);
      var rest := Split(s[1..], target);
      JoinConsHead([s[0]], rest[0], rest[1..], replacement);
      assert [rest[0]] + rest[1..] == rest;
    }
  }

  /** Each replaced occurrence changes the length by the difference of the two lengths. */
  lemma {:induction false} ReplacingLength(s: string, target: string, replacement: string)
    requires |target| > 0
    ensures |ReplacingOccurrences(s, target, replacement)|
         == |s| + Occurrences(s, target) * (|replacement| - |target|)
    decreases |s|
  {
    var d := |replacement| - |target|;
    if |s| == 0 {
    } else if HasPrefix(s, target) {
      var tail := s[|target|..];
      ReplacingLength(tail, target, replacement);
      var k := Occurrences(tail, target);
      assert Occurrences(s, target) == k + 1;
      assert |ReplacingOccurrences(s, target, replacement)|
          == |replacement| + |ReplacingOccurrences(tail, target, replacement)|;
      assert |s| == |target| + |tail|;
      MultiplySuccessor(k, d);
    } else {
      ReplacingLength(s[1..], target, replacement);
    }
  }

  lemma MultiplySuccessor(k: int, d: int)
    ensures (k + 1) * d == k * d + d
  {
  }

  /** `contains` holds exactly when the scan finds at least one occurrence. */
  lemma {:induction false} ContainsIffOccurs(s: string, target: string)
    requires |target| > 0
    ensures Contains(s, target) <==> Occurrences(s, target) > 0
    decreases |s|
  {
    if |s| == 0 {
    } else if HasPrefix(s, target) {
      assert s[0..] == s;
    } else {
      ContainsIffOccurs(s[1..], target);
      if Contains(s, target) {
        var i :| 0 <= i <= |s| && HasPrefix(s[i..], target);
        assert i != 0 by { assert s[0..] == s; }
        assert s[i..] == s[1..][i - 1..];
      }
      if Contains(s[1..], target) {
        var j :| 0 <= j <= |s[1..]| && HasPrefix(s[1..][j..], target);
        assert s[1..][j..] == s[j + 1..];
      }
    }
  }

  /** The first piece of a split is a prefix of the string. */
  lemma {:induction false} SplitHeadIsPrefix(s: string, sep: string)
    requires |sep| > 0
    ensures HasPrefix(s, Split(s, sep)[0])
    decreases |s|
  {
    if |s| == 0 || HasPrefix(s, sep) {
    } else {
      SplitHeadIsPrefix(s[1..], sep);
      var head := Split(s[1..], sep)[0];
      assert s[..|head| + 1] == [s[0]] + s[1..][..|head|];
    }
  }

  /** No piece of a split contains the separator: the scan found every occurrence. */
  lemma {:induction false} SplitPiecesAvoidSeparator(s: string, sep: string)
    requires |sep| > 0
    ensures forall k :: 0 <= k < |Split(s, sep)| ==> !Contains(Split(s, sep)[k], sep)
    decreases |s|
  {
    if |s| == 0 {
      assert !HasPrefix("", sep);
    } else if HasPrefix(s, sep) {
      SplitPiecesAvoidSeparator(s[|sep|..], sep);
      var rest := Split(s[|sep|..], sep);
      assert !HasPrefix("", sep);
      forall k | 0 < k < |Split(s, sep)|
        ensures !Contains(Split(s, sep)[k], sep)
      {
        assert Split(s, sep)[k] == rest[k - 1];
      }
    } else {
      SplitPiecesAvoidSeparator(s[1..], sep);
      SplitHeadIsPrefix(s[1..], sep);
      var rest := Split(s[1..], sep);
      var head := [s[0]] + rest[0];
      forall i | 0 <= i <= |head|
        ensures !HasPrefix(head[i..], sep)
      {
        if i == 0 {
          assert s[..|head|] == head;
        } else {
          assert head[i..] == rest[0][i - 1..];
        }
      }
      forall k | 0 < k < |Split(s, sep)|
        ensures !Contains(Split(s, sep)[k], sep)
      {
        assert Split(s, sep)[k] == rest[k];
      }
    }
  }

  // ---------------------------------------------------------------------
  // Undoing a replacement

  /** No occurrence of `target` starts inside `p` when `p` is directly followed by `target`. */
  predicate ClearBefore(p: string, target: string) {
    forall k :: 0 <= k < |p| ==> !HasPrefix((p + target)[k..], target)
  }

  /** A text that lacks `b` lacks every string ending in `b`. */
  lemma ContainsOfSuffix(s: string, a: string, b: string)
    ensures !Contains(s, b) ==> !Contains(s, a + b)
  {
    if Contains(s, a + b) {
      var i :| 0 <= i <= |s| && HasPrefix(s[i..], a + b);
      assert s[i + |a|..][..|b|] == (a + b)[|a|..];
      assert HasPrefix(s[i + |a|..], b);
    }
  }

  /** A prefix in which no occurrence starts is copied unchanged. */
  lemma {:induction false} ReplacingSkipsPrefix(p: string, rest: string, target: string, replacement: string)
    requires |target| > 0
    requires forall k :: 0 <= k < |p| ==> !HasPrefix((p + rest)[k..], target)
    ensures ReplacingOccurrences(p + rest, target, replacement) == p + ReplacingOccurrences(rest, target, replacement)
    decreases |p|
  {
    if |p| == 0 {
      assert p + rest == rest;
    } else {
      var w := p + rest;
      assert w[0..] == w;
      assert w[1..] == p[1..] + rest;
      forall k | 0 <= k < |p[1..]|
        ensures !HasPrefix((p[1..] + rest)[k..], target)
      {
        assert (p[1..] + rest)[k..] == w[k + 1..];
      }
      ReplacingSkipsPrefix(p[1..], rest, target, replacement);
      assert [w[0]] + (p[1..] + ReplacingOccurrences(rest, target, replacement))
          == p + ReplacingOccurrences(rest, target, replacement);
    }
  }

  /** An occurrence at the front is replaced and the scan resumes after it. */
  lemma ReplacingAtMatch(rest: string, target: string, replacement: string)
    requires |target| > 0
    ensures ReplacingOccurrences(target + rest, target, replacement)
         == replacement + ReplacingOccurrences(rest, target, replacement)
  {
    assert (target + rest)[..|target|] == target;
    assert (target + rest)[|target|..] == rest;
  }

  /** Only the first `|target|` characters after `k` decide whether an occurrence starts at `k`. */
  lemma MatchWindow(p: string, target: string, tail: string, k: int)
    requires 0 <= k < |p|
    ensures HasPrefix((p + (target + tail))[k..], target) <==> HasPrefix((p + target)[k..], target)
  {
    var long := p + (target + tail);
    var short := p + target;
    assert long[k..][..|target|] == short[k..][..|target|] by {
      forall j | k <= j < k + |target|
        ensures long[j] == short[j]
      {
      }
    }
  }

  /**
   * When the only occurrences of `target` in the joined text are the joints
   * themselves, replacing `target` changes exactly the joints.
   */
  lemma {:induction false} ReplacingJoin(pieces: seq<string>, target: string, replacement: string)
    requires |target| > 0 && |pieces| >= 1
    requires forall i :: 0 <= i < |pieces| - 1 ==> ClearBefore(pieces[i], target)
    requires !Contains(pieces[|pieces| - 1], target)
    ensures ReplacingOccurrences(Join(pieces, target), target, replacement) == Join(pieces, replacement)
    decreases |pieces|
  {
    var p := pieces[0];
    if |pieces| == 1 {
      forall k | 0 <= k < |p|
        ensures !HasPrefix((p + "")[k..], target)
      {
        assert p + "" == p;
      }
      ReplacingSkipsPrefix(p, "", target, replacement);
      assert p + "" == p;
    } else {
      var tail := Join(pieces[1..], target);
      assert Join(pieces, target) == p + (target + tail);
      forall k | 0 <= k < |p|
        ensures !HasPrefix((p + (target + tail))[k..], target)
      {
        MatchWindow(p, target, tail, k);
      }
      ReplacingSkipsPrefix(p, target + tail, target, replacement);
      ReplacingAtMatch(tail, target, replacement);
      ReplacingJoin(pieces[1..], target, replacement);
    }
  }
}
