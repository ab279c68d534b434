/** Small value types and sequence operations shared by the model:
    Ruby's `nil`-or-value, "raise or return", `String#start_with?`,
    `String#end_with?`, `String#include?`, `Array#filter` and
    `Array#map { ... }.compact`. */
module Base {

  /** A value or Ruby's `nil`. */
  datatype Option<+T> = None | Some(value: T)

  /** A returned value, or the exception an operation raises. */
  datatype Result<+T, +E> = Ok(value: T) | Err(error: E)

  /** `s.start_with?(prefix)` */
  predicate StartsWith(s: string, prefix: string)
  {
    |prefix| <= |s| && s[..|prefix|] == prefix
  }

  /** `s.end_with?(suffix)` */
  predicate EndsWith(s: string, suffix: string)
  {
    |suffix| <= |s| && s[|s| - |suffix|..] == suffix
  }

  /** `t` occurs in `s` starting at offset `i`. */
  predicate OccursAt(s: string, t: string, i: nat)
    requires i + |t| <= |s|
  {
    s[i..i + |t|] == t
  }

  /** `s.include?(t)`: `t` occurs in `s` at some offset. */
  predicate Contains(s: string, t: string)
  {
    exists i: nat :: i + |t| <= |s| && OccursAt(s, t, i)
  }

  /** `t` cannot occur in a string that lacks one of its characters. */
  lemma MissingCharNotContained(s: string, t: string, j: nat)
    requires j < |t| && t[j] !in s
    ensures !Contains(s, t)
  {
    forall i: nat | i + |t| <= |s|
      ensures !OccursAt(s, t, i)
    {
      assert s[i..i + |t|][j] == s[i + j];
    }
  }

  /** `s.filter { |x| p(x) }` */
  function Filter<T(==,!new)>(p: T -> bool, s: seq<T>): (r: seq<T>)
    ensures |r| <= |s|
    ensures forall i :: 0 <= i < |r| ==> p(r[i])
    ensures forall x :: x in r <==> x in s && p(x)
  {
    if s == [] then []
    else (if p(s[0]) then [s[0]] else []) + Filter(p, s[1..])
  }

  /** `s.map { |x| f(x) }.compact`: keep the non-nil images, in order. */
  function MapCompact<A(==,!new), B(==,!new)>(f: A -> Option<B>, s: seq<A>): (r: seq<B>)
    ensures |r| <= |s|
    ensures forall y :: y in r <==> exists x :: x in s && f(x) == Some(y)
  {
    if s == [] then []
    else (match f(s[0]) case Some(y) => [y] case None => []) + MapCompact(f, s[1..])
  }

  /** Position `idx[k]` of `s` is the origin of `r[k]`, for every `k`. */
  ghost predicate Selects<A, B>(r: seq<B>, s: seq<A>, f: A -> Option<B>, idx: seq<nat>)
  {
    |idx| == |r| && forall k :: 0 <= k < |idx| ==> idx[k] < |s| && f(s[idx[k]]) == Some(r[k])
  }

  ghost predicate Increasing(idx: seq<nat>)
  {
    forall k, m :: 0 <= k < m < |idx| ==> idx[k] < idx[m]
  }

  /** Every position of `s` whose image under `f` is not nil is listed in `idx`. */
  ghost predicate Covers<A, B>(s: seq<A>, f: A -> Option<B>, idx: seq<nat>)
  {
    forall i :: 0 <= i < |s| && f(s[i]).Some? ==> i in idx
  }

  /** `idx` lists, in increasing order, exactly the positions of `s` whose
      image under `f` is not nil, and `r` holds those images in that order:
      `r` is an order-preserving selection of `s` through `f`. */
  ghost predicate Picks<A, B>(r: seq<B>, s: seq<A>, f: A -> Option<B>, idx: seq<nat>)
  {
    Selects(r, s, f, idx) && Increasing(idx) && Covers(s, f, idx)
  }

  /** Every position index of `idx` moved one to the right. */
  function Shift(idx: seq<nat>): (r: seq<nat>)
    ensures |r| == |idx|
    ensures forall k :: 0 <= k < |idx| ==> r[k] == idx[k] + 1
  {
    seq(|idx|, k requires 0 <= k < |idx| => idx[k] + 1)
  }

  lemma ShiftMember(idx: seq<nat>, j: nat)
    requires j in idx
    ensures j + 1 in Shift(idx)
  {
    var k :| 0 <= k < |idx| && idx[k] == j;
    assert Shift(idx)[k] == j + 1;
  }

  lemma SelectsTail<A, B>(r: seq<B>, s: seq<A>, f: A -> Option<B>, idx: seq<nat>)
    requires s != [] && Selects(r, s[1..], f, idx)
    ensures Selects(r, s, f, Shift(idx))
    ensures f(s[0]).Some? ==> Selects([f(s[0]).value] + r, s, f, [0] + Shift(idx))
  {
    var sh := Shift(idx);
    forall k | 0 <= k < |sh|
      ensures sh[k] < |s| && f(s[sh[k]]) == Some(r[k])
    {
      assert s[1..][idx[k]] == s[sh[k]];
    }
    if f(s[0]).Some? {
      var sh' := [0] + sh;
      var r' := [f(s[0]).value] + r;
      forall k | 0 <= k < |sh'|
        ensures sh'[k] < |s| && f(s[sh'[k]]) == Some(r'[k])
      {
        if k > 0 {
          assert sh'[k] == sh[k - 1] && r'[k] == r[k - 1];
        }
      }
    }
  }

  lemma IncreasingTail(idx: seq<nat>)
    requires Increasing(idx)
    ensures Increasing(Shift(idx)) && Increasing([0] + Shift(idx))
  {
    var sh := [0] + Shift(idx);
    forall k, m | 0 <= k < m < |sh|
      ensures sh[k] < sh[m]
    {
      if k > 0 {
        assert sh[k] == idx[k - 1] + 1 && sh[m] == idx[m - 1] + 1;
      }
    }
  }

  lemma CoversTail<A, B>(s: seq<A>, f: A -> Option<B>, idx: seq<nat>)
    requires s != [] && Covers(s[1..], f, idx)
    ensures f(s[0]).None? ==> Covers(s, f, Shift(idx))
    ensures Covers(s, f, [0] + Shift(idx))
  {
    forall i | 1 <= i < |s| && f(s[i]).Some?
      ensures i in Shift(idx)
    {
      assert s[1..][i - 1] == s[i];
      ShiftMember(idx, i - 1);
    }
    var sh := [0] + Shift(idx);
    forall i | 0 <= i < |s| && f(s[i]).Some?
      ensures i in sh
    {
      if i == 0 {
        assert sh[0] == 0;
      } else {
        assert i in Shift(idx);
      }
    }
  }

  /** `map/compact` keeps every non-nil image, drops every nil one, and keeps
      the input order. */
  lemma {:induction false} MapCompactPicks<A(!new), B(!new)>(f: A -> Option<B>, s: seq<A>) returns (idx: seq<nat>)
    ensures Picks(MapCompact(f, s), s, f, idx)
  {
    if s == [] {
      idx := [];
    } else {
      var rest := MapCompactPicks(f, s[1..]);
      SelectsTail(MapCompact(f, s[1..]), s, f, rest);
      IncreasingTail(rest);
      CoversTail(s, f, rest);
      var tail := MapCompact(f, s[1..]);
      if f(s[0]).Some? {
        assert MapCompact(f, s) == [f(s[0]).value] + tail;
        idx := [0] + Shift(rest);
      } else {
        assert MapCompact(f, s) == tail;
        idx := Shift(rest);
      }
    }
  }

  /** The block of `filter` as a `map` block that answers nil for a
      rejected element. */
  function KeepIf<T>(p: T -> bool): T -> Option<T>
  {
    x => if p(x) then Some(x) else None
  }

  /** `filter` is `map/compact` with the element itself for an accepted
      element and nil for a rejected one. */
  lemma {:induction false} FilterIsMapCompact<T(!new)>(p: T -> bool, s: seq<T>)
    ensures Filter(p, s) == MapCompact(KeepIf(p), s)
  {
    if s != [] {
      FilterIsMapCompact(p, s[1..]);
    }
  }

  /** `filter` keeps every occurrence of an accepted element and drops every
      rejected one, in input order: the output is the elements at the
      increasing positions `idx`, which are exactly the accepted positions. */
  lemma FilterPicks<T(!new)>(p: T -> bool, s: seq<T>) returns (idx: seq<nat>)
    ensures Picks(Filter(p, s), s, KeepIf(p), idx)
    ensures |idx| == |Filter(p, s)| && forall k :: 0 <= k < |idx| ==> idx[k] < |s| && Filter(p, s)[k] == s[idx[k]]
  {
    FilterIsMapCompact(p, s);
    idx := MapCompactPicks(KeepIf(p), s);
    forall k | 0 <= k < |idx|
      ensures Filter(p, s)[k] == s[idx[k]]
    {
      assert KeepIf(p)(s[idx[k]]) == Some(Filter(p, s)[k]);
    }
  }

  /** `filter` distributes over concatenation. */
  lemma {:induction false} FilterConcat<T(!new)>(p: T -> bool, a: seq<T>, b: seq<T>)
    ensures Filter(p, a + b) == Filter(p, a) + Filter(p, b)
  {
    if a == [] {
      assert a + b == b;
    } else {
      assert (a + b)[1..] == a[1..] + b;
      FilterConcat(p, a[1..], b);
    }
  }
}
