/** Sequence idioms the log builders share: the spread-into-a-Set union, the
    filter, and the latest index at which a standing property began to stand. */
module Seqs {

  datatype Option<+T> = None | Some(value: T)

  datatype Result<+T, +E> = Success(value: T) | Failure(error: E)

  /** `s` with `x` appended unless it is there already (`Set.add`). */
  function Pushed<T(==)>(s: seq<T>, x: T): seq<T> {
    if x in s then s else s + [x]
  }

  /** `[...new Set(s)]`: the first occurrence of each member, in order. */
  function Dedup<T(==,!new)>(s: seq<T>): (r: seq<T>)
    ensures forall x :: x in r <==> x in s
  {
    if s == [] then []
    else
      assert s == s[..|s| - 1] + [s[|s| - 1]];
      Pushed(Dedup(s[..|s| - 1]), s[|s| - 1])
  }

  lemma DedupPush<T(!new)>(s: seq<T>, x: T)
    ensures Dedup(s + [x]) == Pushed(Dedup(s), x)
  {
    assert (s + [x])[..|s|] == s;
  }

  /** `new Set(s)`, where only membership is asked of it. */
  function SetOf<T(!new)>(s: seq<T>): set<T> {
    set x | x in s
  }

  /** `s.filter(x => !drop.has(x))`. */
  function Without<T(==,!new)>(s: seq<T>, drop: set<T>): (r: seq<T>)
    ensures forall x :: x in r <==> x in s && x !in drop
  {
    if s == [] then []
    else
      assert s == s[..|s| - 1] + [s[|s| - 1]];
      Without(s[..|s| - 1], drop) + (if s[|s| - 1] in drop then [] else [s[|s| - 1]])
  }

  lemma WithoutPush<T(!new)>(s: seq<T>, x: T, drop: set<T>)
    ensures Without(s + [x], drop) == Without(s, drop) + (if x in drop then [] else [x])
  {
    assert (s + [x])[..|s|] == s;
  }

  lemma WithoutAll<T(!new)>(s: seq<T>, drop: set<T>)
    requires forall x :: x in s ==> x in drop
    ensures Without(s, drop) == []
  {
  }

  /** A member pushed onto a deduplicated list shows up among the members not
      dropped exactly when it is new and kept. */
  lemma WithoutDedupPush<T(!new)>(s: seq<T>, x: T, drop: set<T>)
    ensures Without(Dedup(s + [x]), drop) ==
            Without(Dedup(s), drop) + (if x in s || x in drop then [] else [x])
  {
    DedupPush(s, x);
    if x !in s { WithoutPush(Dedup(s), x, drop); }
  }

  lemma {:induction false} WithoutLength<T(!new)>(s: seq<T>, drop: set<T>)
    ensures |Without(s, drop)| <= |s|
    ensures |Without(s, drop)| == |s| <==> forall x :: x in s ==> x !in drop
  {
    if s != [] {
      var rest, last := s[..|s| - 1], s[|s| - 1];
      assert s == rest + [last];
      WithoutLength(rest, drop);
    }
  }

  lemma {:induction false} DedupFirst<T(!new)>(s: seq<T>)
    requires s != []
    ensures Dedup(s) != [] && Dedup(s)[0] == s[0]
  {
    if 1 < |s| { DedupFirst(s[..|s| - 1]); }
  }

  lemma {:induction false} DedupDistinct<T(!new)>(s: seq<T>)
    ensures forall i, j :: 0 <= i < j < |Dedup(s)| ==> Dedup(s)[i] != Dedup(s)[j]
  {
    if s != [] {
      var rest := s[..|s| - 1];
      DedupDistinct(rest);
      assert forall i :: 0 <= i < |Dedup(rest)| ==> Dedup(rest)[i] in Dedup(rest);
    }
  }

  lemma {:induction false} WithoutDistinct<T(!new)>(s: seq<T>, drop: set<T>)
    requires forall i, j :: 0 <= i < j < |s| ==> s[i] != s[j]
    ensures forall i, j :: 0 <= i < j < |Without(s, drop)| ==> Without(s, drop)[i] != Without(s, drop)[j]
  {
    if s != [] {
      var rest, last := s[..|s| - 1], s[|s| - 1];
      WithoutDistinct(rest, drop);
      assert forall i :: 0 <= i < |Without(rest, drop)| ==> Without(rest, drop)[i] in Without(rest, drop);
      assert last !in rest;
    }
  }

  lemma {:induction false} DistinctIsDeduped<T(!new)>(s: seq<T>)
    requires forall i, j :: 0 <= i < j < |s| ==> s[i] != s[j]
    ensures Dedup(s) == s
  {
    if s != [] {
      var rest, last := s[..|s| - 1], s[|s| - 1];
      DistinctIsDeduped(rest);
      assert s == rest + [last];
      assert last !in rest;
    }
  }

  lemma PushKept<T(!new)>(s: seq<T>, x: T, drop: set<T>)
    requires x !in s && x !in drop
    ensures Without(Dedup(s + [x]), drop) == Without(Dedup(s), drop) + [x]
  {
    WithoutDedupPush(s, x, drop);
  }

  lemma PushLost<T(!new)>(s: seq<T>, x: T, drop: set<T>)
    requires x in s || x in drop
    ensures Without(Dedup(s + [x]), drop) == Without(Dedup(s), drop)
  {
    WithoutDedupPush(s, x, drop);
  }

  /** Two new members pushed in a row stay side by side among the kept ones,
      whatever is pushed after them. */
  lemma PairStaysTogether<T(!new)>(base: seq<T>, u: T, s: T, n: T, drop: set<T>)
    requires u !in base && s !in base && u != s && u !in drop && s !in drop
    ensures Without(Dedup(base), drop) + [u] + [s] <= Without(Dedup(base + [u] + [s] + [n]), drop)
  {
    PushKept(base, u, drop);
    PushKept(base + [u], s, drop);
    WithoutDedupPush(base + [u] + [s], n, drop);
  }

  /** Where the pair shows up among the kept ones. */
  lemma PairPosition<T(!new)>(base: seq<T>, u: T, s: T, n: T, drop: set<T>) returns (kept: seq<T>, k: int)
    requires u !in base && s !in base && u != s && u !in drop && s !in drop
    ensures kept == Without(Dedup(base + [u, s, n]), drop)
    ensures 0 <= k < |kept| - 1 && kept[k] == u && kept[k + 1] == s && u !in kept[..k]
  {
    var first := Without(Dedup(base), drop);
    kept, k := Without(Dedup(base + [u, s, n]), drop), |first|;
    AppendThree(base, u, s, n);
    PairStaysTogether(base, u, s, n, drop);
    PairInPrefix(first, u, s, kept);
  }

  lemma PairInPrefix<T(!new)>(first: seq<T>, u: T, s: T, whole: seq<T>)
    requires first + [u] + [s] <= whole
    ensures |first| + 1 < |whole| && whole[|first|] == u && whole[|first| + 1] == s && whole[..|first|] == first
  {
    var part := first + [u] + [s];
    assert part[|first|] == u && part[|first| + 1] == s;
    assert whole[..|first|] == part[..|first|];
  }

  /** Of three pushes the middle one's member stands already: the other two are
      all that shows up. */
  lemma AlternateStaysTogether<T(!new)>(base: seq<T>, u: T, s: T, n: T, drop: set<T>)
    requires u !in base && s in base && n !in base && u != n && u !in drop && n !in drop
    requires Without(Dedup(base), drop) == []
    ensures Without(Dedup(base + [u] + [s] + [n]), drop) == [u] + [n]
  {
    PushKept(base, u, drop);
    PushLost(base + [u], s, drop);
    PushKept(base + [u] + [s], n, drop);
    assert Without(Dedup(base), drop) + [u] == [u];
  }

  /** Of three pushes the last two's members stand already: the first is all that
      shows up. */
  lemma OnlyFirstShows<T(!new)>(base: seq<T>, u: T, s: T, n: T, drop: set<T>)
    requires u !in base && s in base && n in base && u !in drop
    requires Without(Dedup(base), drop) == []
    ensures Without(Dedup(base + [u] + [s] + [n]), drop) == [u]
  {
    PushKept(base, u, drop);
    PushLost(base + [u], s, drop);
    PushLost(base + [u] + [s], n, drop);
  }

  lemma SecondOfTwo<T(!new)>(u: T, n: T, drop: set<T>)
    requires u in drop && n !in drop
    ensures Dedup(Without([u] + [n], drop)) == [n]
  {
    WithoutPush([u], n, drop);
    WithoutAll([u], drop);
    assert Without([u] + [n], drop) == [] + [n];
    DedupPush([], n);
  }

  lemma NoneOfTwo<T(!new)>(u: T, n: T, drop: set<T>)
    requires u in drop && n in drop
    ensures Dedup(Without([u], drop)) == [] && Dedup(Without([u] + [n], drop)) == []
  {
    WithoutAll([u], drop);
    WithoutAll([u] + [n], drop);
  }

  lemma AppendThree<T>(base: seq<T>, u: T, s: T, n: T)
    ensures base + [u, s, n] == base + [u] + [s] + [n]
  {
  }

  /** The first index of `x`, or -1 (`Array.indexOf`). */
  function IndexOf<T(==)>(s: seq<T>, x: T): (i: int)
    ensures -1 <= i < |s|
    ensures i == -1 <==> x !in s
    ensures 0 <= i ==> s[i] == x && forall k :: 0 <= k < i ==> s[k] != x
  {
    if s == [] then -1
    else if s[0] == x then 0
    else
      var rest := IndexOf(s[1..], x);
      if rest == -1 then -1 else rest + 1
  }

  /** The latest index at or below `i` where the flag stands and did not stand
      one entry earlier; -1 when there is none. */
  function LatestRise(flags: seq<bool>, i: int): (r: int)
    requires -1 <= i < |flags|
    ensures -1 <= r <= i
    decreases i + 1
  {
    if i < 0 then -1
    else if flags[i] && (i == 0 || !flags[i - 1]) then i
    else LatestRise(flags, i - 1)
  }

  /** When the flag stands at `i`, the rise is the start of the run that
      reaches `i`, and no other index is. */
  lemma {:induction false} RiseStartsTheRun(flags: seq<bool>, i: nat)
    requires i < |flags| && flags[i]
    ensures var r := LatestRise(flags, i);
            0 <= r && (forall j :: r <= j <= i ==> flags[j]) && (r == 0 || !flags[r - 1])
  {
    if 0 < i && flags[i - 1] {
      RiseStartsTheRun(flags, i - 1);
    }
  }

  lemma {:induction false} RiseIsUnique(flags: seq<bool>, i: nat, r: nat)
    requires r <= i < |flags|
    requires forall j :: r <= j <= i ==> flags[j]
    requires r == 0 || !flags[r - 1]
    ensures LatestRise(flags, i) == r
  {
    if r < i {
      RiseIsUnique(flags, i - 1, r);
    }
  }

  lemma RiseAtLast(flags: seq<bool>)
    requires 2 <= |flags| && flags[|flags| - 1] && !flags[|flags| - 2]
    ensures LatestRise(flags, |flags| - 1) == |flags| - 1
  {
  }

  lemma RiseBeforeLast(flags: seq<bool>)
    requires 3 <= |flags| && flags[|flags| - 1] && flags[|flags| - 2] && !flags[|flags| - 3]
    ensures LatestRise(flags, |flags| - 1) == |flags| - 2
  {
  }

  /** The indices of the true flags, ascending. */
  function Where(flags: seq<bool>): seq<nat> {
    if flags == [] then []
    else Where(flags[..|flags| - 1]) + (if flags[|flags| - 1] then [|flags| - 1] else [])
  }

  ghost predicate Ascending(at: seq<nat>) {
    forall j, k :: 0 <= j < k < |at| ==> at[j] < at[k]
  }

  lemma {:induction false} WhereIs(flags: seq<bool>)
    ensures Ascending(Where(flags)) && forall k :: 0 <= k < |Where(flags)| ==> Where(flags)[k] < |flags|
    ensures forall i: nat :: i in Where(flags) <==> i < |flags| && flags[i]
  {
    if flags != [] { WhereIs(flags[..|flags| - 1]); }
  }

  /** `after` is what stands in `before` at the indices `at`, in their order. */
  ghost predicate Keeps<T>(before: seq<T>, after: seq<T>, at: seq<nat>) {
    && |after| == |at| && Ascending(at)
    && forall k :: 0 <= k < |at| ==> at[k] < |before| && after[k] == before[at[k]]
  }

  /** Those indices one place on, and the place before them if it is kept too. */
  function Onward(keep: bool, at: seq<nat>): (r: seq<nat>)
    ensures |r| == |at| + (if keep then 1 else 0)
    ensures forall k :: 0 <= k < |at| ==> r[|r| - |at| + k] == at[k] + 1
  {
    (if keep then [0] else []) + seq(|at|, k requires 0 <= k < |at| => at[k] + 1)
  }

  lemma KeepsOnward<T>(head: T, tail: seq<T>, after: seq<T>, keep: bool, at: seq<nat>)
    requires Keeps(tail, after, at)
    ensures Keeps([head] + tail, (if keep then [head] else []) + after, Onward(keep, at))
  {
  }

  lemma MovedMember(at: seq<nat>, moved: seq<nat>, i: nat)
    requires |moved| == |at| && forall k :: 0 <= k < |at| ==> moved[k] == at[k] + 1
    ensures i in moved <==> 0 < i && i - 1 in at
  {
    if i in moved {
      var k :| 0 <= k < |moved| && moved[k] == i;
      assert at[k] == i - 1;
    }
    if 0 < i && i - 1 in at {
      var k :| 0 <= k < |at| && at[k] == i - 1;
      assert moved[k] == i;
    }
  }

  lemma OnwardMember(keep: bool, at: seq<nat>, i: nat)
    ensures i in Onward(keep, at) <==> if i == 0 then keep else i - 1 in at
  {
    var moved: seq<nat> := Onward(false, at);
    MovedMember(at, moved, i);
    assert Onward(keep, at) == (if keep then [0] else []) + moved;
  }
}
