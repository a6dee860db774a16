/** The removal pass of the pruner over dead receive channels: for every index in
    an ascending list, the last element is copied over it and the slice is cut. */
module SwapRemove {
  import opened Base
  import opened Sequences

  /** One removal; the index must be in bounds. */
  function RemoveAt<T>(s: seq<T>, i: nat): seq<T>
    requires i < |s|
  {
    s[i := s[|s| - 1]][..|s| - 1]
  }

  /** The pass as written, first index first. None is the out-of-range panic. */
  function AscendingPass<T>(s: seq<T>, dead: seq<nat>): Option<seq<T>>
    decreases |dead|
  {
    if dead == [] then Some(s)
    else if dead[0] >= |s| then None
    else AscendingPass(RemoveAt(s, dead[0]), dead[1..])
  }

  /** The same removals, last index first. */
  function DescendingPass<T>(s: seq<T>, dead: seq<nat>): Option<seq<T>>
    decreases |dead|
  {
    if dead == [] then Some(s)
    else if dead[|dead| - 1] >= |s| then None
    else DescendingPass(RemoveAt(s, dead[|dead| - 1]), dead[..|dead| - 1])
  }

  ghost predicate Ascending(dead: seq<nat>) {
    forall i, j :: 0 <= i < j < |dead| ==> dead[i] < dead[j]
  }

  /** The elements at the listed indexes. */
  ghost function Picked<T>(s: seq<T>, dead: seq<nat>): seq<T>
    requires forall i :: 0 <= i < |dead| ==> dead[i] < |s|
  {
    seq(|dead|, i requires 0 <= i < |dead| => s[dead[i]])
  }

  lemma RemoveAtRemoves<T>(s: seq<T>, i: nat)
    requires i < |s|
    ensures multiset(RemoveAt(s, i)) + multiset{s[i]} == multiset(s)
  {
    var n := |s| - 1;
    var t := s[i := s[n]];
    assert multiset(t) == multiset(s) - multiset{s[i]} + multiset{s[n]};
    assert t == t[..n] + [t[n]];
    assert multiset(t) == multiset(t[..n]) + multiset{s[n]};
  }

  /** The pass stays in bounds exactly when the last dead index leaves room for the
      cuts made before it. */
  lemma {:induction false} AscendingInBounds<T>(s: seq<T>, dead: seq<nat>)
    requires Ascending(dead) && dead != []
    ensures AscendingPass(s, dead).Some? <==> dead[|dead| - 1] + |dead| <= |s|
    decreases |dead|
  {
    if |dead| > 1 {
      assert dead[1..][|dead| - 2] == dead[|dead| - 1];
      if dead[0] < |s| {
        AscendingInBounds(RemoveAt(s, dead[0]), dead[1..]);
      }
    } else {
      assert dead[1..] == [];
    }
  }

  lemma OneMorePicked<T>(r: seq<T>, rest: seq<T>, x: T, s': seq<T>, s: seq<T>)
    requires multiset(r) + multiset(rest) == multiset(s') && multiset(s') + multiset{x} == multiset(s)
    ensures multiset(r) + multiset([x] + rest) == multiset(s)
    ensures multiset(r) + multiset(rest + [x]) == multiset(s)
  {
  }

  /** The first removal does not move the later listed elements. */
  lemma FirstPicked<T>(s: seq<T>, dead: seq<nat>)
    requires Ascending(dead) && dead != [] && dead[|dead| - 1] + |dead| <= |s|
    ensures forall i :: 0 <= i < |dead| - 1 ==> dead[1..][i] < |s| - 1
    ensures Picked(s, dead) == [s[dead[0]]] + Picked(RemoveAt(s, dead[0]), dead[1..])
  {
    var s', rest := RemoveAt(s, dead[0]), dead[1..];
    forall i | 0 <= i < |rest| ensures rest[i] < |s'| && s'[rest[i]] == s[dead[i + 1]] {
      assert rest[i] <= dead[|dead| - 1] < |s| - 1;
    }
  }

  /** When it does, exactly the picked elements are gone. */
  lemma {:induction false} AscendingKeepsLive<T>(s: seq<T>, dead: seq<nat>)
    requires Ascending(dead) && AscendingPass(s, dead).Some?
    ensures forall i :: 0 <= i < |dead| ==> dead[i] < |s|
    ensures multiset(AscendingPass(s, dead).value) + multiset(Picked(s, dead)) == multiset(s)
    ensures |AscendingPass(s, dead).value| == |s| - |dead|
    decreases |dead|
  {
    if dead != [] {
      AscendingInBounds(s, dead);
      var s', rest := RemoveAt(s, dead[0]), dead[1..];
      AscendingKeepsLive(s', rest);
      RemoveAtRemoves(s, dead[0]);
      FirstPicked(s, dead);
      OneMorePicked(AscendingPass(s', rest).value, Picked(s', rest), s[dead[0]], s', s);
    }
  }

  /** Last index first, the pass needs no condition. */
  lemma {:induction false} DescendingAlwaysKeepsLive<T>(s: seq<T>, dead: seq<nat>)
    requires Ascending(dead) && forall i :: 0 <= i < |dead| ==> dead[i] < |s|
    ensures DescendingPass(s, dead).Some?
    ensures multiset(DescendingPass(s, dead).value) + multiset(Picked(s, dead)) == multiset(s)
    decreases |dead|
  {
    if dead != [] {
      var k := |dead| - 1;
      var s', rest := RemoveAt(s, dead[k]), dead[..k];
      RemoveAtRemoves(s, dead[k]);
      forall i | 0 <= i < |rest| ensures rest[i] < |s'| && s'[rest[i]] == s[dead[i]] {
        assert dead[i] < dead[k];
      }
      DescendingAlwaysKeepsLive(s', rest);
      assert Picked(s, dead) == Picked(s', rest) + [s[dead[k]]];
      OneMorePicked(DescendingPass(s', rest).value, Picked(s', rest), s[dead[k]], s', s);
    }
  }

  /** What the unlocked scan collects. */
  ghost function DeadIndexes<T>(s: seq<T>, live: T -> bool): (dead: seq<nat>)
    ensures Ascending(dead)
    ensures forall i :: 0 <= i < |dead| ==> dead[i] < |s|
    ensures forall i: nat :: i in dead <==> i < |s| && !live(s[i])
  {
    if s == [] then []
    else
      var n := |s| - 1;
      var front := DeadIndexes(s[..n], live);
      if live(s[n]) then front else front + [n]
  }

  /** One element more: kept if it is live, picked if it is dead. */
  lemma OneMoreElement<T>(front: seq<T>, x: T, live: T -> bool)
    ensures live(x) ==>
              && Keep(front + [x], live) == Keep(front, live) + [x]
              && Picked(front + [x], DeadIndexes(front + [x], live)) == Picked(front, DeadIndexes(front, live))
    ensures !live(x) ==>
              && Keep(front + [x], live) == Keep(front, live)
              && Picked(front + [x], DeadIndexes(front + [x], live)) == Picked(front, DeadIndexes(front, live)) + [x]
  {
    assert (front + [x])[..|front|] == front;
  }

  lemma KeptOne<T>(keep: seq<T>, picked: seq<T>, front: seq<T>, x: T)
    requires multiset(keep) + multiset(picked) == multiset(front)
    ensures multiset(keep + [x]) + multiset(picked) == multiset(front + [x])
  {
  }

  lemma PickedOne<T>(keep: seq<T>, picked: seq<T>, front: seq<T>, x: T)
    requires multiset(keep) + multiset(picked) == multiset(front)
    ensures multiset(keep) + multiset(picked + [x]) == multiset(front + [x])
  {
  }

  lemma {:induction false} KeepAndPick<T>(s: seq<T>, live: T -> bool)
    ensures multiset(Keep(s, live)) + multiset(Picked(s, DeadIndexes(s, live))) == multiset(s)
  {
    if s != [] {
      var front, x := s[..|s| - 1], s[|s| - 1];
      var keep, picked := Keep(front, live), Picked(front, DeadIndexes(front, live));
      KeepAndPick(front, live);
      OneMoreElement(front, x, live);
      assert front + [x] == s;
      if live(x) { KeptOne(keep, picked, front, x); } else { PickedOne(keep, picked, front, x); }
    }
  }

  lemma CancelPicked<T>(r: seq<T>, keep: seq<T>, picked: seq<T>, s: seq<T>, more: seq<T>)
    requires multiset(r) + multiset(picked) == multiset(s + more)
    requires multiset(keep) + multiset(picked) == multiset(s)
    ensures multiset(r) == multiset(keep + more)
  {
    forall x ensures multiset(r)[x] == multiset(keep + more)[x] {
      assert multiset(s + more)[x] == multiset(s)[x] + multiset(more)[x];
      assert (multiset(r) + multiset(picked))[x] == multiset(r)[x] + multiset(picked)[x];
      assert (multiset(keep) + multiset(picked))[x] == multiset(keep)[x] + multiset(picked)[x];
    }
  }

  lemma PickedGoneLiveLeft<T>(r: seq<T>, s: seq<T>, live: T -> bool, more: seq<T>)
    requires multiset(r) + multiset(Picked(s + more, DeadIndexes(s, live))) == multiset(s + more)
    ensures multiset(r) == multiset(Keep(s, live) + more)
  {
    var dead := DeadIndexes(s, live);
    KeepAndPick(s, live);
    assert Picked(s + more, dead) == Picked(s, dead);
    CancelPicked(r, Keep(s, live), Picked(s, dead), s, more);
  }

  /** `live` marks the subscribers of `s` alive at the scan and `more` was appended
      before the locked removal. The pass panics, exactly when the last dead index
      is too close to the end, or leaves the live subscribers and the new ones. */
  lemma PruneKeepsExactlyLive<T>(s: seq<T>, live: T -> bool, more: seq<T>)
    requires DeadIndexes(s, live) != []
    ensures var dead := DeadIndexes(s, live);
            AscendingPass(s + more, dead).Some? <==> dead[|dead| - 1] + |dead| <= |s| + |more|
    ensures AscendingPass(s + more, DeadIndexes(s, live)).Some? ==>
              multiset(AscendingPass(s + more, DeadIndexes(s, live)).value) == multiset(Keep(s, live) + more)
  {
    var dead := DeadIndexes(s, live);
    AscendingInBounds(s + more, dead);
    if AscendingPass(s + more, dead).Some? {
      AscendingKeepsLive(s + more, dead);
      PickedGoneLiveLeft(AscendingPass(s + more, dead).value, s, live, more);
    }
  }

  /** Taken from the last index down, the same removals always leave those. */
  lemma DescendingPruneAlwaysWorks<T>(s: seq<T>, live: T -> bool, more: seq<T>)
    ensures DescendingPass(s + more, DeadIndexes(s, live)).Some?
    ensures multiset(DescendingPass(s + more, DeadIndexes(s, live)).value) == multiset(Keep(s, live) + more)
  {
    var dead := DeadIndexes(s, live);
    DescendingAlwaysKeepsLive(s + more, dead);
    PickedGoneLiveLeft(DescendingPass(s + more, dead).value, s, live, more);
  }
}
