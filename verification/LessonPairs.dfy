/**
 * Lesson grouping: a union-find over catalog positions whose roots are least indexes. The groups are the connected
 * components of "either names the other in compare".
 */
module LessonPairs {
  import opened Outcomes

  datatype Lesson = Lesson(id: string, compare: string)

  // ---------- The relation ----------

  /** `index.get(lesson.compare)`: the last lesson with that id. */
  function Partner(lessons: seq<Lesson>, id: string): Option<nat> {
    if lessons == [] then None
    else if lessons[|lessons| - 1].id == id then Some(|lessons| - 1)
    else Partner(lessons[..|lessons| - 1], id)
  }

  predicate Names(lessons: seq<Lesson>, i: nat, j: nat) {
    i < |lessons| && j < |lessons| && Partner(lessons, lessons[i].compare) == Some(j)
  }

  predicate Adjacent(lessons: seq<Lesson>, i: nat, j: nat) { Names(lessons, i, j) || Names(lessons, j, i) }

  predicate IsWalk(lessons: seq<Lesson>, walk: seq<nat>) {
    walk != [] && forall k :: 0 <= k < |walk| - 1 ==> Adjacent(lessons, walk[k], walk[k + 1])
  }

  ghost predicate Connected(lessons: seq<Lesson>, i: nat, j: nat) {
    exists walk :: IsWalk(lessons, walk) && walk[0] == i && walk[|walk| - 1] == j
  }

  lemma ConnectedToItself(lessons: seq<Lesson>, i: nat)
    ensures Connected(lessons, i, i)
  {
    assert IsWalk(lessons, [i]) && [i][0] == i;
  }

  lemma ConnectedBack(lessons: seq<Lesson>, i: nat, j: nat)
    requires Connected(lessons, i, j)
    ensures Connected(lessons, j, i)
  {
    var walk :| IsWalk(lessons, walk) && walk[0] == i && walk[|walk| - 1] == j;
    var back := seq(|walk|, k requires 0 <= k < |walk| => walk[|walk| - 1 - k]);
    forall k | 0 <= k < |back| - 1 ensures Adjacent(lessons, back[k], back[k + 1]) {
      var m := |walk| - 2 - k;
      assert Adjacent(lessons, walk[m], walk[m + 1]);
    }
    assert IsWalk(lessons, back);
  }

  lemma ConnectedThrough(lessons: seq<Lesson>, i: nat, j: nat, k: nat)
    requires Connected(lessons, i, j) && Connected(lessons, j, k)
    ensures Connected(lessons, i, k)
  {
    var a :| IsWalk(lessons, a) && a[0] == i && a[|a| - 1] == j;
    var b :| IsWalk(lessons, b) && b[0] == j && b[|b| - 1] == k;
    var walk := a + b[1..];
    forall m | 0 <= m < |walk| - 1 ensures Adjacent(lessons, walk[m], walk[m + 1]) {
      if m + 1 < |a| {
        assert Adjacent(lessons, a[m], a[m + 1]);
      } else {
        var n := m - (|a| - 1);
        assert walk[m] == b[n] && walk[m + 1] == b[n + 1];
        assert Adjacent(lessons, b[n], b[n + 1]);
      }
    }
    assert IsWalk(lessons, walk);
  }

  lemma ConnectedByEdge(lessons: seq<Lesson>, i: nat, j: nat)
    requires Adjacent(lessons, i, j)
    ensures Connected(lessons, i, j)
  {
    assert IsWalk(lessons, [i, j]);
    assert [i, j][0] == i;
  }

  // ---------- Union-find ----------

  /** No parent exceeds its own position, so the walk to the root ends. */
  predicate Descending(parent: seq<nat>) { forall i :: 0 <= i < |parent| ==> parent[i] <= i }

  function RootOf(parent: seq<nat>, i: nat): (r: nat)
    requires Descending(parent) && i < |parent|
    ensures r <= i && parent[r] == r
  { if parent[i] == i then i else RootOf(parent, parent[i]) }

  predicate IsRoot(parent: seq<nat>, r: nat) { r < |parent| && parent[r] == r }

  lemma {:induction false} UnionRoots(parent: seq<nat>, left: nat, right: nat, i: nat)
    requires Descending(parent) && IsRoot(parent, left) && IsRoot(parent, right) && left < right && i < |parent|
    ensures Descending(parent[right := left])
    ensures RootOf(parent[right := left], i) == if RootOf(parent, i) == right then left else RootOf(parent, i)
  {
    if parent[i] != i { UnionRoots(parent, left, right, parent[i]); }
  }

  /** The roots agree with the names of the first `k` lessons, and every position is connected to its root. */
  ghost predicate Agrees(lessons: seq<Lesson>, parent: seq<nat>, k: nat) {
    && |parent| == |lessons| && Descending(parent)
    && (forall i :: 0 <= i < |parent| ==> Connected(lessons, i, RootOf(parent, i)))
    && (forall i, j :: 0 <= i < k && 0 <= j < |lessons| && i < |lessons| && Names(lessons, i, j) ==>
        RootOf(parent, i) == RootOf(parent, j))
  }

  lemma {:induction false} WalkHasOneRoot(lessons: seq<Lesson>, parent: seq<nat>, walk: seq<nat>)
    requires Agrees(lessons, parent, |lessons|) && IsWalk(lessons, walk) && walk[0] < |lessons|
    ensures walk[|walk| - 1] < |lessons| && RootOf(parent, walk[0]) == RootOf(parent, walk[|walk| - 1])
  {
    if |walk| > 1 {
      var front := walk[..|walk| - 1];
      forall k | 0 <= k < |front| - 1 ensures Adjacent(lessons, front[k], front[k + 1]) {
        assert Adjacent(lessons, walk[k], walk[k + 1]);
      }
      WalkHasOneRoot(lessons, parent, front);
      assert Adjacent(lessons, walk[|walk| - 2], walk[|walk| - 2 + 1]);
    }
  }

  /** When all names are processed, two lessons have one root exactly when they are connected. */
  lemma RootsAreComponents(lessons: seq<Lesson>, parent: seq<nat>, i: nat, j: nat)
    requires Agrees(lessons, parent, |lessons|) && i < |lessons| && j < |lessons|
    ensures RootOf(parent, i) == RootOf(parent, j) <==> Connected(lessons, i, j)
  {
    if RootOf(parent, i) == RootOf(parent, j) {
      ConnectedBack(lessons, j, RootOf(parent, j));
      ConnectedThrough(lessons, i, RootOf(parent, i), j);
    }
    if Connected(lessons, i, j) {
      var walk :| IsWalk(lessons, walk) && walk[0] == i && walk[|walk| - 1] == j;
      WalkHasOneRoot(lessons, parent, walk);
    }
  }

  lemma UnionAgrees(lessons: seq<Lesson>, parent: seq<nat>, k: nat, partner: nat)
    requires Agrees(lessons, parent, k) && k < |lessons| && Names(lessons, k, partner)
    ensures var l, r := RootOf(parent, k), RootOf(parent, partner);
            Agrees(lessons, if l == r then parent else parent[(if l < r then r else l) := if l < r then l else r], k
                   + 1)
  {
    var l, r := RootOf(parent, k), RootOf(parent, partner);
    if l != r {
      var low, high := if l < r then l else r, if l < r then r else l;
      var next := parent[high := low];
      ConnectedByEdge(lessons, k, partner);
      Bridge(lessons, parent, k, partner);
      forall i | 0 <= i < |parent|
        ensures Descending(next) && RootOf(next, i) == if RootOf(parent, i) == high then low else RootOf(parent, i)
      {
        UnionRoots(parent, low, high, i);
      }
      UnionRoots(parent, low, high, k);
      forall i | 0 <= i < |next| ensures Connected(lessons, i, RootOf(next, i)) {
        if RootOf(parent, i) == high { ConnectedThrough(lessons, i, high, low); }
      }
    }
  }

  lemma Bridge(lessons: seq<Lesson>, parent: seq<nat>, i: nat, j: nat)
    requires |parent| == |lessons| && Descending(parent) && i < |parent| && j < |parent| && Connected(lessons, i, j)
    requires Connected(lessons, i, RootOf(parent, i)) && Connected(lessons, j, RootOf(parent, j))
    ensures Connected(lessons, RootOf(parent, i), RootOf(parent, j))
    ensures Connected(lessons, RootOf(parent, j), RootOf(parent, i))
  {
    ConnectedBack(lessons, i, RootOf(parent, i));
    ConnectedThrough(lessons, RootOf(parent, i), i, j);
    ConnectedThrough(lessons, RootOf(parent, i), j, RootOf(parent, j));
    ConnectedBack(lessons, RootOf(parent, i), RootOf(parent, j));
  }

  // ---------- The algorithm ----------

  method FindRoot(parent: array<nat>, position: nat) returns (r: nat)
    requires Descending(parent[..]) && position < parent.Length
    ensures r == RootOf(parent[..], position)
  {
    r := position;
    while parent[r] != r
      invariant r < parent.Length && RootOf(parent[..], r) == RootOf(parent[..], position)
      decreases r
    {
      r := parent[r];
    }
  }

  method IndexById(lessons: seq<Lesson>) returns (index: map<string, nat>)
    ensures forall id :: (if id in index then Some(index[id]) else None) == Partner(lessons, id)
  {
    index := map[];
    assert lessons[..0] == [];
    for i := 0 to |lessons|
      invariant forall id :: (if id in index then Some(index[id]) else None) == Partner(lessons[..i], id)
    {
      assert lessons[..i + 1][..i] == lessons[..i];
      index := index[lessons[i].id := i];
    }
    assert lessons[..|lessons|] == lessons;
  }

  method Unite(lessons: seq<Lesson>) returns (parent: array<nat>)
    ensures fresh(parent) && parent.Length == |lessons| && Agrees(lessons, parent[..], |lessons|)
  {
    var index := IndexById(lessons);
    parent := new nat[|lessons|](i => i);
    assert Agrees(lessons, parent[..], 0) by {
      forall i | 0 <= i < |lessons|
        ensures Connected(lessons, i, RootOf(parent[..], i))
      {
        ConnectedToItself(lessons, i);
      }
    }
    for k := 0 to |lessons|
      invariant Agrees(lessons, parent[..], k)
    {
      hide Agrees, Connected;
      AgreesShape(lessons, parent[..], k);
      if lessons[k].compare !in index {
        NothingNamed(lessons, parent[..], k);
        continue;
      }
      var partner := index[lessons[k].compare];
      PartnerInRange(lessons, lessons[k].compare);
      var left := FindRoot(parent, k);
      var right := FindRoot(parent, partner);
      UnionAgrees(lessons, parent[..], k, partner);
      if left != right {
        ghost var before := parent[..];
        var high, low := if left < right then right else left, if left < right then left else right;
        parent[high] := low;
        assert parent[..] == before[high := low];
      }
    }
  }

  lemma AgreesShape(lessons: seq<Lesson>, parent: seq<nat>, k: nat)
    requires Agrees(lessons, parent, k)
    ensures |parent| == |lessons| && Descending(parent)
  {}

  lemma NothingNamed(lessons: seq<Lesson>, parent: seq<nat>, k: nat)
    requires Agrees(lessons, parent, k) && k < |lessons| && Partner(lessons, lessons[k].compare).None?
    ensures Agrees(lessons, parent, k + 1)
  {
    hide Connected;
  }

  lemma {:induction false} PartnerInRange(lessons: seq<Lesson>, id: string)
    ensures Partner(lessons, id).Some? ==>
        Partner(lessons, id).value < |lessons|
        && lessons[Partner(lessons, id).value].id == id
  {
    if lessons != [] { PartnerInRange(lessons[..|lessons| - 1], id); }
  }

  /** The positions with one root, ascending. */
  function MembersOf(parent: seq<nat>, r: nat, n: nat): seq<nat>
    requires Descending(parent) && n <= |parent|
  { if n == 0 then [] else MembersOf(parent, r, n - 1) + if RootOf(parent, n - 1) == r then [n - 1] else [] }

  lemma {:induction false} MembersAre(parent: seq<nat>, r: nat, n: nat)
    requires Descending(parent) && n <= |parent|
    ensures forall k :: 0 <= k < |MembersOf(parent, r, n)| ==> MembersOf(parent, r, n)[k] < n
    ensures forall k, l :: 0 <= k < l < |MembersOf(parent, r, n)| ==>
        MembersOf(parent, r, n)[k] < MembersOf(parent, r, n)[l]
    ensures forall i: nat :: i in MembersOf(parent, r, n) <==> i < n && RootOf(parent, i) == r
  { if n > 0 { MembersAre(parent, r, n - 1); } }

  /** The roots below `n`, ascending. */
  function RootsBelow(parent: seq<nat>, n: nat): seq<nat>
    requires n <= |parent|
  { if n == 0 then [] else RootsBelow(parent, n - 1) + if IsRoot(parent, n - 1) then [n - 1] else [] }

  lemma {:induction false} RootsAre(parent: seq<nat>, n: nat)
    requires n <= |parent|
    ensures forall k, l :: 0 <= k < l < |RootsBelow(parent, n)| ==> RootsBelow(parent, n)[k] < RootsBelow(parent, n)[l]
    ensures forall i: nat :: i in RootsBelow(parent, n) <==> i < n && IsRoot(parent, i)
  {
    if n > 0 {
      RootsAre(parent, n - 1);
      var below := RootsBelow(parent, n - 1);
      forall k | 0 <= k < |below| ensures below[k] < n - 1 { assert below[k] in below; }
    }
  }

  function Pick(lessons: seq<Lesson>, positions: seq<nat>): (s: seq<Lesson>)
    requires InRange(lessons, positions)
    ensures |s| == |positions| && forall k :: 0 <= k < |s| ==> s[k] == lessons[positions[k]]
  { seq(|positions|, k requires 0 <= k < |positions| => lessons[positions[k]]) }

  ghost predicate Covers(positions: seq<seq<nat>>, i: nat) { exists g :: 0 <= g < |positions| && i in positions[g] }

  /** What the grouping promises, in catalog positions. */
  ghost predicate AreComponents(lessons: seq<Lesson>, positions: seq<seq<nat>>) {
    && (forall g :: 0 <= g < |positions| ==> positions[g] != [])
    && (forall g, k :: 0 <= g < |positions| && 0 <= k < |positions[g]| ==> positions[g][k] < |lessons|)
    && (forall g, k, l :: 0 <= g < |positions| && 0 <= k < l < |positions[g]| ==> positions[g][k] < positions[g][l])
    && (forall g, h :: 0 <= g < h < |positions| ==> positions[g][0] < positions[h][0])
    && (forall i :: 0 <= i < |lessons| ==> Covers(positions, i))
    && (forall g, h, i, j :: 0 <= g < |positions| && 0 <= h < |positions| && i in positions[g] && j in positions[h] ==>
        (g == h <==> Connected(lessons, i, j)))
  }

  /** The groups list the lessons at these positions. */
  ghost predicate Spells(lessons: seq<Lesson>, groups: seq<seq<Lesson>>, positions: seq<seq<nat>>) {
    |groups| == |positions| && forall g :: 0 <= g < |groups| ==>
        InRange(lessons, positions[g]) && groups[g] == Pick(lessons, positions[g])
  }

  /** Groups lessons: every group is a connected component, in catalog order, and groups come by their first lesson. */
  method Pairs(lessons: seq<Lesson>) returns (groups: seq<seq<Lesson>>)
    ensures exists positions :: AreComponents(lessons, positions) && Spells(lessons, groups, positions)
  {
    var parent := Unite(lessons);
    AgreesShape(lessons, parent[..], |lessons|);
    hide Agrees, Connected, MembersOf, RootsBelow, Pick, AreComponents, RootOf, Group, Spells;
    var keys, byRoot := Collect(lessons, parent);
    groups := seq(|keys|, g requires 0 <= g < |keys| => byRoot[keys[g]]);
    ghost var positions := GroupPositions(parent[..], keys);
    GroupsAreComponents(lessons, parent[..], positions);
    GroupsSpell(lessons, parent[..], keys, groups);
  }

  ghost function GroupPositions(parent: seq<nat>, keys: seq<nat>): (positions: seq<seq<nat>>)
    requires Descending(parent)
    ensures |positions| == |keys| && forall g :: 0 <= g < |keys| ==>
        positions[g] == MembersOf(parent, keys[g], |parent|)
  { seq(|keys|, g requires 0 <= g < |keys| => MembersOf(parent, keys[g], |parent|)) }

  lemma GroupsSpell(lessons: seq<Lesson>, parent: seq<nat>, keys: seq<nat>, groups: seq<seq<Lesson>>)
    requires Descending(parent) && |parent| == |lessons| && |groups| == |keys|
    requires forall g :: 0 <= g < |keys| ==> groups[g] == Group(lessons, parent, keys[g], |lessons|)
    ensures Spells(lessons, groups, GroupPositions(parent, keys))
  {
    hide Group, Pick, MembersOf;
    forall g | 0 <= g < |keys| { GroupIsPick(lessons, parent, keys[g], |lessons|); }
  }

  /** The second loop: each lesson joins the group of its root. */
  method Collect(lessons: seq<Lesson>, parent: array<nat>) returns (keys: seq<nat>, byRoot: map<nat, seq<Lesson>>)
    requires Descending(parent[..]) && parent.Length == |lessons|
    ensures keys == RootsBelow(parent[..], |lessons|)
    ensures forall r :: r in byRoot <==> r in keys
    ensures forall r :: r in byRoot ==> byRoot[r] == Group(lessons, parent[..], r, |lessons|)
  {
    hide RootsBelow, RootOf, Group;
    keys, byRoot := [], map[];
    StartEmpty(lessons, parent[..]);
    for i := 0 to |lessons|
      invariant keys == RootsBelow(parent[..], i)
      invariant forall r :: r in byRoot <==> r in keys
      invariant forall r :: r in byRoot ==> byRoot[r] == Group(lessons, parent[..], r, i)
    {
      var key := FindRoot(parent, i);
      GroupStep(lessons, parent[..], i);
      if key in byRoot {
        byRoot := byRoot[key := byRoot[key] + [lessons[i]]];
      } else {
        keys := keys + [key];
        byRoot := byRoot[key := [lessons[i]]];
      }
    }
  }

  predicate InRange(lessons: seq<Lesson>, positions: seq<nat>) {
    forall k :: 0 <= k < |positions| ==> positions[k] < |lessons|
  }

  /** The group of a root as far as the first `n` lessons go. */
  function Group(lessons: seq<Lesson>, parent: seq<nat>, r: nat, n: nat): seq<Lesson>
    requires Descending(parent) && n <= |parent| == |lessons|
  {
    if n == 0 then [] else Group(lessons, parent, r, n - 1) + if RootOf(parent, n - 1) == r then [lessons[n - 1]]
        else []
  }

  lemma StartEmpty(lessons: seq<Lesson>, parent: seq<nat>)
    ensures RootsBelow(parent, 0) == []
  {}

  lemma {:induction false} GroupIsPick(lessons: seq<Lesson>, parent: seq<nat>, r: nat, n: nat)
    requires Descending(parent) && n <= |parent| == |lessons|
    ensures InRange(lessons, MembersOf(parent, r, n))
    ensures Group(lessons, parent, r, n) == Pick(lessons, MembersOf(parent, r, n))
  {
    MembersAre(parent, r, n);
    if n > 0 {
      GroupIsPick(lessons, parent, r, n - 1);
      if RootOf(parent, n - 1) == r {
        hide Pick;
        PickMore(lessons, MembersOf(parent, r, n - 1), n - 1);
      }
    }
  }

  lemma PickMore(lessons: seq<Lesson>, positions: seq<nat>, i: nat)
    requires InRange(lessons, positions) && i < |lessons|
    ensures InRange(lessons, positions + [i])
    ensures Pick(lessons, positions + [i]) == Pick(lessons, positions) + [lessons[i]]
  {}

  /** The lesson joins its root's group; it opens a group exactly when it is a root itself. */
  lemma GroupStep(lessons: seq<Lesson>, parent: seq<nat>, i: nat)
    requires Descending(parent) && i < |parent| == |lessons|
    ensures RootOf(parent, i) in RootsBelow(parent, i) <==> !IsRoot(parent, i)
    ensures IsRoot(parent, i) ==> RootOf(parent, i) == i && Group(lessons, parent, i, i) == []
    ensures RootsBelow(parent, i + 1) == RootsBelow(parent, i) + if IsRoot(parent, i) then [i] else []
    ensures forall r :: Group(lessons, parent, r, i + 1) == Group(lessons, parent, r, i) + if RootOf(parent, i) == r
        then [lessons[i]] else []
  {
    RootsAre(parent, i);
    NoneYet(lessons, parent, i, i);
  }

  lemma {:induction false} NoneYet(lessons: seq<Lesson>, parent: seq<nat>, r: nat, n: nat)
    requires Descending(parent) && n <= |parent| == |lessons| && n <= r
    ensures Group(lessons, parent, r, n) == []
  {
    if n > 0 { NoneYet(lessons, parent, r, n - 1); }
  }

  /** The members with one root, when it is a root. */
  lemma GroupShape(parent: seq<nat>, r: nat)
    requires Descending(parent) && IsRoot(parent, r)
    ensures var s := MembersOf(parent, r, |parent|);
            && s != [] && s[0] == r
            && (forall k :: 0 <= k < |s| ==> s[k] < |parent|)
            && (forall k, l :: 0 <= k < l < |s| ==> s[k] < s[l])
            && (forall i: nat :: i in s <==> i < |parent| && RootOf(parent, i) == r)
  {
    MembersAre(parent, r, |parent|);
    hide MembersOf;
    var s := MembersOf(parent, r, |parent|);
    assert r in s;
    assert s[0] in s;
  }

  lemma GroupsAreComponents(lessons: seq<Lesson>, parent: seq<nat>, positions: seq<seq<nat>>)
    requires Agrees(lessons, parent, |lessons|)
    requires |parent| == |lessons| && Descending(parent)
    requires |positions| == |RootsBelow(parent, |lessons|)|
    requires forall g :: 0 <= g < |positions| ==>
        positions[g] == MembersOf(parent, RootsBelow(parent, |lessons|)[g], |lessons|)
    ensures AreComponents(lessons, positions)
  {
    hide Agrees, Connected, MembersOf, RootsBelow, RootOf;
    var n := |lessons|;
    var keys := RootsBelow(parent, n);
    RootsAre(parent, n);
    forall g | 0 <= g < |positions|
      ensures positions[g] != [] && positions[g][0] == keys[g]
      ensures forall k :: 0 <= k < |positions[g]| ==> positions[g][k] < n
      ensures forall k, l :: 0 <= k < l < |positions[g]| ==> positions[g][k] < positions[g][l]
      ensures forall i: nat :: i in positions[g] <==> i < n && RootOf(parent, i) == keys[g]
    {
      assert keys[g] in keys;
      GroupShape(parent, keys[g]);
    }
    forall i | 0 <= i < n ensures Covers(positions, i) {
      var r := RootOf(parent, i);
      assert r in keys;
      var g :| 0 <= g < |keys| && keys[g] == r;
      assert i in positions[g];
    }
    forall g, h, i, j | 0 <= g < |positions| && 0 <= h < |positions| && i in positions[g] && j in positions[h]
      ensures g == h <==> Connected(lessons, i, j)
    {
      RootsAreComponents(lessons, parent, i, j);
    }
  }

  /** With distinct ids, a lesson's partner is the lesson it names. */
  lemma DistinctIdsName(lessons: seq<Lesson>, i: nat, j: nat)
    requires forall a, b :: 0 <= a < b < |lessons| ==> lessons[a].id != lessons[b].id
    requires i < |lessons| && j < |lessons|
    ensures Names(lessons, i, j) <==> lessons[i].compare == lessons[j].id
  {
    PartnerInRange(lessons, lessons[i].compare);
    if lessons[i].compare == lessons[j].id { PartnerFound(lessons, j); }
  }

  lemma {:induction false} PartnerFound(lessons: seq<Lesson>, j: nat)
    requires j < |lessons|
    ensures Partner(lessons, lessons[j].id).Some?
  {
    if j < |lessons| - 1 { PartnerFound(lessons[..|lessons| - 1], j); }
  }
}
