/**
 * The forest-fire model: trees on a grid move from alive to burning to burned.
 * Trees are numbered 0..n-1; the grid is reduced to what the rules use of it,
 * the neighbour list of every tree and the position of every tree.
 */
module ForestFire {
  import opened Reports

  /** The three internal states of a tree. */
  datatype TreeState = Alive | Burning | Burned

  /** The integer a state stands for in the source's `internal_states` table. */
  function Code(t: TreeState): (c: nat)
    ensures c <= 2
    ensures t == Alive <==> c == 0
    ensures t == Burning <==> c == 1
  {
    match t
    case Alive => 0
    case Burning => 1
    case Burned => 2
  }

  /** Every neighbour index names a tree of the forest. */
  predicate WellFormed(nb: seq<seq<nat>>, n: nat)
  {
    |nb| == n && forall j, k :: 0 <= j < n && 0 <= k < |nb[j]| ==> nb[j][k] < n
  }

  /** The neighbour relation of a grid: a is a neighbour of b exactly when b is one of a. */
  predicate Symmetric(nb: seq<seq<nat>>)
  {
    forall a, b :: 0 <= a < |nb| && 0 <= b < |nb| ==> (b in nb[a] <==> a in nb[b])
  }

  /** Tree j is a neighbour of some burning tree of s. */
  predicate IgnitedBy(s: seq<TreeState>, nb: seq<seq<nat>>, j: nat)
    requires |nb| == |s|
  {
    exists b :: 0 <= b < |s| && s[b] == Burning && j in nb[b]
  }

  /** `Trees.see`: some neighbour of tree j is burning. */
  function SeesFire(s: seq<TreeState>, nb: seq<seq<nat>>, j: nat): (r: bool)
    requires WellFormed(nb, |s|) && j < |s|
    ensures r <==> exists k :: 0 <= k < |nb[j]| && s[nb[j][k]] == Burning
    ensures Symmetric(nb) ==> (r <==> IgnitedBy(s, nb, j))
  {
    var r := exists k :: 0 <= k < |nb[j]| && s[nb[j][k]] == Burning;
    assert Symmetric(nb) && IgnitedBy(s, nb, j) ==> r by {
      if Symmetric(nb) && IgnitedBy(s, nb, j) {
        var b :| 0 <= b < |s| && s[b] == Burning && j in nb[b];
        assert b in nb[j];
        var k :| 0 <= k < |nb[j]| && nb[j][k] == b;
      }
    }
    r
  }

  /** The state `Trees.next` leaves a tree in, given whether it sees fire. */
  function NextState(t: TreeState, seesFire: bool): (r: TreeState)
    ensures Code(t) <= Code(r)
    ensures r != t ==> t == Alive && seesFire && r == Burning
    ensures t == Alive && seesFire ==> r == Burning
  {
    if t == Alive && seesFire then Burning else t
  }

  /** The state `Trees.action` leaves a tree in. */
  function ActionState(t: TreeState): (r: TreeState)
    ensures Code(t) <= Code(r)
    ensures r != t ==> t == Burning && r == Burned
    ensures t == Burning ==> r == Burned
  {
    if t == Burning then Burned else t
  }

  /**
   * The outcome of one `ForestModel.step` as a synchronous rule on the states
   * at the start of the step: burning trees burn out, alive trees next to one
   * of them catch fire, nothing else changes.
   */
  function SpreadStep(s: seq<TreeState>, nb: seq<seq<nat>>): (r: seq<TreeState>)
    requires WellFormed(nb, |s|)
    ensures |r| == |s|
  {
    seq(|s|, j requires 0 <= j < |s| =>
      if s[j] == Burning then Burned
      else if s[j] == Alive && IgnitedBy(s, nb, j) then Burning
      else s[j])
  }

  /** Number of trees of s in state t. */
  function Count(s: seq<TreeState>, t: TreeState): (c: nat)
    ensures c <= |s|
    ensures c == 0 <==> t !in s
  {
    if s == [] then 0 else (if s[0] == t then 1 else 0) + Count(s[1..], t)
  }

  /** `agents.select(agents.state == 1)`: the indices of the burning trees, in order. */
  function BurningTrees(s: seq<TreeState>): (r: seq<nat>)
    ensures forall b :: b in r <==> 0 <= b < |s| && s[b] == Burning
    ensures forall k :: 0 <= k < |r| ==> r[k] < |s|
    ensures |r| == Count(s, Burning)
  {
    if s == [] then []
    else
      var rest := BurningTrees(s[..|s| - 1]);
      assert forall b :: 0 <= b < |s| - 1 ==> s[..|s| - 1][b] == s[b];
      CountLast(s, Burning);
      if s[|s| - 1] == Burning then rest + [|s| - 1] else rest
  }

  /** Counting can peel the last element as well as the first. */
  lemma {:induction false} CountLast(s: seq<TreeState>, t: TreeState)
    requires s != []
    ensures Count(s, t) == Count(s[..|s| - 1], t) + (if s[|s| - 1] == t then 1 else 0)
  {
    if |s| > 1 {
      assert s[1..][..|s| - 2] == s[..|s| - 1][1..];
      CountLast(s[1..], t);
    }
  }

  /** `ForestModel.end`: the fraction of burned trees, missing when there are no trees. */
  function BurnedFraction(s: seq<TreeState>): (r: Option<real>)
    ensures r.Some? <==> |s| > 0
    ensures r.Some? ==> 0.0 <= r.value <= 1.0
    ensures r.Some? ==> r.value * (|s| as real) == Count(s, Burned) as real
    ensures r == Some(1.0) <==> |s| > 0 && Count(s, Burned) == |s|
  {
    if |s| == 0 then None
    else
      Fraction(Count(s, Burned), |s|);
      Some(Count(s, Burned) as real / |s| as real)
  }


  /**
   * What one step does to each tree: the trees burning at the start are
   * burned, their alive neighbours are burning, every other tree is unchanged;
   * a tree that catches fire in the step does not burn out in it, and states
   * never move backwards.
   */
  lemma SpreadStepOutcome(s: seq<TreeState>, nb: seq<seq<nat>>)
    requires WellFormed(nb, |s|)
    ensures forall j :: 0 <= j < |s| && s[j] == Burning ==> SpreadStep(s, nb)[j] == Burned
    ensures forall j :: 0 <= j < |s| && s[j] == Alive && IgnitedBy(s, nb, j) ==> SpreadStep(s, nb)[j] == Burning
    ensures forall j :: 0 <= j < |s| && s[j] != Burning && !(s[j] == Alive && IgnitedBy(s, nb, j)) ==>
      SpreadStep(s, nb)[j] == s[j]
    ensures forall j :: 0 <= j < |s| && SpreadStep(s, nb)[j] == Burning ==> s[j] == Alive
    ensures forall j :: 0 <= j < |s| ==> Code(s[j]) <= Code(SpreadStep(s, nb)[j])
  {
  }

  /**
   * The step is the per-tree rule `Trees.action` followed by `Trees.next`, each
   * tree seeing its neighbours as they were at the start of the step; this
   * needs the neighbour relation of a grid, which is symmetric.
   */
  lemma SpreadStepIsPerTreeRule(s: seq<TreeState>, nb: seq<seq<nat>>)
    requires WellFormed(nb, |s|) && Symmetric(nb)
    ensures forall j :: 0 <= j < |s| ==>
      SpreadStep(s, nb)[j] == NextState(ActionState(s[j]), SeesFire(s, nb, j))
  {
  }

  /** Without a burning tree the step changes nothing. */
  lemma SpreadStepAtRest(s: seq<TreeState>, nb: seq<seq<nat>>)
    requires WellFormed(nb, |s|) && Burning !in s
    ensures SpreadStep(s, nb) == s
  {
  }

  /** If no tree leaves the burned state and some tree enters it, the burned count grows. */
  lemma {:induction false} CountBurnedGrows(s: seq<TreeState>, r: seq<TreeState>)
    requires |s| == |r|
    requires forall j :: 0 <= j < |s| && s[j] == Burned ==> r[j] == Burned
    requires exists j :: 0 <= j < |s| && s[j] != Burned && r[j] == Burned
    ensures Count(r, Burned) > Count(s, Burned)
  {
    var j :| 0 <= j < |s| && s[j] != Burned && r[j] == Burned;
    if j == 0 {
      CountBurnedKeeps(s[1..], r[1..]);
    } else {
      assert s[1..][j - 1] == s[j] && r[1..][j - 1] == r[j];
      CountBurnedGrows(s[1..], r[1..]);
    }
  }

  /** If no tree leaves the burned state, the burned count does not drop. */
  lemma {:induction false} CountBurnedKeeps(s: seq<TreeState>, r: seq<TreeState>)
    requires |s| == |r|
    requires forall j :: 0 <= j < |s| && s[j] == Burned ==> r[j] == Burned
    ensures Count(r, Burned) >= Count(s, Burned)
  {
    if s != [] {
      CountBurnedKeeps(s[1..], r[1..]);
    }
  }

  /** A step that starts with a burning tree burns strictly more trees. */
  lemma SpreadStepProgress(s: seq<TreeState>, nb: seq<seq<nat>>)
    requires WellFormed(nb, |s|) && Burning in s
    ensures Count(SpreadStep(s, nb), Burned) > Count(s, Burned)
  {
    var r := SpreadStep(s, nb);
    var b :| 0 <= b < |s| && s[b] == Burning;
    assert r[b] == Burned;
    CountBurnedGrows(s, r);
  }

  /** While some tree burns, not every tree is burned. */
  lemma {:induction false} BurningLeavesRoom(s: seq<TreeState>)
    requires Burning in s
    ensures Count(s, Burned) < |s|
  {
    if s[0] != Burning {
      BurningLeavesRoom(s[1..]);
    }
  }

  /** The forest after k steps of the fire. */
  function Iterate(s: seq<TreeState>, nb: seq<seq<nat>>, k: nat): (r: seq<TreeState>)
    requires WellFormed(nb, |s|)
    ensures |r| == |s|
  {
    if k == 0 then s else SpreadStep(Iterate(s, nb, k - 1), nb)
  }

  /** A forest still burning after k steps has at least k burned trees. */
  lemma {:induction false} BurnedAtLeastSteps(s: seq<TreeState>, nb: seq<seq<nat>>, k: nat)
    requires WellFormed(nb, |s|) && Burning in Iterate(s, nb, k)
    ensures Count(Iterate(s, nb, k), Burned) >= k
  {
    if k > 0 {
      var prev := Iterate(s, nb, k - 1);
      if Burning !in prev {
        SpreadStepAtRest(prev, nb);
        assert false;
      }
      BurnedAtLeastSteps(s, nb, k - 1);
      SpreadStepProgress(prev, nb);
    }
  }

  /**
   * The fire is out after n steps, so the step that stops the run is at the
   * latest the (n+1)-th.
   */
  lemma FireOutWithinPopulation(s: seq<TreeState>, nb: seq<seq<nat>>)
    requires WellFormed(nb, |s|)
    ensures Burning !in Iterate(s, nb, |s|)
  {
    if Burning in Iterate(s, nb, |s|) {
      BurnedAtLeastSteps(s, nb, |s|);
      BurningLeavesRoom(Iterate(s, nb, |s|));
    }
  }

  /** `ForestModel.setup` ignites the trees in the grid slice [0:size, 0:2]: columns 0 and 1. */
  predicate InIgnitionSlice(pos: (nat, nat))
  {
    pos.1 < 2
  }

  /** agentpy's placement: every tree on its own cell of a size x size grid. */
  predicate Placement(positions: seq<(nat, nat)>, size: nat)
  {
    (forall j :: 0 <= j < |positions| ==> positions[j].0 < size && positions[j].1 < size) &&
    (forall j, k :: 0 <= j < k < |positions| ==> positions[j] != positions[k])
  }

  /** The trees standing in the ignition slice, in index order. */
  function SliceTrees(positions: seq<(nat, nat)>): (r: seq<nat>)
    ensures forall j :: j in r <==> 0 <= j < |positions| && InIgnitionSlice(positions[j])
    ensures forall k :: 0 <= k < |r| ==> r[k] < |positions|
  {
    if positions == [] then []
    else
      var k := |positions| - 1;
      var rest := SliceTrees(positions[..k]);
      assert forall j :: 0 <= j < k ==> positions[..k][j] == positions[j];
      if InIgnitionSlice(positions[k]) then rest + [k] else rest
  }

  class ForestModel {
    /** `self.agents`: the state of every tree; the population never changes size. */
    const trees: array<TreeState>
    /** `self.forest.neighbors`: the neighbours of every tree. */
    const neighbors: seq<seq<nat>>
    /** `self.running`: cleared by `self.stop()`. */
    var running: bool

    ghost predicate Valid()
      reads this
    {
      WellFormed(neighbors, trees.Length)
    }

    /**
     * `ForestModel.setup`: n_trees trees, all alive (`Trees.setup`), placed on
     * distinct cells; those in columns 0 and 1 are set burning.
     */
    constructor (size: nat, nTrees: nat, positions: seq<(nat, nat)>, nb: seq<seq<nat>>)
      requires nTrees <= size * size
      requires |positions| == nTrees && Placement(positions, size)
      requires WellFormed(nb, nTrees)
      ensures Valid() && running
      ensures fresh(trees) && trees.Length == nTrees && neighbors == nb
      ensures forall j :: 0 <= j < nTrees ==>
        trees[j] == (if InIgnitionSlice(positions[j]) then Burning else Alive)
    {
      trees := new TreeState[nTrees](_ => Alive);
      neighbors := nb;
      running := true;
      new;
      var unfortunate := SliceTrees(positions);
      var i := 0;
      while i < |unfortunate|
        modifies trees
        invariant 0 <= i <= |unfortunate|
        invariant forall j :: 0 <= j < nTrees ==>
          trees[j] == (if j in unfortunate[..i] then Burning else Alive)
      {
        trees[unfortunate[i]] := Burning;
        assert unfortunate[..i + 1] == unfortunate[..i] + [unfortunate[i]];
        i := i + 1;
      }
      assert unfortunate[..i] == unfortunate;
    }

    /** `Trees.next` for tree j: an alive tree that sees a burning neighbour starts burning. */
    method TreeNext(j: nat)
      requires Valid() && j < trees.Length
      modifies trees
      ensures trees[..] == old(trees[..])[j := NextState(old(trees[j]), SeesFire(old(trees[..]), neighbors, j))]
    {
      ghost var s := trees[..];
      if trees[j] == Alive {
        var k := 0;
        while k < |neighbors[j]|
          invariant 0 <= k <= |neighbors[j]|
          invariant trees[..] == s
          invariant forall k' :: 0 <= k' < k ==> s[neighbors[j][k']] != Burning
        {
          if trees[neighbors[j][k]] == Burning {
            trees[j] := Burning;
            return;
          }
          k := k + 1;
        }
      }
    }

    /** `Trees.action` for tree j: a burning tree burns out. */
    method TreeAction(j: nat)
      requires Valid() && j < trees.Length
      modifies trees
      ensures trees[..] == old(trees[..])[j := ActionState(old(trees[j]))]
    {
      if trees[j] == Burning {
        trees[j] := Burned;
      }
    }

    /**
     * The inner loop of `ForestModel.step` for the burning tree b: every alive
     * neighbour of b starts burning; trees already burning or burned are left alone.
     */
    method IgniteNeighbours(b: nat, ghost s: seq<TreeState>, ghost done: seq<nat>)
      requires Valid() && b < trees.Length && |s| == trees.Length
      requires forall k :: 0 <= k < |done| ==> done[k] < |neighbors|
      requires forall j :: 0 <= j < trees.Length ==>
        trees[j] == Partial(s[j], j in done, Ignites(neighbors, done, j))
      modifies trees
      ensures forall j :: 0 <= j < trees.Length ==>
        trees[j] == Partial(s[j], j in done, Ignites(neighbors, done, j) || j in neighbors[b])
    {
      var m := 0;
      while m < |neighbors[b]|
        invariant 0 <= m <= |neighbors[b]|
        invariant forall j :: 0 <= j < trees.Length ==>
          trees[j] == Partial(s[j], j in done, Ignites(neighbors, done, j) || j in neighbors[b][..m])
      {
        var x := neighbors[b][m];
        if trees[x] == Alive {
          trees[x] := Burning;
        }
        assert neighbors[b][..m + 1] == neighbors[b][..m] + [x];
        m := m + 1;
      }
      assert neighbors[b][..m] == neighbors[b];
    }

    /**
     * `ForestModel.step`: snapshot the burning trees, ignite their alive
     * neighbours in place, burn the snapshot out, stop when it was empty.
     */
    method Step()
      requires Valid()
      modifies this`running, trees
      ensures Valid()
      ensures trees[..] == SpreadStep(old(trees[..]), neighbors)
      ensures running == (old(running) && Burning in old(trees[..]))
    {
      ghost var s := trees[..];
      var burning := BurningTrees(trees[..]);
      var i := 0;
      while i < |burning|
        modifies trees
        invariant 0 <= i <= |burning|
        invariant forall j :: 0 <= j < trees.Length ==>
          trees[j] == Partial(s[j], j in burning[..i], Ignites(neighbors, burning[..i], j))
      {
        var b := burning[i];
        IgniteNeighbours(b, s, burning[..i]);
        trees[b] := Burned;
        assert burning[..i + 1] == burning[..i] + [b];
        IgnitesExtend(neighbors, burning[..i], b);
        i := i + 1;
      }
      assert burning[..i] == burning;
      forall j | 0 <= j < trees.Length
        ensures trees[j] == SpreadStep(s, neighbors)[j]
      {
        IgnitesAll(s, neighbors, burning, j);
      }
      if |burning| == 0 {
        running := false;
      }
    }

    /** `ForestModel.end`: the reported fraction of burned trees. */
    method End() returns (r: Option<real>)
      requires Valid()
      ensures r.Some? <==> trees.Length > 0
      ensures r.Some? ==> 0.0 <= r.value <= 1.0
      ensures r.Some? ==> r.value * (trees.Length as real) == Count(trees[..], Burned) as real
    {
      r := BurnedFraction(trees[..]);
    }
  }

  /** A tree's state part-way through `Step`, given whether it has burned out or been ignited yet. */
  function Partial(t: TreeState, burnedOut: bool, ignited: bool): TreeState
  {
    match t
    case Alive => if ignited then Burning else Alive
    case Burning => if burnedOut then Burned else Burning
    case Burned => Burned
  }

  /** Tree j is a neighbour of one of the trees in done. */
  predicate Ignites(nb: seq<seq<nat>>, done: seq<nat>, j: nat)
    requires forall k :: 0 <= k < |done| ==> done[k] < |nb|
  {
    exists k :: 0 <= k < |done| && j in nb[done[k]]
  }

  /** Adding burning tree b to those done adds exactly b's neighbours to the ignited trees. */
  lemma IgnitesExtend(nb: seq<seq<nat>>, done: seq<nat>, b: nat)
    requires forall k :: 0 <= k < |done| ==> done[k] < |nb|
    requires b < |nb|
    ensures forall j :: Ignites(nb, done + [b], j) <==> Ignites(nb, done, j) || j in nb[b]
  {
    forall j ensures Ignites(nb, done + [b], j) <==> Ignites(nb, done, j) || j in nb[b] {
      if Ignites(nb, done, j) {
        var k :| 0 <= k < |done| && j in nb[done[k]];
        assert (done + [b])[k] == done[k];
      }
      if j in nb[b] {
        assert (done + [b])[|done|] == b;
      }
    }
  }

  /** Once every burning tree of s is done, the part-way state of tree j is its state after SpreadStep. */
  lemma IgnitesAll(s: seq<TreeState>, nb: seq<seq<nat>>, burning: seq<nat>, j: nat)
    requires WellFormed(nb, |s|) && j < |s|
    requires forall b :: b in burning <==> 0 <= b < |s| && s[b] == Burning
    requires forall k :: 0 <= k < |burning| ==> burning[k] < |s|
    ensures Partial(s[j], j in burning, Ignites(nb, burning, j)) == SpreadStep(s, nb)[j]
  {
  }
}
