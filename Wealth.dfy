/**
 * The wealth-transfer model: every agent holds a wealth and a stored wealth
 * class; an agent that decides to act hands one unit of wealth to a randomly
 * drawn partner, possibly itself. The random draws are parameters: a coin in
 * [0, 1) for the middle-class decision and a partner index in [0, n).
 */
module WealthTransfer {

  /** The three internal states of an agent. */
  datatype WealthClass = Poor | MiddleClass | Wealthy

  /** The integer a class stands for in the source's `internal_states` table. */
  function Code(c: WealthClass): (k: nat)
    ensures k <= 2
    ensures c == Poor <==> k == 0
    ensures c == Wealthy <==> k == 2
  {
    match c
    case Poor => 0
    case MiddleClass => 1
    case Wealthy => 2
  }

  /** `WealthAgent.calculate_state`: the class of a wealth, by the thresholds 0.5 and 1.5. */
  function CalculateState(w: real): (c: WealthClass)
    ensures c == Poor <==> w < 0.5
    ensures c == MiddleClass <==> 0.5 <= w < 1.5
    ensures c == Wealthy <==> 1.5 <= w
  {
    if w < 0.5 then Poor
    else if 0.5 <= w < 1.5 then MiddleClass
    else Wealthy
  }

  /** More wealth never gives a lower class. */
  lemma CalculateStateMonotone(v: real, w: real)
    requires v <= w
    ensures Code(CalculateState(v)) <= Code(CalculateState(w))
  {
  }

  /** Total wealth. */
  function Sum(w: seq<real>): real
  {
    if w == [] then 0.0 else w[0] + Sum(w[1..])
  }

  /** Replacing one entry changes the total by the difference. */
  lemma {:induction false} SumUpdate(w: seq<real>, k: nat, v: real)
    requires k < |w|
    ensures Sum(w[k := v]) == Sum(w) - w[k] + v
  {
    if k > 0 {
      assert w[k := v][1..] == w[1..][k - 1 := v];
      SumUpdate(w[1..], k - 1, v);
    }
  }

  /**
   * `WealthAgent.wealth_transfer` of agent i to the drawn partner: when i has
   * positive wealth, the partner gains one unit, then i loses one.
   */
  function Transfer(w: seq<real>, i: nat, partner: nat): (r: seq<real>)
    requires i < |w| && partner < |w|
    ensures |r| == |w|
    ensures w[i] > 0.0 && partner != i ==> r[i] == w[i] - 1.0 && r[partner] == w[partner] + 1.0
    ensures w[i] <= 0.0 || partner == i ==> r == w
    ensures forall k :: 0 <= k < |w| && k != i && k != partner ==> r[k] == w[k]
  {
    if w[i] > 0.0 then
      var gained := w[partner := w[partner] + 1.0];
      gained[i := gained[i] - 1.0]
    else w
  }

  /** A transfer moves wealth and never creates or destroys it. */
  lemma TransferConserves(w: seq<real>, i: nat, partner: nat)
    requires i < |w| && partner < |w|
    ensures Sum(Transfer(w, i, partner)) == Sum(w)
  {
    if w[i] > 0.0 {
      var gained := w[partner := w[partner] + 1.0];
      SumUpdate(w, partner, w[partner] + 1.0);
      SumUpdate(gained, i, gained[i] - 1.0);
    }
  }

  /** The wealth and the stored class of every agent, in agent-list order. */
  datatype Population = Population(wealth: seq<real>, state: seq<WealthClass>)

  predicate Shaped(p: Population)
  {
    |p.wealth| == |p.state|
  }

  /** `WealthAgent.setup` for every agent, given the initial wealth draws in [0, 2). */
  function Setup(initial: seq<real>): (p: Population)
    requires forall k :: 0 <= k < |initial| ==> 0.0 <= initial[k] < 2.0
    ensures Shaped(p) && p.wealth == initial
    ensures forall k :: 0 <= k < |initial| ==> p.state[k] == CalculateState(initial[k])
    ensures StateLags(p)
  {
    Population(initial, seq(|initial|, k requires 0 <= k < |initial| => CalculateState(initial[k])))
  }

  /**
   * The invariant of a run: no stored class is above the class of the current
   * wealth (other agents only ever add to an agent's wealth), and no wealth is
   * below -0.5.
   */
  ghost predicate StateLags(p: Population)
  {
    Shaped(p) &&
    forall k :: 0 <= k < |p.wealth| ==>
      Code(p.state[k]) <= Code(CalculateState(p.wealth[k])) && p.wealth[k] >= -0.5
  }

  /**
   * `WealthAgent.action` of agent i: transfer, then recompute the stored class
   * of agent i alone; the partner's stored class is left as it was.
   */
  function Act(p: Population, i: nat, partner: nat): (r: Population)
    requires Shaped(p) && i < |p.wealth| && partner < |p.wealth|
    ensures Shaped(r)
    ensures r.wealth == Transfer(p.wealth, i, partner)
    ensures r.state[i] == CalculateState(r.wealth[i])
    ensures forall k :: 0 <= k < |p.state| && k != i ==> r.state[k] == p.state[k]
  {
    var w := Transfer(p.wealth, i, partner);
    Population(w, p.state[i := CalculateState(w[i])])
  }

  /** `WealthAgent.next`'s decision: wealthy always acts, middle class when the coin is below 0.5, poor never. */
  function Decides(c: WealthClass, coin: real): (acts: bool)
    ensures c == Wealthy ==> acts
    ensures c == MiddleClass ==> (acts <==> coin < 0.5)
    ensures c == Poor ==> !acts
  {
    match c
    case Wealthy => true
    case MiddleClass => coin < 0.5
    case Poor => false
  }

  /** `WealthAgent.next` of agent i. */
  function AgentNext(p: Population, i: nat, coin: real, partner: nat): (r: Population)
    requires Shaped(p) && i < |p.wealth| && partner < |p.wealth|
    ensures Shaped(r) && |r.wealth| == |p.wealth|
    ensures p.state[i] == Poor ==> r == p
    ensures forall k :: 0 <= k < |p.wealth| && k != i && k != partner ==> r.wealth[k] == p.wealth[k]
    ensures forall k :: 0 <= k < |p.state| && k != i ==> r.state[k] == p.state[k]
    ensures !Decides(p.state[i], coin) ==> r == p
    ensures Decides(p.state[i], coin) && p.wealth[i] > 0.0 && partner != i ==>
      r.wealth[i] == p.wealth[i] - 1.0 && r.wealth[partner] == p.wealth[partner] + 1.0
    ensures Decides(p.state[i], coin) ==> r.wealth == Transfer(p.wealth, i, partner)
    ensures Decides(p.state[i], coin) ==> r.state[i] == CalculateState(r.wealth[i])
  {
    if Decides(p.state[i], coin) then Act(p, i, partner) else p
  }

  /** The draws for the first |coins| agents of the list, one coin and one partner each. */
  predicate Draws(p: Population, coins: seq<real>, partners: seq<nat>)
  {
    |coins| == |partners| <= |p.wealth| &&
    (forall k :: 0 <= k < |coins| ==> 0.0 <= coins[k] < 1.0) &&
    (forall k :: 0 <= k < |partners| ==> partners[k] < |p.wealth|)
  }

  /** `WealthModel.step`: `next` for every agent in list order, each on the population the previous one left. */
  function ModelStep(p: Population, coins: seq<real>, partners: seq<nat>): (r: Population)
    requires Shaped(p) && Draws(p, coins, partners)
    ensures Shaped(r) && |r.wealth| == |p.wealth|
    decreases |coins|
  {
    if coins == [] then p
    else
      var k := |coins| - 1;
      var before := ModelStep(p, coins[..k], partners[..k]);
      AgentNext(before, k, coins[k], partners[k])
  }

  /** Under the invariant an agent that decides to act has wealth at least 0.5, so the guard `wealth > 0` holds. */
  lemma ActingAgentCanPay(p: Population, i: nat, coin: real)
    requires StateLags(p) && i < |p.wealth|
    requires Decides(p.state[i], coin)
    ensures p.wealth[i] >= 0.5
  {
  }

  /** `next` keeps the invariant. */
  lemma NextKeepsStateLags(p: Population, i: nat, coin: real, partner: nat)
    requires StateLags(p) && i < |p.wealth| && partner < |p.wealth|
    ensures StateLags(AgentNext(p, i, coin, partner))
  {
  }

  /** `next` conserves total wealth. */
  lemma NextConserves(p: Population, i: nat, coin: real, partner: nat)
    requires Shaped(p) && i < |p.wealth| && partner < |p.wealth|
    ensures Sum(AgentNext(p, i, coin, partner).wealth) == Sum(p.wealth)
  {
    if Decides(p.state[i], coin) {
      TransferConserves(p.wealth, i, partner);
    }
  }

  /** A step keeps the invariant. */
  lemma {:induction false} StepKeepsStateLags(p: Population, coins: seq<real>, partners: seq<nat>)
    requires StateLags(p) && Draws(p, coins, partners)
    ensures StateLags(ModelStep(p, coins, partners))
  {
    if coins != [] {
      var k := |coins| - 1;
      StepKeepsStateLags(p, coins[..k], partners[..k]);
      NextKeepsStateLags(ModelStep(p, coins[..k], partners[..k]), k, coins[k], partners[k]);
    }
  }

  /** A step conserves total wealth. */
  lemma {:induction false} StepConserves(p: Population, coins: seq<real>, partners: seq<nat>)
    requires Shaped(p) && Draws(p, coins, partners)
    ensures Sum(ModelStep(p, coins, partners).wealth) == Sum(p.wealth)
  {
    if coins != [] {
      var k := |coins| - 1;
      StepConserves(p, coins[..k], partners[..k]);
      NextConserves(ModelStep(p, coins[..k], partners[..k]), k, coins[k], partners[k]);
    }
  }

  /** An agent whose stored class is poor never acts again, and its stored class stays poor. */
  lemma {:induction false} StepKeepsPoor(p: Population, coins: seq<real>, partners: seq<nat>, j: nat)
    requires Shaped(p) && Draws(p, coins, partners) && j < |p.state|
    requires p.state[j] == Poor
    ensures ModelStep(p, coins, partners).state[j] == Poor
  {
    if coins != [] {
      var k := |coins| - 1;
      StepKeepsPoor(p, coins[..k], partners[..k], j);
    }
  }

  /**
   * `utility`: the number of agents whose stored class is wealthy (recorded
   * under the label 'Poor').
   */
  function Utility(s: seq<WealthClass>): (r: nat)
    ensures r <= |s|
    ensures r == 0 <==> Wealthy !in s
    ensures r == |s| <==> forall k :: 0 <= k < |s| ==> s[k] == Wealthy
  {
    if s == [] then 0 else (if s[0] == Wealthy then 1 else 0) + Utility(s[1..])
  }

  /**
   * `utility` does not count poor agents, whatever its label and documentation
   * say: adding a poor (or middle-class) agent anywhere leaves it unchanged.
   */
  lemma {:induction false} UtilityIgnoresPoor(s: seq<WealthClass>, c: WealthClass, t: seq<WealthClass>)
    requires c != Wealthy
    ensures Utility(s + [c] + t) == Utility(s + t)
  {
    if s == [] {
      assert s + [c] + t == [c] + t && s + t == t;
      assert ([c] + t)[1..] == t;
    } else {
      assert (s + [c] + t)[1..] == s[1..] + [c] + t;
      assert (s + t)[1..] == s[1..] + t;
      UtilityIgnoresPoor(s[1..], c, t);
    }
  }

  class WealthModel {
    /** `agent.wealth` of every agent in the list. */
    const wealth: array<real>
    /** `agent.state` of every agent in the list. */
    const state: array<WealthClass>

    ghost predicate Valid()
      reads this
    {
      wealth.Length == state.Length
    }

    ghost function View(): (p: Population)
      reads this, wealth, state
      requires Valid()
      ensures Shaped(p)
    {
      Population(wealth[..], state[..])
    }

    /** `WealthModel.setup`: one agent per initial wealth, each running `WealthAgent.setup`. */
    constructor (initial: seq<real>)
      requires forall k :: 0 <= k < |initial| ==> 0.0 <= initial[k] < 2.0
      ensures Valid() && fresh(wealth) && fresh(state)
      ensures View() == Setup(initial)
    {
      wealth := new real[|initial|](k requires 0 <= k < |initial| => initial[k]);
      state := new WealthClass[|initial|](k requires 0 <= k < |initial| => CalculateState(initial[k]));
    }

    /** `WealthAgent.see`: the mean wealth of the population, which is never empty when an agent asks. */
    function See(): (r: real)
      reads this, wealth
      requires wealth.Length > 0
      ensures r * (wealth.Length as real) == Sum(wealth[..])
    {
      Sum(wealth[..]) / (wealth.Length as real)
    }

    /** `WealthAgent.wealth_transfer` of agent i to the drawn partner. */
    method WealthTransfer(i: nat, partner: nat)
      requires Valid() && i < wealth.Length && partner < wealth.Length
      modifies wealth
      ensures wealth[..] == Transfer(old(wealth[..]), i, partner)
    {
      if wealth[i] > 0.0 {
        wealth[partner] := wealth[partner] + 1.0;
        wealth[i] := wealth[i] - 1.0;
      }
    }

    /** `WealthAgent.action` of agent i. */
    method Action(i: nat, partner: nat)
      requires Valid() && i < wealth.Length && partner < wealth.Length
      modifies wealth, state
      ensures Valid() && View() == Act(old(View()), i, partner)
    {
      WealthTransfer(i, partner);
      state[i] := CalculateState(wealth[i]);
    }

    /** `WealthAgent.next` of agent i, with its coin and its partner draw. */
    method Next(i: nat, coin: real, partner: nat)
      requires Valid() && i < wealth.Length && partner < wealth.Length
      requires 0.0 <= coin < 1.0
      modifies wealth, state
      ensures Valid() && View() == AgentNext(old(View()), i, coin, partner)
    {
      if state[i] == Wealthy {
        Action(i, partner);
      } else if state[i] == MiddleClass {
        if coin < 0.5 {
          Action(i, partner);
        }
      }
    }

    /** `WealthModel.step`: every agent's `next`, in list order. */
    method Step(coins: seq<real>, partners: seq<nat>)
      requires Valid() && |coins| == wealth.Length && Draws(View(), coins, partners)
      modifies wealth, state
      ensures Valid() && View() == ModelStep(old(View()), coins, partners)
      ensures Sum(wealth[..]) == old(Sum(wealth[..]))
      ensures wealth.Length > 0 ==> See() == old(See())
      ensures StateLags(old(View())) ==> StateLags(View())
    {
      ghost var p := View();
      var i := 0;
      while i < wealth.Length
        invariant 0 <= i <= wealth.Length
        invariant View() == ModelStep(p, coins[..i], partners[..i])
      {
        assert coins[..i + 1][..i] == coins[..i] && partners[..i + 1][..i] == partners[..i];
        Next(i, coins[i], partners[i]);
        i := i + 1;
      }
      assert coins[..i] == coins && partners[..i] == partners;
      StepConserves(p, coins, partners);
      if StateLags(p) {
        StepKeepsStateLags(p, coins, partners);
      }
    }
  }
}
