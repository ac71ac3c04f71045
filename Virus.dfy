/**
 * The virus-spread model: persons are healthy or infected; at its activation a
 * healthy person becomes infected when its random draw falls below the
 * infection chance. Neighbours and grid positions play no part in the rule.
 * The draws (one per activation, in [0, 1)) and the activation order (a
 * permutation of the population) are parameters.
 */
module VirusSpread {
  import opened Reports

  /** The infection status `Person.next` leaves a person in, given its draw. */
  function Infects(infected: bool, draw: real, chance: real): (r: bool)
    ensures infected ==> r
    ensures r <==> infected || draw < chance
  {
    if !infected && draw < chance then true else infected
  }

  class Person {
    const id: nat
    var infected: bool
    var daysInfected: int

    /** `days_infected` tracks `infected`: 1 when infected, 0 when healthy. */
    ghost predicate Valid()
      reads this
    {
      daysInfected == if infected then 1 else 0
    }

    /** `Person.__init__`: a new person is healthy. */
    constructor (uniqueId: nat)
      ensures Valid() && id == uniqueId && !infected && daysInfected == 0
    {
      id := uniqueId;
      infected := false;
      daysInfected := 0;
    }

    /** `Person.next`: a healthy person whose draw is below the chance becomes infected. */
    method Next(draw: real, chance: real)
      modifies this
      ensures infected == Infects(old(infected), draw, chance)
      ensures old(infected) ==> daysInfected == old(daysInfected)
      ensures !old(infected) && infected ==> daysInfected == 1
      ensures !infected ==> daysInfected == old(daysInfected)
      ensures old(Valid()) ==> Valid()
    {
      if !infected && draw < chance {
        infected := true;
        daysInfected := 1;
      }
    }
  }

  /** An activation order visits each of the n persons exactly once. */
  predicate ActivationOrder(order: seq<nat>, n: nat)
  {
    |order| == n &&
    (forall k :: 0 <= k < |order| ==> order[k] < n) &&
    (forall i :: 0 <= i < n ==> i in order) &&
    (forall k, l :: 0 <= k < l < |order| ==> order[k] != order[l])
  }

  /** The infection status of every person after the activations in order, each with its draw. */
  function Activate(infected: seq<bool>, order: seq<nat>, draws: seq<real>, chance: real): (r: seq<bool>)
    requires |draws| == |order|
    requires forall k :: 0 <= k < |order| ==> order[k] < |infected|
    ensures |r| == |infected|
  {
    if order == [] then infected
    else
      var k := |order| - 1;
      var before := Activate(infected, order[..k], draws[..k], chance);
      before[order[k] := Infects(before[order[k]], draws[k], chance)]
  }

  /**
   * Activation in any order that visits each person once infects exactly the
   * persons infected before and those whose own draw is below the chance;
   * persons not visited keep their status.
   */
  lemma {:induction false} ActivateOutcome(infected: seq<bool>, order: seq<nat>, draws: seq<real>, chance: real)
    requires |draws| == |order|
    requires forall k :: 0 <= k < |order| ==> order[k] < |infected|
    requires forall k, l :: 0 <= k < l < |order| ==> order[k] != order[l]
    ensures forall k :: 0 <= k < |order| ==>
      Activate(infected, order, draws, chance)[order[k]] == (infected[order[k]] || draws[k] < chance)
    ensures forall i :: 0 <= i < |infected| && i !in order ==>
      Activate(infected, order, draws, chance)[i] == infected[i]
  {
    if order != [] {
      var n := |order| - 1;
      ActivateOutcome(infected, order[..n], draws[..n], chance);
      forall k | 0 <= k < n ensures order[..n][k] == order[k] && draws[..n][k] == draws[k] { }
      forall i | 0 <= i < |infected| && i !in order
        ensures i !in order[..n]
      {
      }
    }
  }

  /** Infection is absorbing: no activation heals anyone. */
  lemma {:induction false} ActivateAbsorbing(infected: seq<bool>, order: seq<nat>, draws: seq<real>, chance: real, i: nat)
    requires |draws| == |order|
    requires forall k :: 0 <= k < |order| ==> order[k] < |infected|
    requires i < |infected| && infected[i]
    ensures Activate(infected, order, draws, chance)[i]
  {
    if order != [] {
      var n := |order| - 1;
      ActivateAbsorbing(infected, order[..n], draws[..n], chance, i);
    }
  }

  /** With draws in [0, 1), a chance of at least 1 infects everyone in one step. */
  lemma ActivateCertain(infected: seq<bool>, order: seq<nat>, draws: seq<real>, chance: real)
    requires ActivationOrder(order, |infected|) && |draws| == |order|
    requires forall k :: 0 <= k < |draws| ==> 0.0 <= draws[k] < 1.0
    requires chance >= 1.0
    ensures forall i :: 0 <= i < |infected| ==> Activate(infected, order, draws, chance)[i]
  {
    ActivateOutcome(infected, order, draws, chance);
    forall i | 0 <= i < |infected| ensures Activate(infected, order, draws, chance)[i] {
      assert i in order;
      var k :| 0 <= k < |order| && order[k] == i;
    }
  }

  /** With draws in [0, 1), a chance of at most 0 infects no one. */
  lemma ActivateImpossible(infected: seq<bool>, order: seq<nat>, draws: seq<real>, chance: real)
    requires ActivationOrder(order, |infected|) && |draws| == |order|
    requires forall k :: 0 <= k < |draws| ==> 0.0 <= draws[k] < 1.0
    requires chance <= 0.0
    ensures Activate(infected, order, draws, chance) == infected
  {
    ActivateOutcome(infected, order, draws, chance);
    var r := Activate(infected, order, draws, chance);
    forall i | 0 <= i < |infected| ensures r[i] == infected[i] {
      assert i in order;
      var k :| 0 <= k < |order| && order[k] == i;
    }
  }

  /** Number of infected entries. */
  function InfectedCount(s: seq<bool>): (c: nat)
    ensures c <= |s|
    ensures c == 0 <==> true !in s
  {
    if s == [] then 0 else (if s[0] then 1 else 0) + InfectedCount(s[1..])
  }

  /**
   * The percentage of infected persons in the latest record, as the plotting
   * code and the final report compute it; missing when nothing was recorded
   * yet or the population is empty.
   */
  function Percentage(records: seq<seq<bool>>, populationSize: nat): (r: Option<real>)
    requires forall k :: 0 <= k < |records| ==> |records[k]| == populationSize
    ensures r.Some? <==> records != [] && populationSize > 0
    ensures r.Some? ==> 0.0 <= r.value <= 100.0
    ensures r.Some? ==> r.value * (populationSize as real) == 100.0 * InfectedCount(records[|records| - 1]) as real
  {
    if records == [] || populationSize == 0 then None
    else
      var c := InfectedCount(records[|records| - 1]);
      Fraction(c, populationSize);
      Some(c as real / populationSize as real * 100.0)
  }


  class VirusSpread {
    const populationSize: nat
    const infectionChance: real
    /** Stored but never read by the transition rule. */
    const recoveryChance: real
    /** Stored but never read by the transition rule. */
    const infectionDuration: int
    /** The scheduler's persons; person i has id i. */
    const agents: seq<Person>
    /** `self.steps`. */
    var steps: nat
    /** The DataCollector's "Infected" column, one record per `step`. */
    var records: seq<seq<bool>>

    ghost predicate Valid()
      reads this, agents
    {
      |agents| == populationSize &&
      (forall i :: 0 <= i < |agents| ==> agents[i].id == i && agents[i].Valid()) &&
      (forall i, j :: 0 <= i < j < |agents| ==> agents[i] != agents[j]) &&
      (forall k :: 0 <= k < |records| ==> |records[k]| == populationSize)
    }

    /** The infection status of every person, by id. */
    function Infected(): (s: seq<bool>)
      reads agents
      ensures |s| == |agents|
    {
      seq(|agents|, i reads agents requires 0 <= i < |agents| => agents[i].infected)
    }

    /** `VirusSpread.__init__`: persons 0..population_size-1, all healthy, no step taken. */
    constructor (populationSize: nat, infectionChance: real, recoveryChance: real, infectionDuration: int)
      ensures Valid() && steps == 0 && records == []
      ensures this.populationSize == populationSize && this.infectionChance == infectionChance
      ensures this.recoveryChance == recoveryChance && this.infectionDuration == infectionDuration
      ensures forall i :: 0 <= i < populationSize ==> !Infected()[i]
      ensures forall i :: 0 <= i < |agents| ==> fresh(agents[i])
    {
      this.populationSize := populationSize;
      this.infectionChance := infectionChance;
      this.recoveryChance := recoveryChance;
      this.infectionDuration := infectionDuration;
      var persons: seq<Person> := [];
      for i := 0 to populationSize
        invariant |persons| == i
        invariant forall k :: 0 <= k < i ==> fresh(persons[k]) && persons[k].id == k && persons[k].Valid() && !persons[k].infected
        invariant forall k, l :: 0 <= k < l < i ==> persons[k] != persons[l]
      {
        var agent := new Person(i);
        persons := persons + [agent];
      }
      agents := persons;
      steps := 0;
      records := [];
    }

    /**
     * `VirusSpread.step`: record the infection status, activate every person
     * once in the scheduler's order, count the step.
     */
    method Step(order: seq<nat>, draws: seq<real>)
      requires Valid()
      requires ActivationOrder(order, populationSize) && |draws| == |order|
      requires forall k :: 0 <= k < |draws| ==> 0.0 <= draws[k] < 1.0
      modifies this, set i | 0 <= i < |agents| :: agents[i]
      ensures Valid()
      ensures records == old(records) + [old(Infected())]
      ensures steps == old(steps) + 1
      ensures Infected() == Activate(old(Infected()), order, draws, infectionChance)
    {
      ghost var before := Infected();
      records := records + [Infected()];
      var k := 0;
      while k < |order|
        modifies set i | 0 <= i < |agents| :: agents[i]
        invariant 0 <= k <= |order|
        invariant Valid()
        invariant records == old(records) + [before]
        invariant Infected() == Activate(before, order[..k], draws[..k], infectionChance)
      {
        var person := agents[order[k]];
        person.Next(draws[k], infectionChance);
        assert order[..k + 1][..k] == order[..k] && draws[..k + 1][..k] == draws[..k];
        k := k + 1;
      }
      assert order[..k] == order && draws[..k] == draws;
      steps := steps + 1;
    }

    /** The percentage of infected persons shown after a step: it reads the record taken before that step. */
    method CurrentPercentage() returns (r: Option<real>)
      requires Valid()
      ensures r.Some? <==> records != [] && populationSize > 0
      ensures r.Some? ==> 0.0 <= r.value <= 100.0
      ensures r.Some? ==> r.value * (populationSize as real) == 100.0 * InfectedCount(records[|records| - 1]) as real
    {
      r := Percentage(records, populationSize);
    }
  }
}
