# Agent state machines: forest fire, wealth transfer, virus spread

This project models the agent logic of three small agent-based simulations
and proves properties of it in Dafny. In each simulation the framework
(agentpy or mesa) supplies only a neighbour set, an activation order and
random draws. Those become parameters here; the rest is the models' own logic.

- **Forest fire** (`Forest.dfy`, module `ForestFire`). Trees numbered
  0..n-1 move through alive (0), burning (1) and burned (2). The class
  `ForestModel` holds the tree states in an array that is updated in place,
  plus the neighbour list of every tree. `Step` is the in-place loop over the
  snapshot of burning trees. It is proved equal to `SpreadStep`, a synchronous
  rule on the states at the start of the step. From `SpreadStep` follow:
  monotone states, strict growth of the burned count while a tree burns, and
  the fire being out after at most n steps. The per-tree methods `see`, `next`
  and `action` are modelled as well. `SpreadStepIsPerTreeRule` relates them to
  the step in one composition only: each tree applies `action`, then `next`
  fed what `see` reports of the states at the start of the step, and the
  neighbour relation is symmetric, as a grid's is. Running the in-place
  methods `TreeNext` and `TreeAction` over the trees one after another does
  not equal `step`. Take a line of three trees with the first one burning.
  `step` leaves them burned, burning and alive. Running `action` on every tree
  and then `next` leaves them burned, alive and alive. Running `next` on every
  tree in place first, in index order, lets the fire run down the whole line.
- **Wealth transfer** (`Wealth.dfy`, module `WealthTransfer`). Every agent
  holds a wealth (a `real`) and a stored class. The class `WealthModel` holds
  both as arrays, and its methods are proved against pure functions on a
  `Population` value. Total wealth is conserved. The stored class of a partner
  that receives wealth is not refreshed, so the stored class can lag behind the
  wealth. The invariant `StateLags` says it never runs ahead. Its consequences
  are proved: an acting agent can always pay, no wealth drops below -0.5, and
  a poor agent stays poor.
- **Virus spread** (`Virus.dfy`, module `VirusSpread`). `Person` objects are
  healthy or infected. A healthy person becomes infected when its draw is
  below the infection chance. Neighbours and positions play no part.
  `VirusSpread.Step` records the infection column, activates every person once
  and counts the step. The reported percentage reads the latest record, which
  was taken before the latest activations.
- `Reports.dfy` (module `Reports`) holds `Option` for reports that the source
  cannot produce on an empty population, and the fraction arithmetic.

Three facts about the code that a reader of the scripts might not expect:

- `action` (WealhtTransfer.py:58-62) recomputes only the acting agent's
  class. The partner's stored class is not refreshed when it receives wealth.
- The virus script has no stop condition: nothing ends the run when no one
  can be infected any more.
- `utility` (WealhtTransfer.py:75-77) counts wealthy agents. Its docstring
  and the label 'Poor' it is recorded under (line 92) both say poor.

## Model

| member | source | states |
|---|---|---|
| `ForestFire.Code` | forest.py:11-15 | alive, burning and burned are 0, 1 and 2; every state is in {0,1,2} |
| `ForestFire.SeesFire` | forest.py:20-22 | true iff some neighbour is burning; for a symmetric neighbour relation, iff the tree is a neighbour of a burning tree |
| `ForestFire.NextState` | forest.py:24-30 | an alive tree that sees fire becomes burning; any other tree is unchanged; the state never moves backwards |
| `ForestFire.ActionState` | forest.py:32-34 | burning becomes burned; alive and burned are unchanged; never backwards |
| `ForestFire.ForestModel.TreeNext` | forest.py:24-30 | the neighbour loop with early return sets tree j to NextState of its old state and what it saw; no other tree changes |
| `ForestFire.ForestModel.TreeAction` | forest.py:32-34 | tree j becomes ActionState of its old state; no other tree changes |
| `ForestFire.SliceTrees` | forest.py:49 | exactly the trees whose cell is in columns 0 and 1 of the grid |
| `ForestFire.ForestModel.constructor` | forest.py:38-51 | n_trees trees on distinct cells; a tree is burning iff it stands in the slice [0:size, 0:2], otherwise alive |
| `ForestFire.BurningTrees` | forest.py:56 | the snapshot holds exactly the indices of the burning trees, as many as there are burning trees |
| `ForestFire.ForestModel.IgniteNeighbours` | forest.py:60-62 | the inner loop sets every alive neighbour of burning tree b burning and leaves burning and burned trees alone |
| `ForestFire.ForestModel.Step` | forest.py:53-67 | the in-place loop over the snapshot gives exactly SpreadStep of the old states; the run stops iff the snapshot was empty |
| `ForestFire.SpreadStepOutcome` | forest.py:56-63 | trees burning at the start end burned; their alive neighbours end burning; all others are unchanged; a tree ignited in the step is still burning after it; no state moves backwards |
| `ForestFire.SpreadStepIsPerTreeRule` | forest.py:20-34 | with a symmetric neighbour relation, the step equals action then next on each tree, each seeing the states at the start of the step |
| `ForestFire.SpreadStepAtRest` | forest.py:56-63 | a step that starts with no burning tree changes nothing |
| `ForestFire.SpreadStepProgress` | forest.py:59-63 | a step that starts with a burning tree strictly increases the burned count |
| `ForestFire.BurnedAtLeastSteps` | forest.py:53-67 | a forest still burning after k steps has at least k burned trees |
| `ForestFire.FireOutWithinPopulation` | forest.py:53-67 | after n_trees steps no tree burns, so the stopping step comes within n_trees+1 steps |
| `ForestFire.Count` | forest.py:72 | the count of trees in a state is at most the population, and zero iff no tree is in that state |
| `ForestFire.BurnedFraction` | forest.py:72-74 | burned/total lies in [0,1] and times the total gives the burned count; it is 1 iff every tree burned; it is missing when there are no trees (division by zero) |
| `ForestFire.ForestModel.End` | forest.py:69-74 | the reported fraction for the current forest, with the same bounds |
| `WealthTransfer.Code` | WealhtTransfer.py:13-17 | poor, middle_class and wealthy are 0, 1 and 2 |
| `WealthTransfer.CalculateState` | WealhtTransfer.py:24-31 | poor iff wealth < 0.5, middle_class iff 0.5 <= wealth < 1.5, wealthy iff wealth >= 1.5 (total) |
| `WealthTransfer.CalculateStateMonotone` | WealhtTransfer.py:24-31 | more wealth never gives a lower class |
| `WealthTransfer.Setup` | WealhtTransfer.py:19-22 | initial wealth is the draw in [0,2); the stored class is CalculateState of it; the invariant StateLags holds |
| `WealthTransfer.WealthModel.constructor` | WealhtTransfer.py:83-84 | one agent per initial draw, each set up as Setup says |
| `WealthTransfer.Transfer` | WealhtTransfer.py:33-37 | with positive wealth and another partner, the partner gains 1 and the agent loses 1; with wealth <= 0 or itself as partner, nothing changes; no other agent changes |
| `WealthTransfer.TransferConserves` | WealhtTransfer.py:33-37 | a transfer leaves total wealth unchanged |
| `WealthTransfer.WealthModel.WealthTransfer` | WealhtTransfer.py:33-37 | the in-place update is Transfer of the old wealth; stored classes are untouched |
| `WealthTransfer.Act` | WealhtTransfer.py:58-62 | wealth becomes Transfer; only the acting agent's class is recomputed; the partner's stored class is left stale |
| `WealthTransfer.WealthModel.Action` | WealhtTransfer.py:58-62 | the in-place update is Act of the old population |
| `WealthTransfer.Decides` | WealhtTransfer.py:44-56 | wealthy always acts, middle_class acts iff its coin is below 0.5, poor never acts |
| `WealthTransfer.AgentNext` | WealhtTransfer.py:44-62 | an agent that does not decide to act changes nothing (a poor one never acts); an acting agent's wealth becomes Transfer of the old wealth, so with positive wealth and another partner it pays that partner one unit, and with itself as partner or wealth <= 0 nothing changes; an acting agent's class is recomputed from its new wealth; only the agent and its partner change wealth; only the agent's class can change |
| `WealthTransfer.WealthModel.Next` | WealhtTransfer.py:44-56 | the in-place update is AgentNext of the old population |
| `WealthTransfer.ModelStep` | WealhtTransfer.py:86-88 | `next` for each agent in list order keeps the population size |
| `WealthTransfer.WealthModel.Step` | WealhtTransfer.py:86-88 | the in-place pass is ModelStep; total and mean wealth are unchanged; the invariant StateLags is kept |
| `WealthTransfer.ActingAgentCanPay` | WealhtTransfer.py:33-62 | under StateLags an agent that decides to act has wealth >= 0.5, so the guard `wealth > 0` holds |
| `WealthTransfer.NextKeepsStateLags` | WealhtTransfer.py:44-62 | `next` keeps every stored class at or below the class of the current wealth, and every wealth >= -0.5 |
| `WealthTransfer.NextConserves` | WealhtTransfer.py:44-62 | `next` leaves total wealth unchanged |
| `WealthTransfer.StepKeepsStateLags` | WealhtTransfer.py:86-88 | a whole step keeps StateLags |
| `WealthTransfer.StepConserves` | WealhtTransfer.py:86-88 | a whole step leaves total wealth unchanged |
| `WealthTransfer.StepKeepsPoor` | WealhtTransfer.py:44-62 | an agent whose stored class is poor is still poor after a step |
| `WealthTransfer.WealthModel.See` | WealhtTransfer.py:39-42 | the mean wealth: times the population size, it is the total wealth |
| `WealthTransfer.Utility` | WealhtTransfer.py:75-77 | the count is at most the population; zero iff no agent is wealthy; equal to the population iff all are wealthy |
| `WealthTransfer.UtilityIgnoresPoor` | WealhtTransfer.py:75-77 | for every population, adding a poor or middle-class agent anywhere leaves the count unchanged: poor agents are not counted |
| `VirusSpread.Infects` | VirusSpread.py:27-30 | infected afterwards iff infected before or the draw is below infection_chance; infection is never undone |
| `VirusSpread.Person.constructor` | VirusSpread.py:13-17 | a new person is healthy with days_infected 0 |
| `VirusSpread.Person.Next` | VirusSpread.py:27-30 | a healthy person with a draw below the chance becomes infected with days_infected 1; an infected person is unchanged; days_infected tracks infected |
| `VirusSpread.Activate` | VirusSpread.py:67-69 | activating persons in order keeps the population size |
| `VirusSpread.ActivateOutcome` | VirusSpread.py:27-30 | in any order that visits each person once, a visited person ends infected iff it was infected or its own draw is below the chance; others keep their status |
| `VirusSpread.ActivateAbsorbing` | VirusSpread.py:27-30 | an infected person stays infected |
| `VirusSpread.ActivateCertain` | VirusSpread.py:28 | with draws in [0,1), a chance >= 1 infects everyone in one step |
| `VirusSpread.ActivateImpossible` | VirusSpread.py:28 | with draws in [0,1), a chance <= 0 infects no one |
| `VirusSpread.VirusSpread.Infected` | VirusSpread.py:56-57 | the "Infected" reporter: one status per person, by id |
| `VirusSpread.VirusSpread.constructor` | VirusSpread.py:48-65 | population_size persons with ids 0..population_size-1, all healthy; steps is 0; parameters stored |
| `VirusSpread.VirusSpread.Step` | VirusSpread.py:67-70 | the record taken before the activations is appended; statuses become Activate of the old ones; steps grows by exactly one |
| `VirusSpread.InfectedCount` | VirusSpread.py:120-121 | the infected count is at most the population, and zero iff no one is infected |
| `VirusSpread.Percentage` | VirusSpread.py:120-121 | the latest record's infected count / population_size x 100 lies in [0,100]; it is missing before any record or with no persons |
| `VirusSpread.VirusSpread.CurrentPercentage` | VirusSpread.py:137-138 | the reported percentage for the current records, with the same bounds |

## Left out

- Grid and network: agentpy's `Grid` (placement, `neighbors`) and mesa's `MultiGrid` are not part of this model. The forest takes each tree's cell and neighbour list as parameters. The virus model keeps no positions, because its rule never reads them.
- Scheduling: mesa's `RandomActivation` order becomes a parameter that visits each person once. agentpy's `AgentList` calls agents in list order, and the model does the same.
- Randomness: each draw is a parameter. The wealth model takes one coin and one partner per agent; each is used only where the source draws it (the coin for middle_class, the partner when wealth > 0). The virus model takes one draw per activation, used only for a healthy person because Python's `and` short-circuits. Which generator each draw comes from is not modelled.
- The run loop of agentpy (`run`, `t`, the `steps` limit, `animate`) is library code. Termination is stated on `Iterate`, the fire after k steps.
- `n_trees = int(density * size**2)` uses floating point; the model takes n_trees <= size*size as a parameter. The `np.random.uniform(0, 2)` initial wealth is taken as a parameter in [0,2).
- Wealth is a `real`, so float rounding is not modelled: in binary64, w + 1 - 1 need not equal w, so a transfer to oneself can change the wealth and the total drifts by rounding error.
- The reported fractions `BurnedFraction`, `Percentage` and `CurrentPercentage` are computed in `real`. The source divides in binary64 (forest.py:74, VirusSpread.py:120-121 and 137-138), so it matches them only up to rounding; for example 1/49*49 gives 0.9999999999999999. The [0,1] and [0,100] bounds still hold.
- `gini` (WealhtTransfer.py:65-72) uses numpy floating-point numerics.
- Plotting and animation (`animation_plot`, `update`'s drawing, matplotlib, seaborn, IPython) are UI only.
- `input()` prompts, PrettyTable printing in `Person.see` and `Person.action`, and `print` are I/O. `Person.step` only adds those printing calls to `next`.
- Data collection: `DataCollector` and pandas are not modelled. The virus model's "Infected" column is the `records` field. The wealth model's `record` calls and agentpy's `report` are not modelled; the reported values are `Utility` and `BurnedFraction`.
- `Experiment`, `Sample`, `results.save` and `DataDict.load` (forest.py:99-120) are batch runs and file I/O.
- `recovery_chance`, `infection_duration` and the `internal_states` set of `Person` are stored but never read by the rules.
- WealthTransfer.WealthModel.See: requires a non-empty population. Only an agent of the population calls it. On an empty list numpy would return nan.
