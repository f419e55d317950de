/**
 * Entities of the game-state engine and the blueprint data a new game starts from
 * (src/composables/useGameState.ts).
 *
 * Optional numeric entries of costs, rewards and effects are `real` fields in
 * which 0 stands for an absent entry: every reader of those entries in the source
 * either tests them for truthiness (`if (cost.clots)`) or defaults them with `?? 0`,
 * so an absent entry and a zero entry behave the same.
 */
module GameTypes {
  import opened Common

  datatype NodeKind = Harvest | Battle | Ruins | Forge | Boss | Sanctuary | Relay

  /** A price in the three tradeable resources. */
  datatype Cost = Cost(clots: real, plasma: real, essence: real)

  /** Stat contributions of a module, a doctrine or the player's level. */
  datatype Effects = Effects(attack: real, defense: real, plasmaRate: real,
                             masking: real, energy: real, integrity: real)
  {
    function Plus(o: Effects): Effects {
      Effects(attack + o.attack, defense + o.defense, plasmaRate + o.plasmaRate,
              masking + o.masking, energy + o.energy, integrity + o.integrity)
    }

    predicate NonNegative() {
      attack >= 0.0 && defense >= 0.0 && plasmaRate >= 0.0 &&
      masking >= 0.0 && energy >= 0.0 && integrity >= 0.0
    }
  }

  const NoEffects := Effects(0.0, 0.0, 0.0, 0.0, 0.0, 0.0)

  /** What clearing a node grants; `moduleId` names a module unlocked for free. */
  datatype Reward = Reward(clots: real, plasma: real, essence: real,
                           moduleId: Option<string>, experience: real)

  datatype GameNode = GameNode(id: string, kind: NodeKind, difficulty: nat,
                               discovered: bool, cleared: bool, reward: Option<Reward>)

  datatype GameModule = GameModule(id: string, cost: Cost, effects: Effects, unlocked: bool)

  datatype Doctrine = Doctrine(id: string, cost: Cost, effects: Effects)

  /** The four enemy intents, in the order the intent roll indexes them. */
  datatype IntentKind = Strike | Heavy | Pierce | Drain

  /** The live fight against the enemy of one battle or boss node. */
  datatype Encounter = Encounter(nodeId: string, hp: real, maxHp: real, attack: real,
                                 intent: IntentKind, reward: Option<Reward>)

  /** Index of the first module with the given id (the source's `find` by id). */
  function ModuleIndex(mods: seq<GameModule>, id: string): (k: Option<nat>)
    ensures k.Some? ==> k.value < |mods| && mods[k.value].id == id
  {
    if mods == [] then None
    else if mods[0].id == id then Some(0)
    else match ModuleIndex(mods[1..], id)
      case None => None
      case Some(k) => Some(k + 1)
  }

  /** Index of the first node with the given id. */
  function NodeIndex(nodes: seq<GameNode>, id: string): (k: Option<nat>)
    ensures k.Some? ==> k.value < |nodes| && nodes[k.value].id == id
  {
    if nodes == [] then None
    else if nodes[0].id == id then Some(0)
    else match NodeIndex(nodes[1..], id)
      case None => None
      case Some(k) => Some(k + 1)
  }

  /** Index of the first node not yet discovered. */
  function FirstUndiscovered(nodes: seq<GameNode>): (k: Option<nat>)
    ensures k.Some? ==> k.value < |nodes| && !nodes[k.value].discovered
  {
    if nodes == [] then None
    else if !nodes[0].discovered then Some(0)
    else match FirstUndiscovered(nodes[1..])
      case None => None
      case Some(k) => Some(k + 1)
  }

  /** The lookup finds the first module with the id, and finds none only when no module has it. */
  lemma {:induction false} ModuleIndexFirst(mods: seq<GameModule>, id: string)
    ensures var k := ModuleIndex(mods, id);
            (k.Some? ==> forall j :: 0 <= j < k.value ==> mods[j].id != id) &&
            (k.None? ==> forall j :: 0 <= j < |mods| ==> mods[j].id != id)
  {
    if mods != [] && mods[0].id != id {
      ModuleIndexFirst(mods[1..], id);
    }
  }

  /** The lookup finds the first node with the id, and finds none only when no node has it. */
  lemma {:induction false} NodeIndexFirst(nodes: seq<GameNode>, id: string)
    ensures var k := NodeIndex(nodes, id);
            (k.Some? ==> forall j :: 0 <= j < k.value ==> nodes[j].id != id) &&
            (k.None? ==> forall j :: 0 <= j < |nodes| ==> nodes[j].id != id)
  {
    if nodes != [] && nodes[0].id != id {
      NodeIndexFirst(nodes[1..], id);
    }
  }

  /** Every node before the first undiscovered one is discovered; none is found only when all are. */
  lemma {:induction false} FirstUndiscoveredFirst(nodes: seq<GameNode>)
    ensures var k := FirstUndiscovered(nodes);
            (k.Some? ==> forall j :: 0 <= j < k.value ==> nodes[j].discovered) &&
            (k.None? ==> forall j :: 0 <= j < |nodes| ==> nodes[j].discovered)
  {
    if nodes != [] && nodes[0].discovered {
      FirstUndiscoveredFirst(nodes[1..]);
    }
  }

  /** Changing any field but the id keeps the lookup of every module id. */
  lemma {:induction false} ModuleIndexIgnoresNonIdFields(mods: seq<GameModule>, mods': seq<GameModule>, id: string)
    requires |mods| == |mods'|
    requires forall j :: 0 <= j < |mods| ==> mods[j].id == mods'[j].id
    ensures ModuleIndex(mods, id) == ModuleIndex(mods', id)
  {
    if mods != [] && mods[0].id != id {
      ModuleIndexIgnoresNonIdFields(mods[1..], mods'[1..], id);
    }
  }

  /** Changing any field but the id keeps the lookup of every node id. */
  lemma {:induction false} NodeIndexIgnoresNonIdFields(nodes: seq<GameNode>, nodes': seq<GameNode>, id: string)
    requires |nodes| == |nodes'|
    requires forall j :: 0 <= j < |nodes| ==> nodes[j].id == nodes'[j].id
    ensures NodeIndex(nodes, id) == NodeIndex(nodes', id)
  {
    if nodes != [] && nodes[0].id != id {
      NodeIndexIgnoresNonIdFields(nodes[1..], nodes'[1..], id);
    }
  }

  /** A reward of resources and experience that unlocks no module. */
  function Gains(plasma: real, clots: real, essence: real, experience: real): Option<Reward> {
    Some(Reward(clots, plasma, essence, None, experience))
  }

  /** The map of a new game, in discovery order. */
  const BaseNodes: seq<GameNode> := [
    GameNode("n1", Harvest, 1, true, false, Gains(25.0, 0.0, 0.0, 12.0)),
    GameNode("n2", Battle, 2, false, false, Gains(0.0, 10.0, 2.0, 26.0)),
    GameNode("n3", Ruins, 3, false, false, Gains(0.0, 0.0, 6.0, 32.0)),
    GameNode("n4", Forge, 3, false, false, Some(Reward(0.0, 0.0, 0.0, Some("forge-core"), 40.0))),
    GameNode("n5", Battle, 4, false, false, Gains(0.0, 18.0, 4.0, 46.0)),
    GameNode("n6", Relay, 4, false, false, Gains(45.0, 0.0, 3.0, 50.0)),
    GameNode("n7", Harvest, 5, false, false, Gains(60.0, 12.0, 0.0, 54.0)),
    GameNode("n8", Ruins, 5, false, false, Gains(0.0, 0.0, 10.0, 60.0)),
    GameNode("n9", Battle, 6, false, false, Gains(0.0, 28.0, 6.0, 70.0)),
    GameNode("n10", Sanctuary, 6, false, false, Gains(90.0, 0.0, 5.0, 76.0)),
    GameNode("n11", Forge, 7, false, false, Some(Reward(0.0, 0.0, 0.0, Some("rally-node"), 84.0))),
    GameNode("n12", Boss, 8, false, false, Gains(0.0, 60.0, 16.0, 120.0))
  ]

  /** The module table of a new game, all locked. */
  const BaseModules: seq<GameModule> := [
    GameModule("pulse-harvester", Cost(12.0, 40.0, 0.0), Effects(0.0, 0.0, 1.4, 0.0, 0.0, 0.0), false),
    GameModule("veil-shroud", Cost(0.0, 25.0, 4.0), Effects(0.0, 1.0, 0.0, 8.0, 0.0, 0.0), false),
    GameModule("hem-arsenal", Cost(20.0, 0.0, 6.0), Effects(3.0, 0.0, 0.0, 0.0, 0.0, 0.0), false),
    GameModule("energy-loop", Cost(0.0, 60.0, 3.0), Effects(0.0, 0.0, 0.0, 0.0, 2.0, 0.0), false),
    GameModule("forge-core", Cost(30.0, 0.0, 10.0), Effects(0.0, 2.0, 0.8, 0.0, 0.0, 0.0), false),
    GameModule("rally-node", Cost(28.0, 0.0, 8.0), Effects(0.0, 0.0, 0.0, 0.0, 0.0, 8.0), false),
    GameModule("blood-matrix", Cost(40.0, 55.0, 0.0), Effects(2.0, 1.0, 0.0, 0.0, 0.0, 0.0), false),
    GameModule("silent-veil", Cost(0.0, 80.0, 10.0), Effects(0.0, 0.0, 0.0, 12.0, 0.0, 0.0), false)
  ]

  /** The three doctrines; the engine never changes them. */
  const BaseDoctrines: seq<Doctrine> := [
    Doctrine("reaver", Cost(0.0, 40.0, 6.0), Effects(2.0, 0.0, 0.8, 0.0, 0.0, 0.0)),
    Doctrine("warden", Cost(20.0, 0.0, 6.0), Effects(0.0, 2.0, 0.0, 6.0, 0.0, 6.0)),
    Doctrine("weaver", Cost(0.0, 30.0, 5.0), Effects(0.0, 0.0, 1.1, 0.0, 1.0, 0.0))
  ]
}
