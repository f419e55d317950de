/**
 * Pure rules of map progress (src/composables/useGameState.ts): which node the next
 * discovery reveals, what a node reward grants, and the enemy a battle node sends.
 */
module MapRules {
  import opened Common
  import opened GameTypes
  import opened EventLog
  import opened Combat
  import opened Progression

  /** The node registry after `unlockNextNode`: the first undiscovered node, if any, is discovered. */
  function DiscoverNext(nodes: seq<GameNode>): seq<GameNode> {
    match FirstUndiscovered(nodes)
    case None => nodes
    case Some(k) => nodes[k := nodes[k].(discovered := true)]
  }

  /** The log after `unlockNextNode`: the discovered node is reported. */
  function DiscoverLog(log: seq<Event>, nodes: seq<GameNode>): seq<Event> {
    match FirstUndiscovered(nodes)
    case None => log
    case Some(k) => AppendLog(log, SectorDiscovered(nodes[k].id))
  }

  /**
   * A node is discovered exactly when one is left undiscovered; it is the first such
   * node in map order, and no other node and no id or cleared flag changes.
   */
  lemma DiscoverNextEffect(nodes: seq<GameNode>)
    ensures var r := DiscoverNext(nodes);
            |r| == |nodes| &&
            (FirstUndiscovered(nodes).Some? <==> exists j :: 0 <= j < |nodes| && !nodes[j].discovered) &&
            (FirstUndiscovered(nodes).None? ==> r == nodes) &&
            (forall j :: 0 <= j < |nodes| ==> r[j].id == nodes[j].id && r[j].cleared == nodes[j].cleared) &&
            (forall j :: 0 <= j < |nodes| && Some(j) != FirstUndiscovered(nodes) ==> r[j] == nodes[j]) &&
            (FirstUndiscovered(nodes).Some? ==>
               var k := FirstUndiscovered(nodes).value;
               r[k].discovered && (forall j :: 0 <= j < k ==> nodes[j].discovered))
  {
    FirstUndiscoveredFirst(nodes);
  }

  /** Discovery changes no id, so every node lookup by id is unchanged. */
  lemma DiscoverKeepsLookup(nodes: seq<GameNode>, id: string)
    ensures NodeIndex(DiscoverNext(nodes), id) == NodeIndex(nodes, id)
  {
    DiscoverNextEffect(nodes);
    NodeIndexIgnoresNonIdFields(nodes, DiscoverNext(nodes), id);
  }

  function ClearNode(nodes: seq<GameNode>, k: nat): seq<GameNode>
    requires k < |nodes|
  {
    nodes[k := nodes[k].(cleared := true)]
  }

  /**
   * Clearing node `k` and then discovering the next node leaves node `k` in its
   * place, cleared and with its id, so the lookup of its id still finds it.
   */
  lemma ClaimKeepsNode(nodes: seq<GameNode>, k: nat)
    requires k < |nodes|
    ensures var r := DiscoverNext(ClearNode(nodes, k));
            |r| == |nodes| && r[k].cleared && r[k].id == nodes[k].id &&
            NodeIndex(r, nodes[k].id) == NodeIndex(nodes, nodes[k].id)
  {
    var cleared := ClearNode(nodes, k);
    NodeIndexIgnoresNonIdFields(nodes, cleared, nodes[k].id);
    DiscoverNextEffect(cleared);
    DiscoverKeepsLookup(cleared, nodes[k].id);
  }

  function Unlocked(mods: seq<GameModule>, k: nat): seq<GameModule>
    requires k < |mods|
  {
    mods[k := mods[k].(unlocked := true)]
  }

  /**
   * After module `k` is unlocked, looking up its id finds it again, now unlocked:
   * a second purchase of the same id is refused.
   */
  lemma UnlockedStaysFound(mods: seq<GameModule>, id: string)
    requires ModuleIndex(mods, id).Some?
    ensures var k := ModuleIndex(mods, id).value;
            ModuleIndex(Unlocked(mods, k), id) == Some(k) && Unlocked(mods, k)[k].unlocked
  {
    var k := ModuleIndex(mods, id).value;
    ModuleIndexIgnoresNonIdFields(mods, Unlocked(mods, k), id);
  }

  /** The entries a reward grants; a missing reward grants nothing, and only positive experience counts. */
  function RewardClots(reward: Option<Reward>): real { if reward.Some? then reward.value.clots else 0.0 }
  function RewardPlasma(reward: Option<Reward>): real { if reward.Some? then reward.value.plasma else 0.0 }
  function RewardEssence(reward: Option<Reward>): real { if reward.Some? then reward.value.essence else 0.0 }
  function RewardExperience(reward: Option<Reward>): real {
    if reward.Some? && reward.value.experience > 0.0 then reward.value.experience else 0.0
  }

  /**
   * The module a reward unlocks for free: the first module with the id the reward
   * names (a non-empty one), provided it is still locked.
   */
  function FreeModule(mods: seq<GameModule>, reward: Option<Reward>): (k: Option<nat>)
    ensures k.Some? ==> k.value < |mods| && !mods[k.value].unlocked &&
                        reward.Some? && reward.value.moduleId == Some(mods[k.value].id) &&
                        ModuleIndex(mods, mods[k.value].id) == k
    ensures k.None? ==> reward.None? || reward.value.moduleId.None? || reward.value.moduleId.value == "" ||
                        ModuleIndex(mods, reward.value.moduleId.value).None? ||
                        mods[ModuleIndex(mods, reward.value.moduleId.value).value].unlocked
  {
    if reward.None? || reward.value.moduleId.None? || reward.value.moduleId.value == "" then None
    else match ModuleIndex(mods, reward.value.moduleId.value)
      case None => None
      case Some(k) => if mods[k].unlocked then None else Some(k)
  }

  /** The module table after a reward: the free module, if any, unlocked. */
  function RewardModules(mods: seq<GameModule>, reward: Option<Reward>): seq<GameModule> {
    match FreeModule(mods, reward)
    case None => mods
    case Some(k) => Unlocked(mods, k)
  }

  /** The log after a reward: a free module is reported. */
  function RewardLog(log: seq<Event>, mods: seq<GameModule>, reward: Option<Reward>): seq<Event> {
    match FreeModule(mods, reward)
    case None => log
    case Some(k) => AppendLog(log, ModuleFound(mods[k].id))
  }

  /** A reward unlocks at most one module and changes no module's id, cost or effects. */
  lemma RewardModulesEffect(mods: seq<GameModule>, reward: Option<Reward>)
    ensures var r := RewardModules(mods, reward);
            |r| == |mods| &&
            (forall j :: 0 <= j < |mods| ==>
               r[j].id == mods[j].id && r[j].cost == mods[j].cost && r[j].effects == mods[j].effects) &&
            (forall j :: 0 <= j < |mods| && Some(j) != FreeModule(mods, reward) ==> r[j] == mods[j]) &&
            (FreeModule(mods, reward).Some? ==> r[FreeModule(mods, reward).value].unlocked)
  {
  }

  /** A reward changes no module's effects, so non-negative effects stay non-negative. */
  lemma RewardKeepsNonNegative(mods: seq<GameModule>, reward: Option<Reward>)
    ensures AllEffectsNonNegative(mods) ==> AllEffectsNonNegative(RewardModules(mods, reward))
  {
    RewardModulesEffect(mods, reward);
  }

  /** The same reward granted a second time finds its module unlocked and unlocks nothing. */
  lemma RewardModulesOnce(mods: seq<GameModule>, reward: Option<Reward>)
    ensures FreeModule(RewardModules(mods, reward), reward).None?
  {
    var r := RewardModules(mods, reward);
    if FreeModule(mods, reward).Some? {
      var k := FreeModule(mods, reward).value;
      ModuleIndexIgnoresNonIdFields(mods, r, mods[k].id);
    }
  }

  predicate IsBattle(node: GameNode) { node.kind == Battle || node.kind == Boss }

  function EnemyBaseHp(node: GameNode): real { if node.kind == Boss then 80.0 else 38.0 }

  /** The enemy of a battle or boss node, at full health, with a freshly rolled intent. */
  function EnemyFor(node: GameNode, intentRoll: real): (e: Encounter)
    requires 0.0 <= intentRoll < 1.0
    ensures e.hp == e.maxHp == EnemyBaseHp(node) + 8.0 * node.difficulty as real
    ensures e.hp >= 38.0 && (node.kind == Boss ==> e.hp >= 80.0)
    ensures e.nodeId == node.id && e.reward == node.reward
    ensures e.attack == 7.0 + 2.4 * node.difficulty as real
  {
    var hp := EnemyBaseHp(node) + node.difficulty as real * 8.0;
    Encounter(node.id, hp, hp, 7.0 + node.difficulty as real * 2.4,
              RollEnemyIntent(node.difficulty, intentRoll), node.reward)
  }
}
