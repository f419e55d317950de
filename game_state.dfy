/**
 * The game-state engine of src/composables/useGameState.ts as a class: one field per
 * piece of reactive state (the two `combatState` flags are the fields `guarded` and
 * `focused`), one method per operation, updating the fields step by step as the
 * source does. Derived values (`stats`, `levelInfo`, the maxima) are the pure
 * functions of module Progression applied to the fields.
 */
module GameState {
  import opened Common
  import opened GameTypes
  import opened EventLog
  import opened Progression
  import opened Combat
  import opened MapRules

  /** Plasma one gathering yields: round(14 + 3 * plasmaRate), at least 14 for a non-negative rate. */
  function GatherYield(stats: Effects): (n: int)
    ensures 0.0 <= stats.plasmaRate ==> 14 <= n
  {
    Round(14.0 + stats.plasmaRate * 3.0)
  }

  const StabilizeCost := Cost(0.0, 20.0, 1.0)
  const AdvanceCost := Cost(0.0, 0.0, 4.0)

  /** The node `exploreNode` acts on: the first whose id the selection names. */
  function SelectedIndex(nodes: seq<GameNode>, selected: Option<string>): (k: Option<nat>)
    ensures k.Some? ==> k.value < |nodes| && selected == Some(nodes[k.value].id)
  {
    if selected.None? then None else NodeIndex(nodes, selected.value)
  }

  /**
   * Exploring a peaceful node leaves the selection on that node, now cleared, so
   * exploring it again does nothing.
   */
  lemma ExploreClearsSelection(nodes: seq<GameNode>, selected: Option<string>)
    requires SelectedIndex(nodes, selected).Some?
    ensures var k := SelectedIndex(nodes, selected).value;
            var r := DiscoverNext(ClearNode(nodes, k));
            SelectedIndex(r, selected) == Some(k) && r[k].cleared
  {
    ClaimKeepsNode(nodes, SelectedIndex(nodes, selected).value);
  }

  /** The log with `e` appended when `b` holds. */
  function LogIf(log: seq<Event>, b: bool, e: Event): seq<Event> {
    if b then AppendLog(log, e) else log
  }

  /** The damage an enemy turn deals under the given stats and guard: at least 1. */
  function EnemyDamage(enc: Encounter, stats: Effects, guarded: bool): (n: int)
    ensures n >= 1
  {
    FinalDamage(MitigatedDamage(enc.attack, enc.intent, DefensePower(stats)), guarded)
  }

  /** Guarding never makes an enemy turn hurt more. */
  lemma GuardedDamageNoWorse(enc: Encounter, stats: Effects)
    ensures EnemyDamage(enc, stats, true) <= EnemyDamage(enc, stats, false)
  {
    GuardNeverHurts(MitigatedDamage(enc.attack, enc.intent, DefensePower(stats)));
  }

  /** The entries of one enemy turn: the shield, the drain, then the blow. */
  function TurnLog(log: seq<Event>, guarded: bool, intent: IntentKind, damage: int): seq<Event> {
    AppendLog(LogIf(LogIf(log, guarded, ShieldAbsorbed), intent == Drain, EnergyDrained), EnemyStruck(intent, damage))
  }

  /** The encounter after an enemy turn: a new intent is rolled when the enemy's node exists. */
  function Rerolled(enc: Encounter, nodes: seq<GameNode>, intentRoll: real): (r: Encounter)
    requires 0.0 <= intentRoll < 1.0
    ensures r == enc.(intent := r.intent)
  {
    match NodeIndex(nodes, enc.nodeId)
    case None => enc
    case Some(i) => enc.(intent := RollEnemyIntent(nodes[i].difficulty, intentRoll))
  }

  /** The enemy after a player strike: its health lowered by the damage, floored at 0. */
  function Struck(enc: Encounter, damage: int): (r: Encounter)
    ensures r == enc.(hp := r.hp) && 0.0 <= r.hp
    ensures 0.0 <= enc.hp && 0 <= damage ==> r.hp <= enc.hp
    ensures r.hp <= 0.0 <==> enc.hp <= damage as real
  {
    enc.(hp := Max(0.0, enc.hp - damage as real))
  }

  /** The report of a player strike: a pulse strike, or a hemo-burst. */
  function StrikeEvent(burst: bool, hit: Hit): (e: Event)
    ensures (e.PulseStrike? || e.HemoBurst?) && e.damage == hit.damage && e.isCrit == hit.isCrit
    ensures burst <==> e.HemoBurst?
  {
    if burst then HemoBurst(hit.damage, hit.isCrit) else PulseStrike(hit.damage, hit.isCrit)
  }

  /** The fields an enemy turn changes, besides spending the guard. */
  datatype Aftermath = Aftermath(integrity: real, threat: real, energy: real, encounter: Encounter, log: seq<Event>)

  /** Reference definition of an enemy turn. */
  function EnemyTurn(enc: Encounter, stats: Effects, guarded: bool, integrity: real, threat: real, energy: real,
                     log: seq<Event>, nodes: seq<GameNode>, intentRoll: real): (t: Aftermath)
    requires 0.0 <= intentRoll < 1.0
  {
    var damage := EnemyDamage(enc, stats, guarded);
    Aftermath(Max(0.0, integrity - damage as real), Min(100.0, threat + ThreatGain(enc.intent)),
              if enc.intent == Drain then Max(0.0, energy - DrainAmount(enc.intent)) else energy,
              Rerolled(enc, nodes, intentRoll), TurnLog(log, guarded, enc.intent, damage))
  }

  /**
   * An enemy turn keeps integrity at or above 0, and threat, energy and the log
   * within their bounds; integrity drops by at least 1 unless it reaches 0.
   */
  lemma EnemyTurnBounds(enc: Encounter, stats: Effects, guarded: bool, integrity: real, threat: real,
                        energy: real, log: seq<Event>, nodes: seq<GameNode>, intentRoll: real)
    requires 0.0 <= intentRoll < 1.0
    ensures var t := EnemyTurn(enc, stats, guarded, integrity, threat, energy, log, nodes, intentRoll);
            0.0 <= t.integrity && (t.integrity == 0.0 || t.integrity <= integrity - 1.0) &&
            t.threat <= 100.0 && (t.threat == 100.0 || threat < t.threat) && (0.0 <= threat ==> 0.0 <= t.threat) &&
            (0.0 <= energy ==> 0.0 <= t.energy <= energy) &&
            (|log| <= LogCapacity ==> |t.log| <= LogCapacity) &&
            t.encounter == enc.(intent := t.encounter.intent)
  {
  }

  /** Raising the guard never leaves less integrity after the enemy's turn. */
  lemma GuardedTurnNoWorse(enc: Encounter, stats: Effects, integrity: real, threat: real,
                           energy: real, log: seq<Event>, nodes: seq<GameNode>, intentRoll: real)
    requires 0.0 <= intentRoll < 1.0
    ensures EnemyTurn(enc, stats, true, integrity, threat, energy, log, nodes, intentRoll).integrity >=
            EnemyTurn(enc, stats, false, integrity, threat, energy, log, nodes, intentRoll).integrity
  {
    GuardedDamageNoWorse(enc, stats);
  }

  /** The fields a won fight changes, besides closing it. */
  datatype Spoils = Spoils(nodes: seq<GameNode>, modules: seq<GameModule>, clots: real, plasma: real,
                           essence: real, experience: real, log: seq<Event>)

  /** Reference definition of a won fight worth `gain` experience. */
  function Victory(enc: Encounter, gain: real, nodes: seq<GameNode>, modules: seq<GameModule>, clots: real,
                   plasma: real, essence: real, experience: real, log: seq<Event>): (v: Spoils)
  {
    var reward := VictoryReward(nodes, enc);
    Spoils(VictoryNodes(nodes, enc.nodeId), RewardModules(modules, reward),
           clots + RewardClots(reward), plasma + RewardPlasma(reward), essence + RewardEssence(reward),
           experience + RewardExperience(reward) + (if NodeIndex(nodes, enc.nodeId).Some? then gain else 0.0),
           VictoryLog(log, nodes, modules, enc))
  }

  /** The node registry after a won fight: the enemy's node, when it exists, cleared, then the next one discovered. */
  function VictoryNodes(nodes: seq<GameNode>, nodeId: string): seq<GameNode> {
    match NodeIndex(nodes, nodeId)
    case None => nodes
    case Some(i) => DiscoverNext(ClearNode(nodes, i))
  }

  /** What a won fight grants: the enemy's reward, provided the enemy's node exists. */
  function VictoryReward(nodes: seq<GameNode>, enc: Encounter): (r: Option<Reward>)
    ensures NodeIndex(nodes, enc.nodeId).Some? ==> r == enc.reward
    ensures NodeIndex(nodes, enc.nodeId).None? ==> r.None?
  {
    if NodeIndex(nodes, enc.nodeId).Some? then enc.reward else None
  }

  /** The log after a won fight: the reward's module, the discovery, then the neutralized threat. */
  function VictoryLog(log: seq<Event>, nodes: seq<GameNode>, mods: seq<GameModule>, enc: Encounter): seq<Event> {
    match NodeIndex(nodes, enc.nodeId)
    case None => AppendLog(log, ThreatNeutralized(enc.nodeId))
    case Some(i) => AppendLog(DiscoverLog(RewardLog(log, mods, enc.reward), ClearNode(nodes, i)), ThreatNeutralized(enc.nodeId))
  }

  /**
   * A won fight whose node exists clears that node, grants at least `gain` experience
   * and keeps the log bounded and module effects non-negative; whose node is gone
   * grants nothing and only reports the neutralized threat.
   */
  lemma VictoryEffect(enc: Encounter, gain: real, nodes: seq<GameNode>, modules: seq<GameModule>, clots: real,
                      plasma: real, essence: real, experience: real, log: seq<Event>)
    ensures var v := Victory(enc, gain, nodes, modules, clots, plasma, essence, experience, log);
            (|log| <= LogCapacity ==> |v.log| <= LogCapacity) &&
            (AllEffectsNonNegative(modules) ==> AllEffectsNonNegative(v.modules)) &&
            (NodeIndex(nodes, enc.nodeId).Some? ==>
               var k := NodeIndex(nodes, enc.nodeId).value;
               |v.nodes| == |nodes| && v.nodes[k].cleared && NodeIndex(v.nodes, enc.nodeId) == Some(k) &&
               experience + gain <= v.experience) &&
            (NodeIndex(nodes, enc.nodeId).None? ==>
               v == Spoils(nodes, modules, clots, plasma, essence, experience, AppendLog(log, ThreatNeutralized(enc.nodeId))))
  {
    RewardKeepsNonNegative(modules, VictoryReward(nodes, enc));
    if NodeIndex(nodes, enc.nodeId).Some? {
      ClaimKeepsNode(nodes, NodeIndex(nodes, enc.nodeId).value);
    }
  }

  /** The combat flags as a parsed save document holds them; `None` marks a missing entry. */
  datatype CombatDoc = CombatDoc(guarded: Option<bool>, focused: Option<bool>)

  /**
   * A parsed save document; `None` marks a missing or null entry. A non-array `nodes`,
   * `modules` or `log` entry is modelled as missing, which is how the loader treats it.
   */
  datatype SaveDoc = SaveDoc(
    version: int, day: Option<real>, clots: Option<real>, plasma: Option<real>,
    essence: Option<real>, energy: Option<real>, threat: Option<real>, masking: Option<real>,
    integrity: Option<real>, experience: Option<real>,
    nodes: Option<seq<GameNode>>, modules: Option<seq<GameModule>>, log: Option<seq<Event>>,
    encounter: Option<Encounter>, combatState: Option<CombatDoc>, selectedDoctrineId: Option<string>)

  const SaveVersion := 3

  /** What decoding a share code produced: a decoding error, or a parsed value (`None` for a non-object). */
  datatype Decoded = Malformed | Parsed(doc: Option<SaveDoc>)

  class Game {
    var day: real
    var clots: real
    var plasma: real
    var essence: real
    var energy: real
    var threat: real
    var masking: real
    var integrity: real
    var experience: real
    var nodes: seq<GameNode>
    var modules: seq<GameModule>
    var doctrines: seq<Doctrine>
    var selectedDoctrineId: Option<string>
    var log: seq<Event>
    var encounter: Option<Encounter>
    var guarded: bool
    var focused: bool
    var selectedNodeId: Option<string>

    /** A new game: the starting ledger, the base map, modules and doctrines, the first node selected. */
    constructor ()
      ensures day == 1.0 && clots == 25.0 && plasma == 60.0 && essence == 2.0 && energy == 5.0
      ensures threat == 12.0 && masking == 65.0 && integrity == 100.0 && experience == 0.0
      ensures nodes == BaseNodes && modules == BaseModules && doctrines == BaseDoctrines
      ensures selectedDoctrineId.None? && log == [] && encounter.None? && !guarded && !focused
      ensures selectedNodeId == Some("n1")
    {
      day, clots, plasma, essence, energy := 1.0, 25.0, 60.0, 2.0, 5.0;
      threat, masking, integrity, experience := 12.0, 65.0, 100.0, 0.0;
      nodes, modules, doctrines := BaseNodes, BaseModules, BaseDoctrines;
      selectedDoctrineId, log, encounter := None, [], None;
      guarded, focused := false, false;
      selectedNodeId := Some(BaseNodes[0].id);
    }

    /**
     * The game `useGameState` builds over a stored save: each entry present replaces the
     * new-game value and each missing one keeps it, combat flags missing from the save
     * are off, the doctrine table is the base one, nothing is logged, and the first
     * node of the restored map (if any) is selected.
     */
    constructor Restored(saved: SaveDoc)
      ensures day == saved.day.GetOr(1.0) && clots == saved.clots.GetOr(25.0) &&
              plasma == saved.plasma.GetOr(60.0) && essence == saved.essence.GetOr(2.0) &&
              energy == saved.energy.GetOr(5.0)
      ensures threat == saved.threat.GetOr(12.0) && masking == saved.masking.GetOr(65.0) &&
              integrity == saved.integrity.GetOr(100.0) && experience == saved.experience.GetOr(0.0)
      ensures nodes == saved.nodes.GetOr(BaseNodes) && modules == saved.modules.GetOr(BaseModules) &&
              doctrines == BaseDoctrines
      ensures selectedDoctrineId == saved.selectedDoctrineId && log == saved.log.GetOr([]) &&
              encounter == saved.encounter
      ensures guarded == (saved.combatState.Some? && saved.combatState.value.guarded.GetOr(false))
      ensures focused == (saved.combatState.Some? && saved.combatState.value.focused.GetOr(false))
      ensures selectedNodeId == (if |nodes| > 0 then Some(nodes[0].id) else None)
    {
      var restoredNodes := saved.nodes.GetOr(BaseNodes);
      var combat := saved.combatState.GetOr(CombatDoc(None, None));
      day, clots, plasma := saved.day.GetOr(1.0), saved.clots.GetOr(25.0), saved.plasma.GetOr(60.0);
      essence, energy, threat := saved.essence.GetOr(2.0), saved.energy.GetOr(5.0), saved.threat.GetOr(12.0);
      masking, integrity := saved.masking.GetOr(65.0), saved.integrity.GetOr(100.0);
      experience := saved.experience.GetOr(0.0);
      nodes, modules, doctrines := restoredNodes, saved.modules.GetOr(BaseModules), BaseDoctrines;
      selectedDoctrineId, log, encounter := saved.selectedDoctrineId, saved.log.GetOr([]), saved.encounter;
      guarded, focused := combat.guarded.GetOr(false), combat.focused.GetOr(false);
      selectedNodeId := if |restoredNodes| > 0 then Some(restoredNodes[0].id) else None;
    }

    /** `logEvent`: the entry is pushed and, past the capacity, the oldest one shifted out. */
    method LogEvent(e: Event)
      modifies this`log
      ensures log == AppendLog(old(log), e)
    {
      log := log + [e];
      if |log| > LogCapacity {
        log := log[1..];
      }
    }

    /** `gainExperience`: only a positive amount counts. */
    method GainExperience(amount: real)
      modifies this`experience
      ensures experience == old(experience) + (if amount > 0.0 then amount else 0.0)
      ensures experience >= old(experience)
    {
      if amount <= 0.0 {
        return;
      }
      experience := experience + amount;
    }

    /** `spendCost`: debits every entry of the cost, affordable or not. */
    method SpendCost(cost: Cost)
      modifies this`clots, this`plasma, this`essence
      ensures clots == old(clots) - cost.clots && plasma == old(plasma) - cost.plasma
      ensures essence == old(essence) - cost.essence
    {
      if cost.clots != 0.0 {
        clots := clots - cost.clots;
      }
      if cost.plasma != 0.0 {
        plasma := plasma - cost.plasma;
      }
      if cost.essence != 0.0 {
        essence := essence - cost.essence;
      }
    }

    /** `spendEnergy`: fails, changing nothing, when energy is short; never drives it negative. */
    method SpendEnergy(amount: real) returns (ok: bool)
      modifies this`energy
      ensures ok <==> amount <= old(energy)
      ensures ok ==> energy == old(energy) - amount && 0.0 <= energy
      ensures !ok ==> energy == old(energy)
    {
      if energy < amount {
        return false;
      }
      energy := energy - amount;
      return true;
    }

    /**
     * `buyModule`: a no-op for an unknown id, an unlocked module or an unaffordable
     * cost; otherwise the cost is debited once and that module alone is unlocked.
     */
    method BuyModule(id: string)
      modifies this`clots, this`plasma, this`essence, this`modules, this`log
      ensures var k := ModuleIndex(old(modules), id);
              if k.Some? && !old(modules)[k.value].unlocked &&
                 CanAfford(old(clots), old(plasma), old(essence), old(modules)[k.value].cost)
              then var cost := old(modules)[k.value].cost;
                   clots == old(clots) - cost.clots && plasma == old(plasma) - cost.plasma &&
                   essence == old(essence) - cost.essence &&
                   modules == Unlocked(old(modules), k.value) && log == AppendLog(old(log), ModuleIntegrated(id))
              else unchanged(this)
      ensures |old(log)| <= LogCapacity ==> |log| <= LogCapacity
      ensures AllEffectsNonNegative(old(modules)) ==> AllEffectsNonNegative(modules)
      ensures 0.0 <= old(clots) && 0.0 <= old(plasma) && 0.0 <= old(essence) ==>
                0.0 <= clots && 0.0 <= plasma && 0.0 <= essence
    {
      var k := ModuleIndex(modules, id);
      if k.None? || modules[k.value].unlocked || !CanAfford(clots, plasma, essence, modules[k.value].cost) {
        return;
      }
      SpendCost(modules[k.value].cost);
      modules := modules[k.value := modules[k.value].(unlocked := true)];
      LogEvent(ModuleIntegrated(id));
    }

    /**
     * `adoptDoctrine`: a known, affordable doctrine is paid for and selected, whatever
     * was selected before, so adopting it again charges again.
     */
    method AdoptDoctrine(id: string)
      modifies this`clots, this`plasma, this`essence, this`selectedDoctrineId, this`log
      ensures var k := DoctrineIndex(old(doctrines), id);
              if k.Some? && CanAfford(old(clots), old(plasma), old(essence), old(doctrines)[k.value].cost)
              then var cost := old(doctrines)[k.value].cost;
                   clots == old(clots) - cost.clots && plasma == old(plasma) - cost.plasma &&
                   essence == old(essence) - cost.essence &&
                   selectedDoctrineId == Some(id) && log == AppendLog(old(log), DoctrineAdopted(id))
              else unchanged(this)
      ensures |old(log)| <= LogCapacity ==> |log| <= LogCapacity
      ensures 0.0 <= old(clots) && 0.0 <= old(plasma) && 0.0 <= old(essence) ==>
                0.0 <= clots && 0.0 <= plasma && 0.0 <= essence
    {
      var k := DoctrineIndex(doctrines, id);
      if k.None? || !CanAfford(clots, plasma, essence, doctrines[k.value].cost) {
        return;
      }
      var doctrine := doctrines[k.value];
      SpendCost(doctrine.cost);
      selectedDoctrineId := Some(doctrine.id);
      LogEvent(DoctrineAdopted(doctrine.id));
    }

    /** `gatherPlasma`: one energy buys the gathering yield in plasma and 3 experience. */
    method GatherPlasma()
      modifies this`energy, this`plasma, this`experience, this`log
      ensures old(energy) < 1.0 ==> unchanged(this)
      ensures 1.0 <= old(energy) ==>
                var gained := GatherYield(old(Stats(modules, doctrines, selectedDoctrineId, experience)));
                energy == old(energy) - 1.0 && plasma == old(plasma) + gained as real &&
                experience == old(experience) + 3.0 && log == AppendLog(old(log), PlasmaGathered(gained))
      ensures 0.0 <= old(energy) ==> 0.0 <= energy
      ensures |old(log)| <= LogCapacity ==> |log| <= LogCapacity
    {
      var ok := SpendEnergy(1.0);
      if !ok {
        return;
      }
      var gained := GatherYield(Stats(modules, doctrines, selectedDoctrineId, experience));
      plasma := plasma + gained as real;
      GainExperience(3.0);
      LogEvent(PlasmaGathered(gained));
    }

    /**
     * `refineClots`: 18 plasma into 6 clots and 4 experience. Short of plasma, plasma
     * is untouched, but the energy already spent is not refunded.
     */
    method RefineClots()
      modifies this`energy, this`plasma, this`clots, this`experience, this`log
      ensures old(energy) < 1.0 ==> unchanged(this)
      ensures 1.0 <= old(energy) ==> energy == old(energy) - 1.0
      ensures 1.0 <= old(energy) && old(plasma) < 18.0 ==>
                plasma == old(plasma) && clots == old(clots) && experience == old(experience) &&
                log == AppendLog(old(log), PlasmaShortForRefining)
      ensures 1.0 <= old(energy) && 18.0 <= old(plasma) ==>
                plasma == old(plasma) - 18.0 && clots == old(clots) + 6.0 &&
                experience == old(experience) + 4.0 && log == AppendLog(old(log), ClotsRefined)
      ensures 0.0 <= old(energy) ==> 0.0 <= energy
      ensures |old(log)| <= LogCapacity ==> |log| <= LogCapacity
    {
      var ok := SpendEnergy(1.0);
      if !ok {
        return;
      }
      if plasma < 18.0 {
        LogEvent(PlasmaShortForRefining);
        return;
      }
      plasma := plasma - 18.0;
      clots := clots + 6.0;
      GainExperience(4.0);
      LogEvent(ClotsRefined);
    }

    /**
     * `transmuteEssence`: two energy turn 12 clots into 3 essence and 6 experience.
     * Short of clots, clots are untouched, but the energy is not refunded.
     */
    method TransmuteEssence()
      modifies this`energy, this`clots, this`essence, this`experience, this`log
      ensures old(energy) < 2.0 ==> unchanged(this)
      ensures 2.0 <= old(energy) ==> energy == old(energy) - 2.0
      ensures 2.0 <= old(energy) && old(clots) < 12.0 ==>
                clots == old(clots) && essence == old(essence) && experience == old(experience) &&
                log == AppendLog(old(log), ClotsShortForTransmuting)
      ensures 2.0 <= old(energy) && 12.0 <= old(clots) ==>
                clots == old(clots) - 12.0 && essence == old(essence) + 3.0 &&
                experience == old(experience) + 6.0 && log == AppendLog(old(log), EssenceTransmuted)
      ensures 0.0 <= old(energy) ==> 0.0 <= energy
      ensures |old(log)| <= LogCapacity ==> |log| <= LogCapacity
    {
      var ok := SpendEnergy(2.0);
      if !ok {
        return;
      }
      if clots < 12.0 {
        LogEvent(ClotsShortForTransmuting);
        return;
      }
      clots := clots - 12.0;
      essence := essence + 3.0;
      GainExperience(6.0);
      LogEvent(EssenceTransmuted);
    }

    /**
     * `reinforceMasking`: 2 essence raise masking by 6 (capped at 100), lower threat
     * by 8 (floored at 0) and give 4 experience. Short of essence, only the energy is lost.
     */
    method ReinforceMasking()
      modifies this`energy, this`essence, this`masking, this`threat, this`experience, this`log
      ensures old(energy) < 1.0 ==> unchanged(this)
      ensures 1.0 <= old(energy) ==> energy == old(energy) - 1.0
      ensures 1.0 <= old(energy) && old(essence) < 2.0 ==>
                essence == old(essence) && masking == old(masking) && threat == old(threat) &&
                experience == old(experience) && log == AppendLog(old(log), EssenceShortForMasking)
      ensures 1.0 <= old(energy) && 2.0 <= old(essence) ==>
                essence == old(essence) - 2.0 && masking == Min(100.0, old(masking) + 6.0) &&
                threat == Max(0.0, old(threat) - 8.0) && experience == old(experience) + 4.0 &&
                log == AppendLog(old(log), MaskingReinforced)
      ensures 0.0 <= old(energy) ==> 0.0 <= energy
      ensures 0.0 <= old(threat) <= 100.0 ==> 0.0 <= threat <= 100.0
      ensures 0.0 <= old(masking) <= 100.0 ==> 0.0 <= masking <= 100.0
      ensures |old(log)| <= LogCapacity ==> |log| <= LogCapacity
    {
      var ok := SpendEnergy(1.0);
      if !ok {
        return;
      }
      if essence < 2.0 {
        LogEvent(EssenceShortForMasking);
        return;
      }
      essence := essence - 2.0;
      masking := Min(100.0, masking + 6.0);
      threat := Max(0.0, threat - 8.0);
      GainExperience(4.0);
      LogEvent(MaskingReinforced);
    }

    /** `unlockNextNode`: discovers the first undiscovered node and reports whether there was one. */
    method UnlockNextNode() returns (found: bool)
      modifies this`nodes, this`log
      ensures found <==> FirstUndiscovered(old(nodes)).Some?
      ensures nodes == DiscoverNext(old(nodes)) && log == DiscoverLog(old(log), old(nodes))
    {
      var next := FirstUndiscovered(nodes);
      if next.Some? {
        var node := nodes[next.value];
        nodes := nodes[next.value := node.(discovered := true)];
        LogEvent(SectorDiscovered(node.id));
        return true;
      }
      return false;
    }

    /**
     * `scanFlow`: one energy lowers threat by 6 (floored at 0) and gives 5 experience;
     * a roll above 0.7 also discovers the next node.
     */
    method ScanFlow(roll: real)
      modifies this`energy, this`threat, this`nodes, this`experience, this`log
      ensures old(energy) < 1.0 ==> unchanged(this)
      ensures 1.0 <= old(energy) ==>
                energy == old(energy) - 1.0 && threat == Max(0.0, old(threat) - 6.0) &&
                experience == old(experience) + 5.0 &&
                nodes == (if roll > 0.7 then DiscoverNext(old(nodes)) else old(nodes)) &&
                log == AppendLog(if roll > 0.7 then DiscoverLog(old(log), old(nodes)) else old(log), FlowScanned)
      ensures 0.0 <= old(energy) ==> 0.0 <= energy
      ensures 0.0 <= old(threat) <= 100.0 ==> 0.0 <= threat <= 100.0
      ensures |old(log)| <= LogCapacity ==> |log| <= LogCapacity
    {
      var ok := SpendEnergy(1.0);
      if !ok {
        return;
      }
      threat := Max(0.0, threat - 6.0);
      if roll > 0.7 {
        var _ := UnlockNextNode();
      }
      GainExperience(5.0);
      LogEvent(FlowScanned);
    }

    /**
     * `stabilizeCore`: two energy and the stabilizing cost restore 10 integrity, capped
     * at the maximum, and give 6 experience. Unaffordable, the resources are untouched
     * but the energy is lost.
     */
    method StabilizeCore()
      modifies this`energy, this`clots, this`plasma, this`essence, this`integrity, this`experience, this`log
      ensures old(energy) < 2.0 ==> unchanged(this)
      ensures 2.0 <= old(energy) ==> energy == old(energy) - 2.0 && clots == old(clots)
      ensures 2.0 <= old(energy) && !CanAfford(old(clots), old(plasma), old(essence), StabilizeCost) ==>
                plasma == old(plasma) && essence == old(essence) && integrity == old(integrity) &&
                experience == old(experience) && log == AppendLog(old(log), ResourcesShortForStabilizing)
      ensures 2.0 <= old(energy) && CanAfford(old(clots), old(plasma), old(essence), StabilizeCost) ==>
                plasma == old(plasma) - 20.0 && essence == old(essence) - 1.0 &&
                integrity == Min(MaxIntegrity(old(Stats(modules, doctrines, selectedDoctrineId, experience))),
                                 old(integrity) + 10.0) &&
                experience == old(experience) + 6.0 && log == AppendLog(old(log), CoreStabilized)
      ensures 0.0 <= old(energy) ==> 0.0 <= energy
      ensures 0.0 <= old(integrity) && AllEffectsNonNegative(modules) && DoctrinesNonNegative(doctrines) ==>
                0.0 <= integrity
      ensures 0.0 <= old(clots) && 0.0 <= old(plasma) && 0.0 <= old(essence) ==>
                0.0 <= clots && 0.0 <= plasma && 0.0 <= essence
      ensures |old(log)| <= LogCapacity ==> |log| <= LogCapacity
    {
      var ok := SpendEnergy(2.0);
      if !ok {
        return;
      }
      if !CanAfford(clots, plasma, essence, StabilizeCost) {
        LogEvent(ResourcesShortForStabilizing);
        return;
      }
      SpendCost(StabilizeCost);
      var stats := Stats(modules, doctrines, selectedDoctrineId, experience);
      StatsNonNegative(modules, doctrines, selectedDoctrineId, experience);
      integrity := Min(MaxIntegrity(stats), integrity + 10.0);
      GainExperience(6.0);
      LogEvent(CoreStabilized);
    }

    /**
     * `advanceFront`: two energy and 4 essence try to discover the next node, raise
     * threat by 6 (capped at 100) and give 8 experience, whether or not a node was left.
     */
    method AdvanceFront()
      modifies this`energy, this`clots, this`plasma, this`essence, this`nodes, this`threat,
               this`experience, this`log
      ensures old(energy) < 2.0 ==> unchanged(this)
      ensures 2.0 <= old(energy) ==> energy == old(energy) - 2.0 && clots == old(clots) && plasma == old(plasma)
      ensures 2.0 <= old(energy) && old(essence) < 4.0 ==>
                essence == old(essence) && nodes == old(nodes) && threat == old(threat) &&
                experience == old(experience) && log == AppendLog(old(log), EssenceShortForAdvance)
      ensures 2.0 <= old(energy) && 4.0 <= old(essence) ==>
                essence == old(essence) - 4.0 && nodes == DiscoverNext(old(nodes)) &&
                threat == Min(100.0, old(threat) + 6.0) && experience == old(experience) + 8.0 &&
                log == AppendLog(DiscoverLog(old(log), old(nodes)),
                                 if FirstUndiscovered(old(nodes)).Some? then FrontierExpanded else AllSectorsDiscovered)
      ensures 0.0 <= old(energy) ==> 0.0 <= energy
      ensures 0.0 <= old(threat) <= 100.0 ==> 0.0 <= threat <= 100.0
      ensures 0.0 <= old(clots) && 0.0 <= old(plasma) && 0.0 <= old(essence) ==>
                0.0 <= clots && 0.0 <= plasma && 0.0 <= essence
      ensures |old(log)| <= LogCapacity ==> |log| <= LogCapacity
    {
      var ok := SpendEnergy(2.0);
      if !ok {
        return;
      }
      if !CanAfford(clots, plasma, essence, AdvanceCost) {
        LogEvent(EssenceShortForAdvance);
        return;
      }
      SpendCost(AdvanceCost);
      var unlocked := UnlockNextNode();
      threat := Min(100.0, threat + 6.0);
      GainExperience(8.0);
      if unlocked {
        LogEvent(FrontierExpanded);
      } else {
        LogEvent(AllSectorsDiscovered);
      }
    }

    /**
     * `resolveNodeReward`: adds the reward's resources, its experience when positive,
     * and unlocks its module for free when that module exists and is still locked.
     */
    method ResolveNodeReward(reward: Option<Reward>)
      modifies this`plasma, this`clots, this`essence, this`experience, this`modules, this`log
      ensures clots == old(clots) + RewardClots(reward) && plasma == old(plasma) + RewardPlasma(reward)
      ensures essence == old(essence) + RewardEssence(reward)
      ensures experience == old(experience) + RewardExperience(reward)
      ensures modules == RewardModules(old(modules), reward) && log == RewardLog(old(log), old(modules), reward)
    {
      if reward.None? {
        return;
      }
      var rw := reward.value;
      var p, c, e := plasma, clots, essence;
      if rw.plasma != 0.0 {
        p := p + rw.plasma;
      }
      if rw.clots != 0.0 {
        c := c + rw.clots;
      }
      if rw.essence != 0.0 {
        e := e + rw.essence;
      }
      plasma, clots, essence := p, c, e;
      if rw.experience != 0.0 {
        GainExperience(rw.experience);
      }
      UnlockRewardModule(reward);
    }

    /** The module part of `resolveNodeReward`: the named module, found and still locked, is unlocked and reported. */
    method UnlockRewardModule(reward: Option<Reward>)
      modifies this`modules, this`log
      ensures modules == RewardModules(old(modules), reward) && log == RewardLog(old(log), old(modules), reward)
    {
      if reward.None? || reward.value.moduleId.None? || reward.value.moduleId.value == "" {
        return;
      }
      var k := ModuleIndex(modules, reward.value.moduleId.value);
      if k.Some? && !modules[k.value].unlocked {
        var found := modules[k.value];
        modules := modules[k.value := found.(unlocked := true)];
        LogEvent(ModuleFound(found.id));
      }
    }

    /**
     * `exploreNode`: nothing happens, and no energy is spent, without a selected node
     * or on a cleared one. A battle or boss node starts a fight against a fresh enemy;
     * any other node is cleared, its reward granted, the next node discovered and 10
     * experience given, so exploring it again grants nothing.
     */
    method ExploreNode(intentRoll: real)
      requires 0.0 <= intentRoll < 1.0
      modifies this`energy, this`encounter, this`focused, this`guarded, this`log, this`nodes,
               this`plasma, this`clots, this`essence, this`experience, this`modules
      ensures var k := SelectedIndex(old(nodes), old(selectedNodeId));
              k.None? || old(nodes)[k.value].cleared || old(energy) < 2.0 ==> unchanged(this)
      ensures var k := SelectedIndex(old(nodes), old(selectedNodeId));
              k.Some? && !old(nodes)[k.value].cleared && 2.0 <= old(energy) && IsBattle(old(nodes)[k.value]) ==>
                var node := old(nodes)[k.value];
                energy == old(energy) - 2.0 && encounter == Some(EnemyFor(node, intentRoll)) &&
                !focused && !guarded && log == AppendLog(old(log), HostileContact(node.id)) &&
                nodes == old(nodes) && plasma == old(plasma) && clots == old(clots) &&
                essence == old(essence) && experience == old(experience) && modules == old(modules)
      ensures var k := SelectedIndex(old(nodes), old(selectedNodeId));
              k.Some? && !old(nodes)[k.value].cleared && 2.0 <= old(energy) && !IsBattle(old(nodes)[k.value]) ==>
                var node := old(nodes)[k.value];
                var cleared := ClearNode(old(nodes), k.value);
                energy == old(energy) - 2.0 && nodes == DiscoverNext(cleared) &&
                clots == old(clots) + RewardClots(node.reward) && plasma == old(plasma) + RewardPlasma(node.reward) &&
                essence == old(essence) + RewardEssence(node.reward) &&
                experience == old(experience) + RewardExperience(node.reward) + 10.0 &&
                modules == RewardModules(old(modules), node.reward) &&
                log == AppendLog(DiscoverLog(RewardLog(old(log), old(modules), node.reward), cleared), SectorStabilized(node.id)) &&
                encounter == old(encounter) && focused == old(focused) && guarded == old(guarded)
      ensures 0.0 <= old(energy) ==> 0.0 <= energy
      ensures |old(log)| <= LogCapacity ==> |log| <= LogCapacity
      ensures AllEffectsNonNegative(old(modules)) ==> AllEffectsNonNegative(modules)
    {
      var k := SelectedIndex(nodes, selectedNodeId);
      if k.None? || nodes[k.value].cleared {
        return;
      }
      var node := nodes[k.value];
      var ok := SpendEnergy(2.0);
      if !ok {
        return;
      }
      if IsBattle(node) {
        StartEncounter(node, intentRoll);
      } else {
        StabilizeSector(k.value);
      }
    }

    /** The battle branch of `exploreNode`: a fresh enemy for the node, both combat flags reset. */
    method StartEncounter(node: GameNode, intentRoll: real)
      requires 0.0 <= intentRoll < 1.0
      modifies this`encounter, this`focused, this`guarded, this`log
      ensures encounter == Some(EnemyFor(node, intentRoll)) && !focused && !guarded
      ensures log == AppendLog(old(log), HostileContact(node.id))
    {
      encounter := Some(EnemyFor(node, intentRoll));
      focused := false;
      guarded := false;
      LogEvent(HostileContact(node.id));
    }

    /** The peaceful branch of `exploreNode`: node `k` is claimed for 10 experience and reported. */
    method StabilizeSector(k: nat)
      requires k < |nodes|
      modifies this`nodes, this`plasma, this`clots, this`essence, this`experience, this`modules, this`log
      ensures var node := old(nodes)[k];
              var cleared := ClearNode(old(nodes), k);
              nodes == DiscoverNext(cleared) &&
              clots == old(clots) + RewardClots(node.reward) && plasma == old(plasma) + RewardPlasma(node.reward) &&
              essence == old(essence) + RewardEssence(node.reward) &&
              experience == old(experience) + RewardExperience(node.reward) + 10.0 &&
              modules == RewardModules(old(modules), node.reward) &&
              log == AppendLog(DiscoverLog(RewardLog(old(log), old(modules), node.reward), cleared),
                               SectorStabilized(node.id))
      ensures |old(log)| <= LogCapacity ==> |log| <= LogCapacity
      ensures AllEffectsNonNegative(old(modules)) ==> AllEffectsNonNegative(modules)
    {
      var node := nodes[k];
      ClaimNode(k, node.reward, 10.0);
      LogEvent(SectorStabilized(node.id));
    }

    /**
     * What clearing a node does, in exploration and in victory alike: node `k` is
     * cleared, the reward granted, the next node discovered and `gain` experience
     * given. The node keeps its place and id, so looking it up again finds it cleared.
     */
    method ClaimNode(k: nat, reward: Option<Reward>, gain: real)
      requires k < |nodes| && 0.0 < gain
      modifies this`nodes, this`plasma, this`clots, this`essence, this`experience, this`modules, this`log
      ensures var cleared := ClearNode(old(nodes), k);
              nodes == DiscoverNext(cleared) &&
              clots == old(clots) + RewardClots(reward) && plasma == old(plasma) + RewardPlasma(reward) &&
              essence == old(essence) + RewardEssence(reward) &&
              experience == old(experience) + RewardExperience(reward) + gain &&
              modules == RewardModules(old(modules), reward) &&
              log == DiscoverLog(RewardLog(old(log), old(modules), reward), cleared)
      ensures |old(log)| <= LogCapacity ==> |log| <= LogCapacity
      ensures AllEffectsNonNegative(old(modules)) ==> AllEffectsNonNegative(modules)
    {
      RewardKeepsNonNegative(modules, reward);
      nodes := ClearNode(nodes, k);
      ResolveNodeReward(reward);
      var _ := UnlockNextNode();
      GainExperience(gain);
    }

    /** `applyCombatDamage`: the strike under the current focus and level; the focus is spent. */
    method ApplyCombatDamage(base: real, critRoll: real) returns (hit: Hit)
      modifies this`focused
      ensures hit == StrikeDamage(base, old(focused), LevelOf(old(experience)), critRoll) && !focused
    {
      var focusBonus := if focused then 1.35 else 1.0;
      var critChance := 0.1 + LevelOf(experience) as real * 0.02;
      var isCrit := critRoll < critChance;
      var damage := (base * focusBonus * (if isCrit then 1.8 else 1.0)).Floor;
      focused := false;
      return Hit(damage, isCrit);
    }

    /**
     * `resolveEnemyTurn`: the enemy deals at least 1 damage (0.55 times as much, rounded
     * down, when guarded, and the guard is spent); integrity is floored at 0, threat
     * capped at 100, a drain takes 0.8 energy floored at 0, and a new intent is rolled
     * when the enemy's node exists.
     */
    method ResolveEnemyTurn(intentRoll: real)
      requires 0.0 <= intentRoll < 1.0
      modifies this`guarded, this`log, this`integrity, this`threat, this`energy, this`encounter
      ensures old(encounter).None? ==> unchanged(this)
      ensures old(encounter).Some? ==>
                var enc := old(encounter).value;
                var t := EnemyTurn(enc, old(Stats(modules, doctrines, selectedDoctrineId, experience)), old(guarded), old(integrity), old(threat), old(energy), old(log), old(nodes), intentRoll);
                !guarded && integrity == t.integrity && threat == t.threat && energy == t.energy &&
                encounter == Some(t.encounter) && log == t.log
    {
      if encounter.None? {
        return;
      }
      var enc := encounter.value;
      var node := NodeIndex(nodes, enc.nodeId);
      var intent := enc.intent;
      var finalDamage := EnemyDamage(enc, Stats(modules, doctrines, selectedDoctrineId, experience), guarded);
      if guarded {
        guarded := false;
        LogEvent(ShieldAbsorbed);
      }
      TakeBlow(intent, finalDamage);
      if node.Some? {
        encounter := Some(enc.(intent := RollEnemyIntent(nodes[node.value].difficulty, intentRoll)));
      }
    }

    /**
     * The blow of an enemy turn: integrity loses the damage (floored at 0), threat
     * rises by the intent's gain (capped at 100), a drain takes its energy (floored
     * at 0) and is reported, then the blow is reported.
     */
    method TakeBlow(intent: IntentKind, damage: int)
      modifies this`integrity, this`threat, this`energy, this`log
      ensures integrity == Max(0.0, old(integrity) - damage as real)
      ensures threat == Min(100.0, old(threat) + ThreatGain(intent))
      ensures energy == (if intent == Drain then Max(0.0, old(energy) - DrainAmount(intent)) else old(energy))
      ensures log == AppendLog(LogIf(old(log), intent == Drain, EnergyDrained), EnemyStruck(intent, damage))
    {
      integrity := Max(0.0, integrity - damage as real);
      threat := Min(100.0, threat + ThreatGain(intent));
      if DrainAmount(intent) != 0.0 {
        energy := Max(0.0, energy - DrainAmount(intent));
        LogEvent(EnergyDrained);
      }
      LogEvent(EnemyStruck(intent, damage));
    }

    /**
     * The victory shared by `attackEnemy` and `burst`: the enemy's node, when it
     * exists, is claimed for `gain` experience; the threat is reported neutralized
     * and the fight closed.
     */
    method DefeatEnemy(gain: real)
      requires encounter.Some? && 0.0 < gain
      modifies this`nodes, this`plasma, this`clots, this`essence, this`experience, this`modules, this`log,
               this`encounter, this`focused, this`guarded
      ensures var enc := old(encounter).value;
              var v := Victory(enc, gain, old(nodes), old(modules), old(clots), old(plasma), old(essence), old(experience), old(log));
              nodes == v.nodes && modules == v.modules && clots == v.clots && plasma == v.plasma &&
              essence == v.essence && experience == v.experience && log == v.log
      ensures encounter.None? && !focused && !guarded
      ensures |old(log)| <= LogCapacity ==> |log| <= LogCapacity
      ensures AllEffectsNonNegative(old(modules)) ==> AllEffectsNonNegative(modules)
    {
      var enc := encounter.value;
      var k := NodeIndex(nodes, enc.nodeId);
      if k.Some? {
        ClaimNode(k.value, enc.reward, gain);
      }
      LogEvent(ThreatNeutralized(enc.nodeId));
      CloseEncounter();
    }

    /**
     * The end of a player's strike in `attackEnemy` and `burst`: a foe at no health
     * is defeated for `gain` experience, any other takes its turn.
     */
    method FinishRound(gain: real, intentRoll: real)
      requires encounter.Some? && 0.0 < gain && 0.0 <= intentRoll < 1.0
      modifies this`nodes, this`plasma, this`clots, this`essence, this`experience, this`modules, this`log,
               this`encounter, this`focused, this`guarded, this`integrity, this`threat, this`energy
      ensures var enc := old(encounter).value;
              enc.hp <= 0.0 ==>
                var v := Victory(enc, gain, old(nodes), old(modules), old(clots), old(plasma), old(essence), old(experience), old(log));
                nodes == v.nodes && modules == v.modules && clots == v.clots && plasma == v.plasma &&
                essence == v.essence && experience == v.experience && log == v.log &&
                encounter.None? && !focused && !guarded &&
                integrity == old(integrity) && threat == old(threat) && energy == old(energy)
      ensures var enc := old(encounter).value;
              0.0 < enc.hp ==>
                var t := EnemyTurn(enc, old(Stats(modules, doctrines, selectedDoctrineId, experience)), old(guarded), old(integrity), old(threat), old(energy), old(log), old(nodes), intentRoll);
                !guarded && integrity == t.integrity && threat == t.threat && energy == t.energy &&
                encounter == Some(t.encounter) && log == t.log &&
                nodes == old(nodes) && plasma == old(plasma) && clots == old(clots) && essence == old(essence) &&
                experience == old(experience) && modules == old(modules) && focused == old(focused)
    {
      if encounter.value.hp <= 0.0 {
        DefeatEnemy(gain);
      } else {
        ResolveEnemyTurn(intentRoll);
      }
    }

    /** A player strike: the damage under the current focus and level lowers the enemy's health, and is reported. */
    method Strike(base: real, critRoll: real, burst: bool) returns (hit: Hit)
      requires encounter.Some?
      modifies this`focused, this`encounter, this`log
      ensures hit == StrikeDamage(base, old(focused), LevelOf(old(experience)), critRoll) && !focused
      ensures encounter == Some(Struck(old(encounter).value, hit.damage))
      ensures log == AppendLog(old(log), StrikeEvent(burst, hit))
    {
      hit := ApplyCombatDamage(base, critRoll);
      var enc := encounter.value;
      encounter := Some(enc.(hp := Max(0.0, enc.hp - hit.damage as real)));
      LogEvent(StrikeEvent(burst, hit));
    }

    /**
     * A strike and what follows it, common to `attackEnemy` and `burst`: an enemy left
     * at no health is defeated for `gain` experience, any other strikes back.
     */
    method StrikeRound(base: real, critRoll: real, burst: bool, gain: real, intentRoll: real)
      requires encounter.Some? && 0.0 < gain && 0.0 <= intentRoll < 1.0
      modifies this`nodes, this`plasma, this`clots, this`essence, this`experience, this`modules, this`log,
               this`encounter, this`focused, this`guarded, this`integrity, this`threat, this`energy
      ensures var hit := StrikeDamage(base, old(focused), LevelOf(old(experience)), critRoll);
              var enc := Struck(old(encounter).value, hit.damage);
              var log1 := AppendLog(old(log), StrikeEvent(burst, hit));
              if enc.hp <= 0.0 then
                var v := Victory(enc, gain, old(nodes), old(modules), old(clots), old(plasma), old(essence), old(experience), log1);
                nodes == v.nodes && modules == v.modules && clots == v.clots && plasma == v.plasma &&
                essence == v.essence && experience == v.experience && log == v.log &&
                encounter.None? && !focused && !guarded &&
                integrity == old(integrity) && threat == old(threat) && energy == old(energy)
              else
                var t := EnemyTurn(enc, old(Stats(modules, doctrines, selectedDoctrineId, experience)), old(guarded), old(integrity), old(threat), old(energy), log1, old(nodes), intentRoll);
                !guarded && integrity == t.integrity && threat == t.threat && energy == t.energy &&
                encounter == Some(t.encounter) && log == t.log &&
                nodes == old(nodes) && plasma == old(plasma) && clots == old(clots) && essence == old(essence) &&
                experience == old(experience) && modules == old(modules) && !focused
    {
      var _ := Strike(base, critRoll, burst);
      FinishRound(gain, intentRoll);
    }

    /**
     * `attackEnemy`: one energy buys a strike of the attack power plus a bonus of 0
     * to 4; then the enemy is defeated (24 experience) or strikes back. Without a
     * fight or the energy, nothing happens.
     */
    method AttackEnemy(bonusRoll: real, critRoll: real, intentRoll: real)
      requires 0.0 <= bonusRoll < 1.0 && 0.0 <= intentRoll < 1.0
      modifies this`nodes, this`plasma, this`clots, this`essence, this`experience, this`modules, this`log,
               this`encounter, this`focused, this`guarded, this`integrity, this`threat, this`energy
      ensures old(encounter).None? || old(energy) < 1.0 ==> unchanged(this)
      ensures old(encounter).Some? && 1.0 <= old(energy) ==>
                var stats := old(Stats(modules, doctrines, selectedDoctrineId, experience));
                var hit := StrikeDamage(AttackPower(stats) + AttackBonus(bonusRoll) as real, old(focused),
                                        LevelOf(old(experience)), critRoll);
                var enc := Struck(old(encounter).value, hit.damage);
                var log1 := AppendLog(old(log), PulseStrike(hit.damage, hit.isCrit));
                if enc.hp <= 0.0 then
                  var v := Victory(enc, 24.0, old(nodes), old(modules), old(clots), old(plasma), old(essence), old(experience), log1);
                  nodes == v.nodes && modules == v.modules && clots == v.clots && plasma == v.plasma &&
                  essence == v.essence && experience == v.experience && log == v.log &&
                  encounter.None? && !focused && !guarded &&
                  integrity == old(integrity) && threat == old(threat) && energy == old(energy) - 1.0
                else
                  var t := EnemyTurn(enc, stats, old(guarded), old(integrity), old(threat), old(energy) - 1.0, log1, old(nodes), intentRoll);
                  !guarded && integrity == t.integrity && threat == t.threat && energy == t.energy &&
                  encounter == Some(t.encounter) && log == t.log &&
                  nodes == old(nodes) && plasma == old(plasma) && clots == old(clots) && essence == old(essence) &&
                  experience == old(experience) && modules == old(modules) && !focused
    {
      if encounter.None? {
        return;
      }
      var ok := SpendEnergy(1.0);
      if !ok {
        return;
      }
      assert encounter == old(encounter) && focused == old(focused) && guarded == old(guarded) &&
             Stats(modules, doctrines, selectedDoctrineId, experience) == old(Stats(modules, doctrines, selectedDoctrineId, experience));
      PulseAttack(bonusRoll, critRoll, intentRoll);
    }

    /** The paid part of `attackEnemy`: a strike of the attack power plus 0 to 4, worth 24 experience on a kill. */
    method PulseAttack(bonusRoll: real, critRoll: real, intentRoll: real)
      requires encounter.Some? && 0.0 <= bonusRoll < 1.0 && 0.0 <= intentRoll < 1.0
      modifies this`nodes, this`plasma, this`clots, this`essence, this`experience, this`modules, this`log,
               this`encounter, this`focused, this`guarded, this`integrity, this`threat, this`energy
      ensures var stats := old(Stats(modules, doctrines, selectedDoctrineId, experience));
              var hit := StrikeDamage(AttackPower(stats) + AttackBonus(bonusRoll) as real, old(focused),
                                      LevelOf(old(experience)), critRoll);
              var enc := Struck(old(encounter).value, hit.damage);
              var log1 := AppendLog(old(log), PulseStrike(hit.damage, hit.isCrit));
              if enc.hp <= 0.0 then
                var v := Victory(enc, 24.0, old(nodes), old(modules), old(clots), old(plasma), old(essence), old(experience), log1);
                nodes == v.nodes && modules == v.modules && clots == v.clots && plasma == v.plasma &&
                essence == v.essence && experience == v.experience && log == v.log &&
                encounter.None? && !focused && !guarded &&
                integrity == old(integrity) && threat == old(threat) && energy == old(energy)
              else
                var t := EnemyTurn(enc, stats, old(guarded), old(integrity), old(threat), old(energy), log1, old(nodes), intentRoll);
                !guarded && integrity == t.integrity && threat == t.threat && energy == t.energy &&
                encounter == Some(t.encounter) && log == t.log &&
                nodes == old(nodes) && plasma == old(plasma) && clots == old(clots) && essence == old(essence) &&
                experience == old(experience) && modules == old(modules) && !focused
    {
      var base := AttackPower(Stats(modules, doctrines, selectedDoctrineId, experience)) + AttackBonus(bonusRoll) as real;
      StrikeRound(base, critRoll, false, 24.0, intentRoll);
    }

    /**
     * `burst`: two energy and 6 clots buy a strike of the attack power plus 12; then
     * the enemy is defeated (30 experience) or strikes back. Short of clots, the
     * energy is lost and the shortage reported; without a fight or the energy,
     * nothing happens.
     */
    method Burst(critRoll: real, intentRoll: real)
      requires 0.0 <= intentRoll < 1.0
      modifies this`nodes, this`plasma, this`clots, this`essence, this`experience, this`modules, this`log,
               this`encounter, this`focused, this`guarded, this`integrity, this`threat, this`energy
      ensures old(encounter).None? || old(energy) < 2.0 ==> unchanged(this)
      ensures old(encounter).Some? && 2.0 <= old(energy) && old(clots) < 6.0 ==>
                energy == old(energy) - 2.0 && log == AppendLog(old(log), ClotsShortForBurst) &&
                nodes == old(nodes) && plasma == old(plasma) && clots == old(clots) && essence == old(essence) &&
                experience == old(experience) && modules == old(modules) && encounter == old(encounter) &&
                focused == old(focused) && guarded == old(guarded) && integrity == old(integrity) &&
                threat == old(threat)
      ensures old(encounter).Some? && 2.0 <= old(energy) && 6.0 <= old(clots) ==>
                var stats := old(Stats(modules, doctrines, selectedDoctrineId, experience));
                var hit := StrikeDamage(AttackPower(stats) + 12.0, old(focused), LevelOf(old(experience)), critRoll);
                var enc := Struck(old(encounter).value, hit.damage);
                var log1 := AppendLog(old(log), HemoBurst(hit.damage, hit.isCrit));
                if enc.hp <= 0.0 then
                  var v := Victory(enc, 30.0, old(nodes), old(modules), old(clots) - 6.0, old(plasma), old(essence),
                                   old(experience), log1);
                  nodes == v.nodes && modules == v.modules && clots == v.clots && plasma == v.plasma &&
                  essence == v.essence && experience == v.experience && log == v.log &&
                  encounter.None? && !focused && !guarded &&
                  integrity == old(integrity) && threat == old(threat) && energy == old(energy) - 2.0
                else
                  var t := EnemyTurn(enc, stats, old(guarded), old(integrity), old(threat), old(energy) - 2.0,
                                     log1, old(nodes), intentRoll);
                  !guarded && integrity == t.integrity && threat == t.threat && energy == t.energy &&
                  encounter == Some(t.encounter) && log == t.log &&
                  nodes == old(nodes) && plasma == old(plasma) && clots == old(clots) - 6.0 &&
                  essence == old(essence) && experience == old(experience) && modules == old(modules) && !focused
    {
      if encounter.None? {
        return;
      }
      var ok := SpendEnergy(2.0);
      if !ok {
        return;
      }
      assert encounter == old(encounter) && clots == old(clots) && focused == old(focused) &&
             Stats(modules, doctrines, selectedDoctrineId, experience) == old(Stats(modules, doctrines, selectedDoctrineId, experience));
      PayForBurst(critRoll, intentRoll);
    }

    /** The part of `burst` after the energy is spent: short of 6 clots, the shortage is reported and nothing else happens. */
    method PayForBurst(critRoll: real, intentRoll: real)
      requires encounter.Some? && 0.0 <= intentRoll < 1.0
      modifies this`nodes, this`plasma, this`clots, this`essence, this`experience, this`modules, this`log,
               this`encounter, this`focused, this`guarded, this`integrity, this`threat, this`energy
      ensures old(clots) < 6.0 ==>
                log == AppendLog(old(log), ClotsShortForBurst) && energy == old(energy) &&
                nodes == old(nodes) && plasma == old(plasma) && clots == old(clots) && essence == old(essence) &&
                experience == old(experience) && modules == old(modules) && encounter == old(encounter) &&
                focused == old(focused) && guarded == old(guarded) && integrity == old(integrity) &&
                threat == old(threat)
      ensures 6.0 <= old(clots) ==>
                var stats := old(Stats(modules, doctrines, selectedDoctrineId, experience));
                var hit := StrikeDamage(AttackPower(stats) + 12.0, old(focused), LevelOf(old(experience)), critRoll);
                var enc := Struck(old(encounter).value, hit.damage);
                var log1 := AppendLog(old(log), HemoBurst(hit.damage, hit.isCrit));
                if enc.hp <= 0.0 then
                  var v := Victory(enc, 30.0, old(nodes), old(modules), old(clots) - 6.0, old(plasma), old(essence),
                                   old(experience), log1);
                  nodes == v.nodes && modules == v.modules && clots == v.clots && plasma == v.plasma &&
                  essence == v.essence && experience == v.experience && log == v.log &&
                  encounter.None? && !focused && !guarded &&
                  integrity == old(integrity) && threat == old(threat) && energy == old(energy)
                else
                  var t := EnemyTurn(enc, stats, old(guarded), old(integrity), old(threat), old(energy),
                                     log1, old(nodes), intentRoll);
                  !guarded && integrity == t.integrity && threat == t.threat && energy == t.energy &&
                  encounter == Some(t.encounter) && log == t.log &&
                  nodes == old(nodes) && plasma == old(plasma) && clots == old(clots) - 6.0 &&
                  essence == old(essence) && experience == old(experience) && modules == old(modules) && !focused
    {
      if clots < 6.0 {
        LogEvent(ClotsShortForBurst);
        return;
      }
      BurstStrike(critRoll, intentRoll);
    }

    /** The paid part of `burst`: 6 clots buy a strike of the attack power plus 12, worth 30 experience on a kill. */
    method BurstStrike(critRoll: real, intentRoll: real)
      requires encounter.Some? && 6.0 <= clots && 0.0 <= intentRoll < 1.0
      modifies this`nodes, this`plasma, this`clots, this`essence, this`experience, this`modules, this`log,
               this`encounter, this`focused, this`guarded, this`integrity, this`threat, this`energy
      ensures var stats := old(Stats(modules, doctrines, selectedDoctrineId, experience));
              var hit := StrikeDamage(AttackPower(stats) + 12.0, old(focused), LevelOf(old(experience)), critRoll);
              var enc := Struck(old(encounter).value, hit.damage);
              var log1 := AppendLog(old(log), HemoBurst(hit.damage, hit.isCrit));
              if enc.hp <= 0.0 then
                var v := Victory(enc, 30.0, old(nodes), old(modules), old(clots) - 6.0, old(plasma), old(essence),
                                 old(experience), log1);
                nodes == v.nodes && modules == v.modules && clots == v.clots && plasma == v.plasma &&
                essence == v.essence && experience == v.experience && log == v.log &&
                encounter.None? && !focused && !guarded &&
                integrity == old(integrity) && threat == old(threat) && energy == old(energy)
              else
                var t := EnemyTurn(enc, stats, old(guarded), old(integrity), old(threat), old(energy),
                                   log1, old(nodes), intentRoll);
                !guarded && integrity == t.integrity && threat == t.threat && energy == t.energy &&
                encounter == Some(t.encounter) && log == t.log &&
                nodes == old(nodes) && plasma == old(plasma) && clots == old(clots) - 6.0 &&
                essence == old(essence) && experience == old(experience) && modules == old(modules) && !focused
    {
      clots := clots - 6.0;
      assert encounter == old(encounter) && focused == old(focused) && guarded == old(guarded) &&
             Stats(modules, doctrines, selectedDoctrineId, experience) == old(Stats(modules, doctrines, selectedDoctrineId, experience));
      StrikeRound(AttackPower(Stats(modules, doctrines, selectedDoctrineId, experience)) + 12.0, critRoll, true, 30.0, intentRoll);
    }

    /** `focus`: one energy charges the next strike; then the enemy takes its turn. */
    method Focus(intentRoll: real)
      requires 0.0 <= intentRoll < 1.0
      modifies this`energy, this`focused, this`guarded, this`log, this`integrity, this`threat, this`encounter
      ensures old(encounter).None? || old(energy) < 1.0 ==> unchanged(this)
      ensures old(encounter).Some? && 1.0 <= old(energy) ==>
                var t := EnemyTurn(old(encounter).value, old(Stats(modules, doctrines, selectedDoctrineId, experience)),
                                   old(guarded), old(integrity), old(threat), old(energy) - 1.0,
                                   AppendLog(old(log), FocusCharged), old(nodes), intentRoll);
                focused && !guarded && integrity == t.integrity && threat == t.threat && energy == t.energy &&
                encounter == Some(t.encounter) && log == t.log
    {
      if encounter.None? {
        return;
      }
      var ok := SpendEnergy(1.0);
      if !ok {
        return;
      }
      focused := true;
      LogEvent(FocusCharged);
      assert encounter == old(encounter) && guarded == old(guarded) &&
             Stats(modules, doctrines, selectedDoctrineId, experience) == old(Stats(modules, doctrines, selectedDoctrineId, experience));
      ResolveEnemyTurn(intentRoll);
    }

    /** `guard`: one energy raises the guard for the enemy's turn, which follows at once and spends it. */
    method Guard(intentRoll: real)
      requires 0.0 <= intentRoll < 1.0
      modifies this`energy, this`guarded, this`log, this`integrity, this`threat, this`encounter
      ensures old(encounter).None? || old(energy) < 1.0 ==> unchanged(this)
      ensures old(encounter).Some? && 1.0 <= old(energy) ==>
                var t := EnemyTurn(old(encounter).value, old(Stats(modules, doctrines, selectedDoctrineId, experience)),
                                   true, old(integrity), old(threat), old(energy) - 1.0,
                                   AppendLog(old(log), GuardRaised), old(nodes), intentRoll);
                !guarded && integrity == t.integrity && threat == t.threat && energy == t.energy &&
                encounter == Some(t.encounter) && log == t.log
    {
      if encounter.None? {
        return;
      }
      var ok := SpendEnergy(1.0);
      if !ok {
        return;
      }
      guarded := true;
      LogEvent(GuardRaised);
      ResolveEnemyTurn(intentRoll);
    }

    /** `retreat`: the fight is abandoned for 8 threat (capped at 100); no energy is needed. */
    method Retreat()
      modifies this`encounter, this`focused, this`guarded, this`threat, this`log
      ensures old(encounter).None? ==> unchanged(this)
      ensures old(encounter).Some? ==>
                encounter.None? && !focused && !guarded && threat == Min(100.0, old(threat) + 8.0) &&
                log == AppendLog(old(log), Retreated)
    {
      if encounter.None? {
        return;
      }
      CloseEncounter();
      threat := Min(100.0, threat + 8.0);
      LogEvent(Retreated);
    }

    /**
     * `tick`: once integrity is gone nothing changes. Otherwise a day passes, the
     * plasma rate is gathered, energy regenerates 0.6 up to its maximum, masking
     * decays 0.4 down to 0 and threat grows by 0.6 less 0.05 per point of masking
     * stat (never negative, capped at 100); at 90 threat or more an immune storm
     * costs 4 integrity.
     */
    method Tick()
      modifies this`day, this`plasma, this`energy, this`masking, this`threat, this`integrity, this`log
      ensures old(integrity) <= 0.0 ==> unchanged(this)
      ensures 0.0 < old(integrity) ==>
                var stats := old(Stats(modules, doctrines, selectedDoctrineId, experience));
                day == old(day) + 1.0 && plasma == old(plasma) + PlasmaRate(stats) &&
                energy == Min(MaxEnergy(stats), old(energy) + 0.6) && masking == Max(0.0, old(masking) - 0.4) &&
                threat == Min(100.0, old(threat) + Max(0.0, 0.6 - stats.masking * 0.05)) &&
                integrity == (if 90.0 <= threat then Max(0.0, old(integrity) - 4.0) else old(integrity)) &&
                log == LogIf(old(log), 90.0 <= threat, ImmuneStorm)
      ensures 0.0 < old(integrity) ==>
                energy <= MaxEnergy(old(Stats(modules, doctrines, selectedDoctrineId, experience))) &&
                0.0 <= masking && threat <= 100.0 && (threat == 100.0 || old(threat) <= threat)
    {
      if integrity <= 0.0 {
        return;
      }
      var stats := Stats(modules, doctrines, selectedDoctrineId, experience);
      day := day + 1.0;
      plasma := plasma + PlasmaRate(stats);
      energy := Min(MaxEnergy(stats), energy + 0.6);
      masking := Max(0.0, masking - 0.4);
      threat := Min(100.0, threat + Max(0.0, 0.6 - stats.masking * 0.05));
      if threat >= 90.0 {
        integrity := Max(0.0, integrity - 4.0);
        LogEvent(ImmuneStorm);
      }
    }

    /**
     * `createSavePayload`: the save document of the current state, every entry
     * present, at format version 3. The selected node is not saved.
     */
    function SavePayload(): (d: SaveDoc)
      reads this
      ensures d.version == SaveVersion
      ensures d.day.Some? && d.clots.Some? && d.plasma.Some? && d.essence.Some? && d.energy.Some?
      ensures d.threat.Some? && d.masking.Some? && d.integrity.Some? && d.experience.Some?
      ensures d.nodes.Some? && d.modules.Some? && d.log.Some?
      ensures d.combatState.Some? && d.combatState.value.guarded.Some? && d.combatState.value.focused.Some?
    {
      SaveDoc(SaveVersion, Some(day), Some(clots), Some(plasma), Some(essence), Some(energy), Some(threat),
              Some(masking), Some(integrity), Some(experience), Some(nodes), Some(modules), Some(log),
              encounter, Some(CombatDoc(Some(guarded), Some(focused))), selectedDoctrineId)
    }

    /**
     * `applySavePayload`: a missing document is refused and changes nothing.
     * Otherwise every entry present replaces its field and every missing one keeps
     * it, except that a missing encounter ends the fight and missing combat flags
     * inside a present combat entry reset them; the version is not checked, and the
     * load is reported. Loading the state's own save changes nothing but the log.
     */
    method ApplySavePayload(payload: Option<SaveDoc>) returns (ok: bool)
      modifies this`day, this`clots, this`plasma, this`essence, this`energy, this`threat, this`masking,
               this`integrity, this`experience, this`nodes, this`modules, this`log, this`selectedDoctrineId,
               this`encounter, this`guarded, this`focused
      ensures ok <==> payload.Some?
      ensures payload.None? ==> unchanged(this)
      ensures payload.Some? ==>
                var d := payload.value;
                day == d.day.GetOr(old(day)) && clots == d.clots.GetOr(old(clots)) &&
                plasma == d.plasma.GetOr(old(plasma)) && essence == d.essence.GetOr(old(essence)) &&
                energy == d.energy.GetOr(old(energy)) && threat == d.threat.GetOr(old(threat)) &&
                masking == d.masking.GetOr(old(masking)) && integrity == d.integrity.GetOr(old(integrity)) &&
                experience == d.experience.GetOr(old(experience)) &&
                nodes == d.nodes.GetOr(old(nodes)) && modules == d.modules.GetOr(old(modules)) &&
                log == AppendLog(d.log.GetOr(old(log)), SaveLoaded) &&
                selectedDoctrineId == (if d.selectedDoctrineId.Some? then d.selectedDoctrineId else old(selectedDoctrineId)) &&
                encounter == d.encounter &&
                (d.combatState.Some? ==> guarded == d.combatState.value.guarded.GetOr(false) &&
                                         focused == d.combatState.value.focused.GetOr(false)) &&
                (d.combatState.None? ==> guarded == old(guarded) && focused == old(focused))
      ensures payload == Some(old(SavePayload())) ==>
                day == old(day) && clots == old(clots) && plasma == old(plasma) && essence == old(essence) &&
                energy == old(energy) && threat == old(threat) && masking == old(masking) &&
                integrity == old(integrity) && experience == old(experience) && nodes == old(nodes) &&
                modules == old(modules) && selectedDoctrineId == old(selectedDoctrineId) &&
                encounter == old(encounter) && guarded == old(guarded) && focused == old(focused) &&
                log == AppendLog(old(log), SaveLoaded)
    {
      if payload.None? {
        return false;
      }
      var d := payload.value;
      LoadLedger(d.day, d.clots, d.plasma, d.essence, d.energy, d.threat, d.masking, d.integrity, d.experience);
      LoadWorld(d.nodes, d.modules, d.log, d.selectedDoctrineId, d.encounter, d.combatState);
      return true;
    }

    /** The ledger part of `applySavePayload`: each present entry replaces its field. */
    method LoadLedger(day': Option<real>, clots': Option<real>, plasma': Option<real>, essence': Option<real>,
                      energy': Option<real>, threat': Option<real>, masking': Option<real>,
                      integrity': Option<real>, experience': Option<real>)
      modifies this`day, this`clots, this`plasma, this`essence, this`energy, this`threat, this`masking,
               this`integrity, this`experience
      ensures day == day'.GetOr(old(day)) && clots == clots'.GetOr(old(clots)) &&
              plasma == plasma'.GetOr(old(plasma)) && essence == essence'.GetOr(old(essence)) &&
              energy == energy'.GetOr(old(energy)) && threat == threat'.GetOr(old(threat)) &&
              masking == masking'.GetOr(old(masking)) && integrity == integrity'.GetOr(old(integrity)) &&
              experience == experience'.GetOr(old(experience))
    {
      day, clots, plasma, essence, energy, threat, masking, integrity, experience :=
        day'.GetOr(day), clots'.GetOr(clots), plasma'.GetOr(plasma), essence'.GetOr(essence),
        energy'.GetOr(energy), threat'.GetOr(threat), masking'.GetOr(masking),
        integrity'.GetOr(integrity), experience'.GetOr(experience);
    }

    /**
     * The rest of `applySavePayload`: each registry or log entry that is an array (here:
     * present) replaces its field; a missing doctrine entry keeps the doctrine; the
     * encounter is replaced, a missing one ending the fight; a present combat entry
     * sets both flags, a missing flag inside it resetting that flag; the load is logged.
     */
    method LoadWorld(nodes': Option<seq<GameNode>>, modules': Option<seq<GameModule>>, log': Option<seq<Event>>,
                     selected: Option<string>, encounter': Option<Encounter>, combat: Option<CombatDoc>)
      modifies this`nodes, this`modules, this`log, this`selectedDoctrineId, this`encounter, this`guarded, this`focused
      ensures nodes == nodes'.GetOr(old(nodes)) && modules == modules'.GetOr(old(modules))
      ensures log == AppendLog(log'.GetOr(old(log)), SaveLoaded)
      ensures selectedDoctrineId == (if selected.Some? then selected else old(selectedDoctrineId))
      ensures encounter == encounter'
      ensures combat.Some? ==> guarded == combat.value.guarded.GetOr(false) && focused == combat.value.focused.GetOr(false)
      ensures combat.None? ==> guarded == old(guarded) && focused == old(focused)
    {
      nodes, modules, log := nodes'.GetOr(nodes), modules'.GetOr(modules), log'.GetOr(log);
      if selected.Some? {
        selectedDoctrineId := selected;
      }
      encounter := encounter';
      if combat.Some? {
        guarded, focused := combat.value.guarded.GetOr(false), combat.value.focused.GetOr(false);
      }
      LogEvent(SaveLoaded);
    }

    /**
     * `loadFromCode`
: a code that fails to decode is reported as corrupt and changes
     * nothing else; a decoded value is applied as a save document.
     */
    method LoadFromCode(decoded: Decoded) returns (ok: bool)
      modifies this`day, this`clots, this`plasma, this`essence, this`energy, this`threat, this`masking,
               this`integrity, this`experience, this`nodes, this`modules, this`log, this`selectedDoctrineId,
               this`encounter, this`guarded, this`focused
      ensures ok <==> decoded.Parsed? && decoded.doc.Some?
      ensures decoded.Malformed? ==>
                log == AppendLog(old(log), SaveCodeCorrupt) &&
                day == old(day) && clots == old(clots) && plasma == old(plasma) && essence == old(essence) &&
                energy == old(energy) && threat == old(threat) && masking == old(masking) &&
                integrity == old(integrity) && experience == old(experience) && nodes == old(nodes) &&
                modules == old(modules) && selectedDoctrineId == old(selectedDoctrineId) &&
                encounter == old(encounter) && guarded == old(guarded) && focused == old(focused)
      ensures decoded == Parsed(None) ==> unchanged(this)
      ensures decoded.Parsed? && decoded.doc.Some? ==>
                var d := decoded.doc.value;
                day == d.day.GetOr(old(day)) && clots == d.clots.GetOr(old(clots)) &&
                plasma == d.plasma.GetOr(old(plasma)) && essence == d.essence.GetOr(old(essence)) &&
                energy == d.energy.GetOr(old(energy)) && threat == d.threat.GetOr(old(threat)) &&
                masking == d.masking.GetOr(old(masking)) && integrity == d.integrity.GetOr(old(integrity)) &&
                experience == d.experience.GetOr(old(experience)) &&
                nodes == d.nodes.GetOr(old(nodes)) && modules == d.modules.GetOr(old(modules)) &&
                log == AppendLog(d.log.GetOr(old(log)), SaveLoaded) &&
                selectedDoctrineId == (if d.selectedDoctrineId.Some? then d.selectedDoctrineId else old(selectedDoctrineId)) &&
                encounter == d.encounter &&
                (d.combatState.Some? ==> guarded == d.combatState.value.guarded.GetOr(false) &&
                                         focused == d.combatState.value.focused.GetOr(false)) &&
                (d.combatState.None? ==> guarded == old(guarded) && focused == old(focused))
      ensures decoded == Parsed(Some(old(SavePayload()))) ==>
                day == old(day) && clots == old(clots) && plasma == old(plasma) && essence == old(essence) &&
                energy == old(energy) && threat == old(threat) && masking == old(masking) &&
                integrity == old(integrity) && experience == old(experience) && nodes == old(nodes) &&
                modules == old(modules) && selectedDoctrineId == old(selectedDoctrineId) &&
                encounter == old(encounter) && guarded == old(guarded) && focused == old(focused) &&
                log == AppendLog(old(log), SaveLoaded)
    {
      if decoded.Malformed? {
        LogEvent(SaveCodeCorrupt);
        return false;
      }
      ok := ApplySavePayload(decoded.doc);
    }

    /** `closeEncounter`: no fight, and both combat flags reset. */
    method CloseEncounter()
      modifies this`encounter, this`focused, this`guarded
      ensures encounter.None? && !focused && !guarded
    {
      encounter := None;
      focused := false;
      guarded := false;
    }
  }
}
