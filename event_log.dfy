/**
 * The narrative log of the engine (src/composables/useGameState.ts). An entry is the
 * event it reports; the ids, timestamps and display text of the source's entries
 * are not modelled, and entries name nodes and modules by id.
 */
module EventLog {
  import opened GameTypes

  datatype Event =
    | ModuleIntegrated(moduleId: string)
    | DoctrineAdopted(doctrineId: string)
    | PlasmaGathered(amount: int)
    | PlasmaShortForRefining
    | ClotsRefined
    | ClotsShortForTransmuting
    | EssenceTransmuted
    | EssenceShortForMasking
    | MaskingReinforced
    | FlowScanned
    | ResourcesShortForStabilizing
    | CoreStabilized
    | EssenceShortForAdvance
    | FrontierExpanded
    | AllSectorsDiscovered
    | SectorDiscovered(nodeId: string)
    | ModuleFound(moduleId: string)
    | HostileContact(nodeId: string)
    | SectorStabilized(nodeId: string)
    | ShieldAbsorbed
    | EnergyDrained
    | EnemyStruck(intent: IntentKind, damage: int)
    | PulseStrike(damage: int, isCrit: bool)
    | HemoBurst(damage: int, isCrit: bool)
    | ClotsShortForBurst
    | ThreatNeutralized(nodeId: string)
    | FocusCharged
    | GuardRaised
    | Retreated
    | ImmuneStorm
    | SaveLoaded
    | SaveCodeCorrupt

  const LogCapacity := 40

  /**
   * `logEvent`: push the entry, then drop the oldest one if the log is now longer
   * than the capacity.
   */
  function AppendLog(log: seq<Event>, e: Event): (r: seq<Event>)
    ensures |r| == if |log| < LogCapacity then |log| + 1 else |log|
    ensures |log| <= LogCapacity ==> |r| <= LogCapacity
  {
    var pushed := log + [e];
    if |pushed| > LogCapacity then pushed[1..] else pushed
  }

  /**
   * The log is a sliding window: the new entry is last, and before it come the
   * newest earlier entries in their order, the oldest one dropped when full.
   */
  lemma AppendLogWindow(log: seq<Event>, e: Event)
    ensures var r := AppendLog(log, e);
            r[|r| - 1] == e &&
            r == (log + [e])[|log| + 1 - |r|..] &&
            (|log| < LogCapacity ==> r[..|log|] == log) &&
            (|log| >= LogCapacity ==> r[..|r| - 1] == log[1..])
  {
  }
}
