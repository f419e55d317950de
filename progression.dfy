/**
 * Pure derived values of the engine: the level reached from experience, the stat
 * aggregate (level, active doctrine and unlocked modules), the maxima built on it,
 * and the affordability test (src/composables/useGameState.ts).
 */
module Progression {
  import opened Common
  import opened GameTypes

  /** Experience needed for levels 1 to 9. */
  const LevelThresholds: seq<real> := [0.0, 60.0, 150.0, 280.0, 450.0, 650.0, 900.0, 1200.0, 1600.0]

  /**
   * The `reduce` behind the level: from position `index` on, every threshold that
   * `xp` reaches replaces the accumulator by its position plus one.
   */
  function LevelScan(ts: seq<real>, xp: real, index: nat, acc: int): int
    requires index <= |ts|
    decreases |ts| - index
  {
    if index == |ts| then acc
    else LevelScan(ts, xp, index + 1, if xp >= ts[index] then index + 1 else acc)
  }

  /**
   * The scan keeps its start value when no remaining threshold is reached, and
   * otherwise ends one past the last reached threshold: every later one is out of reach.
   */
  lemma {:induction false} LevelScanResult(ts: seq<real>, xp: real, index: nat, acc: int)
    requires index <= |ts|
    decreases |ts| - index
    ensures (forall j :: index <= j < |ts| ==> xp < ts[j]) ==> LevelScan(ts, xp, index, acc) == acc
    ensures (exists j :: index <= j < |ts| && ts[j] <= xp) ==>
              var r := LevelScan(ts, xp, index, acc);
              index < r <= |ts| && ts[r - 1] <= xp &&
              forall j :: r <= j < |ts| ==> xp < ts[j]
  {
    if index < |ts| {
      LevelScanResult(ts, xp, index + 1, if xp >= ts[index] then index + 1 else acc);
    }
  }

  /** The level: one more than the last threshold index that `xp` reaches. */
  function LevelOf(xp: real): (level: int)
    ensures 1 <= level <= |LevelThresholds|
  {
    LevelScanResult(LevelThresholds, xp, 0, 1);
    LevelScan(LevelThresholds, xp, 0, 1)
  }

  /** The level lies in 1..9, its threshold is reached and no higher one is. */
  lemma LevelOfRange(xp: real)
    ensures 1 <= LevelOf(xp) <= |LevelThresholds|
    ensures 0.0 <= xp ==> LevelThresholds[LevelOf(xp) - 1] <= xp
    ensures forall j :: LevelOf(xp) <= j < |LevelThresholds| ==> xp < LevelThresholds[j]
    ensures xp < 0.0 ==> LevelOf(xp) == 1
  {
    assert 0.0 <= xp ==> LevelThresholds[0] <= xp;
    LevelScanResult(LevelThresholds, xp, 0, 1);
  }

  /** More experience never means a lower level. */
  lemma LevelMonotone(x: real, y: real)
    requires x <= y
    ensures LevelOf(x) <= LevelOf(y)
  {
    LevelOfRange(x);
    LevelOfRange(y);
  }

  /** Each level needs strictly more experience than the one before. */
  lemma ThresholdsIncrease(i: nat)
    requires i + 1 < |LevelThresholds|
    ensures LevelThresholds[i] < LevelThresholds[i + 1]
  {
  }

  /** The fraction of the way from `current` to `next`; 1 when the two coincide. */
  function Progress(xp: real, current: real, next: real): (p: real)
    ensures next == current ==> p == 1.0
    ensures current <= xp < next ==> 0.0 <= p < 1.0
  {
    if next == current then 1.0
    else
      var span := next - current;
      assert current <= xp < next ==> 0.0 <= (xp - current) / span < 1.0 by {
        if current <= xp < next {
          assert (xp - current) / span * span == xp - current;
        }
      }
      (xp - current) / span
  }

  datatype LevelInfo = LevelInfo(level: int, currentThreshold: real,
                                 nextThreshold: real, progress: real)

  /** The level with the thresholds around it and the fraction of the way to the next. */
  function LevelInfoOf(xp: real): (info: LevelInfo)
    ensures info.level == LevelOf(xp)
    ensures info.currentThreshold == LevelThresholds[info.level - 1]
    ensures info.level < |LevelThresholds| ==>
              info.nextThreshold == LevelThresholds[info.level] && xp < info.nextThreshold
    ensures info.level == |LevelThresholds| ==> info.progress == 1.0
    ensures 0.0 <= xp ==> 0.0 <= info.progress <= 1.0
    ensures 0.0 <= xp && info.level < |LevelThresholds| ==> info.progress < 1.0
  {
    LevelOfRange(xp);
    var level := LevelOf(xp);
    var current := LevelThresholds[if level - 1 < 0 then 0 else level - 1];
    var next := LevelThresholds[if |LevelThresholds| - 1 <= level then |LevelThresholds| - 1 else level];
    if level < |LevelThresholds| then
      ThresholdsIncrease(level - 1);
      LevelInfo(level, current, next, Progress(xp, current, next))
    else
      LevelInfo(level, current, next, Progress(xp, current, next))
  }

  /** Passive bonuses of the level; `stage` is the level minus one. */
  function LevelEffects(level: int): (e: Effects)
    ensures 1 <= level ==> e.NonNegative()
  {
    var stage := (level - 1) as real;
    Effects((stage * 0.8).Floor as real, (stage * 0.4).Floor as real, stage * 0.25,
            stage * 0.6, (stage / 3.0).Floor as real, stage * 1.5)
  }

  /** Index of the first doctrine with the given id. */
  function DoctrineIndex(ds: seq<Doctrine>, id: string): (k: Option<nat>)
    ensures k.Some? ==> k.value < |ds| && ds[k.value].id == id
    ensures k.Some? ==> forall j :: 0 <= j < k.value ==> ds[j].id != id
    ensures k.None? ==> forall j :: 0 <= j < |ds| ==> ds[j].id != id
  {
    if ds == [] then None
    else if ds[0].id == id then Some(0)
    else match DoctrineIndex(ds[1..], id)
      case None => None
      case Some(k) => Some(k + 1)
  }

  /**
   * `doctrineEffects` added to `e`: the effects of the doctrine whose id is selected;
   * nothing is added without a selection or for an id no doctrine has.
   */
  function WithDoctrine(e: Effects, ds: seq<Doctrine>, selected: Option<string>): (r: Effects)
    ensures selected.Some? && DoctrineIndex(ds, selected.value).Some? ==>
              r == e.Plus(ds[DoctrineIndex(ds, selected.value).value].effects)
    ensures selected.None? || DoctrineIndex(ds, selected.value).None? ==> r == e
  {
    if selected.None? then e
    else match DoctrineIndex(ds, selected.value)
      case None => e
      case Some(k) => e.Plus(ds[k].effects)
  }

  /** Changing any field but the id keeps the lookup of every doctrine id. */
  lemma {:induction false} DoctrineIndexIgnoresNonIdFields(ds: seq<Doctrine>, ds': seq<Doctrine>, id: string)
    requires |ds| == |ds'|
    requires forall j :: 0 <= j < |ds| ==> ds[j].id == ds'[j].id
    ensures DoctrineIndex(ds, id) == DoctrineIndex(ds', id)
  {
    if ds != [] && ds[0].id != id {
      DoctrineIndexIgnoresNonIdFields(ds[1..], ds'[1..], id);
    }
  }

  /**
   * Only the selected doctrine matters: doctrine tables with the same ids that agree
   * on the effects of the selected doctrine give the same bonus.
   */
  lemma WithDoctrineIgnoresOtherDoctrines(e: Effects, ds: seq<Doctrine>, ds': seq<Doctrine>, selected: Option<string>)
    requires |ds| == |ds'|
    requires forall j :: 0 <= j < |ds| ==> ds[j].id == ds'[j].id
    requires selected.Some? && DoctrineIndex(ds, selected.value).Some? ==>
               ds'[DoctrineIndex(ds, selected.value).value].effects == ds[DoctrineIndex(ds, selected.value).value].effects
    ensures WithDoctrine(e, ds, selected) == WithDoctrine(e, ds', selected)
  {
    if selected.Some? {
      DoctrineIndexIgnoresNonIdFields(ds, ds', selected.value);
    }
  }

  /** With non-negative doctrine effects, adopting a doctrine never lowers a stat. */
  lemma WithDoctrineNonNegative(e: Effects, ds: seq<Doctrine>, selected: Option<string>)
    requires DoctrinesNonNegative(ds)
    ensures var r := WithDoctrine(e, ds, selected);
            e.attack <= r.attack && e.defense <= r.defense && e.plasmaRate <= r.plasmaRate &&
            e.masking <= r.masking && e.energy <= r.energy && e.integrity <= r.integrity
    ensures e.NonNegative() ==> WithDoctrine(e, ds, selected).NonNegative()
  {
  }

  lemma PlusAssociative(a: Effects, b: Effects, c: Effects)
    ensures a.Plus(b.Plus(c)) == a.Plus(b).Plus(c)
  {
  }

  /** Reference definition: the sum of the effects of the unlocked modules. */
  function UnlockedSum(mods: seq<GameModule>): Effects {
    if mods == [] then NoEffects
    else (if mods[0].unlocked then mods[0].effects else NoEffects).Plus(UnlockedSum(mods[1..]))
  }

  /** The `reduce` over the modules, from left to right, as the source runs it. */
  function StatsFold(mods: seq<GameModule>, acc: Effects): Effects {
    if mods == [] then acc
    else StatsFold(mods[1..], if mods[0].unlocked then acc.Plus(mods[0].effects) else acc)
  }

  /** The left-to-right fold adds exactly the unlocked modules' effects to its start value. */
  lemma {:induction false} StatsFoldIsSum(mods: seq<GameModule>, acc: Effects)
    ensures StatsFold(mods, acc) == acc.Plus(UnlockedSum(mods))
  {
    if mods != [] {
      var next := if mods[0].unlocked then acc.Plus(mods[0].effects) else acc;
      StatsFoldIsSum(mods[1..], next);
    }
  }

  lemma PlusIdentity(a: Effects)
    ensures NoEffects.Plus(a) == a && a.Plus(NoEffects) == a
  {
  }

  lemma PlusCommutative(a: Effects, b: Effects)
    ensures a.Plus(b) == b.Plus(a)
  {
  }

  /** Unlocking a locked module adds exactly that module's effects to the sum. */
  lemma {:induction false} UnlockAddsEffects(mods: seq<GameModule>, i: nat)
    requires i < |mods| && !mods[i].unlocked
    ensures UnlockedSum(mods[i := mods[i].(unlocked := true)]) == UnlockedSum(mods).Plus(mods[i].effects)
  {
    var mods' := mods[i := mods[i].(unlocked := true)];
    var e := mods[i].effects;
    var rest := UnlockedSum(mods[1..]);
    if i > 0 {
      var head := if mods[0].unlocked then mods[0].effects else NoEffects;
      assert mods'[0] == mods[0];
      assert mods'[1..] == mods[1..][i - 1 := mods[i].(unlocked := true)];
      UnlockAddsEffects(mods[1..], i - 1);
      assert UnlockedSum(mods') == head.Plus(rest.Plus(e));
      PlusAssociative(head, rest, e);
    } else {
      assert mods'[1..] == mods[1..];
      assert UnlockedSum(mods') == e.Plus(rest);
      assert UnlockedSum(mods) == NoEffects.Plus(rest);
      PlusIdentity(rest);
      PlusCommutative(e, rest);
    }
  }

  predicate AllEffectsNonNegative(mods: seq<GameModule>) {
    forall j :: 0 <= j < |mods| ==> mods[j].effects.NonNegative()
  }

  lemma {:induction false} UnlockedSumNonNegative(mods: seq<GameModule>)
    requires AllEffectsNonNegative(mods)
    ensures UnlockedSum(mods).NonNegative()
  {
    if mods != [] {
      UnlockedSumNonNegative(mods[1..]);
    }
  }

  /** The stat aggregate of the source: level and doctrine bonuses, then every unlocked module. */
  function Stats(mods: seq<GameModule>, ds: seq<Doctrine>, selected: Option<string>, xp: real): Effects {
    StatsFold(mods, WithDoctrine(LevelEffects(LevelOf(xp)), ds, selected))
  }

  /** The aggregate is the level bonus, plus the selected doctrine's, plus every unlocked module's. */
  lemma StatsIsSum(mods: seq<GameModule>, ds: seq<Doctrine>, selected: Option<string>, xp: real)
    ensures Stats(mods, ds, selected, xp) == WithDoctrine(LevelEffects(LevelOf(xp)), ds, selected).Plus(UnlockedSum(mods))
  {
    StatsFoldIsSum(mods, WithDoctrine(LevelEffects(LevelOf(xp)), ds, selected));
  }

  predicate DoctrinesNonNegative(ds: seq<Doctrine>) {
    forall j :: 0 <= j < |ds| ==> ds[j].effects.NonNegative()
  }

  /** The three shipped doctrines only add to stats. */
  lemma BaseDoctrinesNonNegative()
    ensures DoctrinesNonNegative(BaseDoctrines)
  {
  }

  /** With non-negative doctrine and module effects, no stat is negative. */
  lemma StatsNonNegative(mods: seq<GameModule>, ds: seq<Doctrine>, selected: Option<string>, xp: real)
    ensures AllEffectsNonNegative(mods) && DoctrinesNonNegative(ds) ==>
              Stats(mods, ds, selected, xp).NonNegative() &&
              MaxEnergy(Stats(mods, ds, selected, xp)) >= 6.0 &&
              MaxIntegrity(Stats(mods, ds, selected, xp)) >= 100.0
  {
    if AllEffectsNonNegative(mods) && DoctrinesNonNegative(ds) {
      LevelOfRange(xp);
      UnlockedSumNonNegative(mods);
      StatsIsSum(mods, ds, selected, xp);
    }
  }

  function MaxEnergy(s: Effects): real { 6.0 + s.energy }
  function PlasmaRate(s: Effects): real { 1.2 + s.plasmaRate }
  function AttackPower(s: Effects): real { 6.0 + s.attack }
  function DefensePower(s: Effects): real { s.defense }
  function MaxIntegrity(s: Effects): real { 100.0 + s.integrity }

  /**
   * The derived maxima and powers of a game whose effects are non-negative: energy
   * cap at least 6, plasma rate at least 1.2, attack at least 6, defense at least 0,
   * integrity cap at least 100.
   */
  lemma DerivedStatsBounds(mods: seq<GameModule>, ds: seq<Doctrine>, selected: Option<string>, xp: real)
    requires AllEffectsNonNegative(mods) && DoctrinesNonNegative(ds)
    ensures var s := Stats(mods, ds, selected, xp);
            MaxEnergy(s) >= 6.0 && PlasmaRate(s) >= 1.2 && AttackPower(s) >= 6.0 &&
            DefensePower(s) >= 0.0 && MaxIntegrity(s) >= 100.0
  {
    StatsNonNegative(mods, ds, selected, xp);
  }

  /**
   * The affordability test: an entry that is present and nonzero must not exceed
   * the matching balance; absent (zero) entries impose nothing.
   */
  function CanAfford(clots: real, plasma: real, essence: real, cost: Cost): (ok: bool)
    ensures ok <==> (cost.clots != 0.0 ==> cost.clots <= clots) &&
                    (cost.plasma != 0.0 ==> cost.plasma <= plasma) &&
                    (cost.essence != 0.0 ==> cost.essence <= essence)
  {
    var check := (value: real, required: real) => if required != 0.0 then value >= required else true;
    check(clots, cost.clots) && check(plasma, cost.plasma) && check(essence, cost.essence)
  }

  /**
   * Paying an affordable cost leaves no debt: balances that start non-negative stay
   * non-negative, whatever the sign of the cost entries.
   */
  lemma AffordedCostLeavesNoDebt(clots: real, plasma: real, essence: real, cost: Cost)
    requires CanAfford(clots, plasma, essence, cost)
    requires 0.0 <= clots && 0.0 <= plasma && 0.0 <= essence
    ensures 0.0 <= clots - cost.clots && 0.0 <= plasma - cost.plasma && 0.0 <= essence - cost.essence
  {
  }

  /** A cost that is affordable stays affordable with larger balances. */
  lemma CanAffordMonotone(clots: real, plasma: real, essence: real,
                          clots': real, plasma': real, essence': real, cost: Cost)
    requires clots <= clots' && plasma <= plasma' && essence <= essence'
    ensures CanAfford(clots, plasma, essence, cost) ==> CanAfford(clots', plasma', essence', cost)
  {
  }
}
