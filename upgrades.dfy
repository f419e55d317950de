/**
 * The resource-upgrade shop (src/composables/useUpgrades.ts): a list of upgrades
 * bought with clots, each adding its rate to the automatic clot income. The two
 * counters it shares with the clot store (`clots` and `autoRate`) are fields of
 * the same class.
 */
module Upgrades {
  import opened Common

  datatype Upgrade = Upgrade(id: string, cost: real, rate: real, active: bool)

  /** The shop of a new game, nothing bought. */
  const BaseUpgrades: seq<Upgrade> := [
    Upgrade("hemoseed", 10.0, 0.1, false),
    Upgrade("autocollector", 50.0, 0.2, false),
    Upgrade("thermo", 200.0, 0.0, false),
    Upgrade("echo-core", 500.0, 0.0, false)
  ]

  /** Index of the first upgrade with the given id (the source's `find` by id). */
  function UpgradeIndex(ups: seq<Upgrade>, id: string): (k: Option<nat>)
    ensures k.Some? ==> k.value < |ups| && ups[k.value].id == id
  {
    if ups == [] then None
    else if ups[0].id == id then Some(0)
    else match UpgradeIndex(ups[1..], id)
      case None => None
      case Some(k) => Some(k + 1)
  }

  /** The lookup finds the first upgrade with the id, and finds none only when no upgrade has it. */
  lemma {:induction false} UpgradeIndexFirst(ups: seq<Upgrade>, id: string)
    ensures var k := UpgradeIndex(ups, id);
            (k.Some? ==> forall j :: 0 <= j < k.value ==> ups[j].id != id) &&
            (k.None? ==> forall j :: 0 <= j < |ups| ==> ups[j].id != id)
  {
    if ups != [] && ups[0].id != id {
      UpgradeIndexFirst(ups[1..], id);
    }
  }

  /** What a purchase adds to the automatic income: the rate, when it is positive. */
  function RateGain(u: Upgrade): (g: real)
    ensures 0.0 <= g && (0.0 < u.rate ==> g == u.rate) && (u.rate <= 0.0 ==> g == 0.0)
  {
    if u.rate > 0.0 then u.rate else 0.0
  }

  /** The upgrade list after the purchase of upgrade `k`: that upgrade active, nothing else changed. */
  function Activated(ups: seq<Upgrade>, k: nat): seq<Upgrade>
    requires k < |ups|
  {
    ups[k := ups[k].(active := true)]
  }

  /** Activating an upgrade changes no id, so every lookup by id finds what it found before. */
  lemma {:induction false} ActivatedKeepsLookup(ups: seq<Upgrade>, k: nat, id: string)
    requires k < |ups|
    ensures UpgradeIndex(Activated(ups, k), id) == UpgradeIndex(ups, id)
  {
    if k > 0 && ups[0].id != id {
      assert Activated(ups, k)[1..] == Activated(ups[1..], k - 1);
      ActivatedKeepsLookup(ups[1..], k - 1, id);
    }
  }

  /**
   * Nothing guards against buying an active upgrade: after a purchase the same id
   * finds the same upgrade, active, at the same cost and with the same rate, so a
   * second purchase is charged again and adds the rate again.
   */
  lemma RepurchaseFindsSameOffer(ups: seq<Upgrade>, id: string)
    requires UpgradeIndex(ups, id).Some?
    ensures var k := UpgradeIndex(ups, id).value;
            var ups' := Activated(ups, k);
            UpgradeIndex(ups', id) == Some(k) && ups'[k].active &&
            ups'[k].cost == ups[k].cost && ups'[k].rate == ups[k].rate
  {
    ActivatedKeepsLookup(ups, UpgradeIndex(ups, id).value, id);
  }

  /** Of the shipped upgrades only the first two raise the automatic income. */
  lemma BaseRateGains()
    ensures RateGain(BaseUpgrades[0]) == 0.1 && RateGain(BaseUpgrades[1]) == 0.2
    ensures RateGain(BaseUpgrades[2]) == 0.0 && RateGain(BaseUpgrades[3]) == 0.0
  {
  }

  class UpgradeStore {
    var upgrades: seq<Upgrade>
    var clots: real
    var autoRate: real

    /**
     * The shop over the upgrade list kept in storage, or the shipped list when none is
     * stored, and over clot counters restored from elsewhere.
     */
    constructor (stored: Option<seq<Upgrade>>, clots0: real, autoRate0: real)
      ensures upgrades == stored.GetOr(BaseUpgrades) && clots == clots0 && autoRate == autoRate0
    {
      upgrades, clots, autoRate := stored.GetOr(BaseUpgrades), clots0, autoRate0;
    }

    /** `canAfford`: the clots cover the cost, so paying it leaves no debt. */
    function CanAfford(cost: real): (ok: bool)
      reads this
      ensures ok <==> 0.0 <= clots - cost
    {
      clots >= cost
    }

    /**
     * `buyUpgrade`: a no-op for an unknown id or an unaffordable cost; otherwise the
     * cost is debited, the first upgrade with the id becomes active, no other one
     * changes, and a positive rate is added to the automatic income.
     */
    method BuyUpgrade(id: string)
      modifies this
      ensures var k := UpgradeIndex(old(upgrades), id);
              k.None? || old(clots) < old(upgrades)[k.value].cost ==> unchanged(this)
      ensures var k := UpgradeIndex(old(upgrades), id);
              k.Some? && old(upgrades)[k.value].cost <= old(clots) ==>
                var u := old(upgrades)[k.value];
                clots == old(clots) - u.cost && upgrades == Activated(old(upgrades), k.value) &&
                autoRate == old(autoRate) + RateGain(u)
      ensures 0.0 <= old(clots) ==> 0.0 <= clots
      ensures old(autoRate) <= autoRate
    {
      var k := UpgradeIndex(upgrades, id);
      if k.None? || !CanAfford(upgrades[k.value].cost) {
        return;
      }
      var u := upgrades[k.value];
      clots := clots - u.cost;
      upgrades := upgrades[k.value := u.(active := true)];
      if u.rate > 0.0 {
        autoRate := autoRate + u.rate;
      }
    }

    /**
     * Buying the same upgrade twice: nothing refuses the second purchase, so with
     * clots for both the cost is charged twice and a positive rate added twice,
     * while the list ends as after one purchase.
     */
    method BuyUpgradeTwice(id: string)
      modifies this
      ensures var k := UpgradeIndex(old(upgrades), id);
              k.Some? && old(upgrades)[k.value].cost <= old(clots) &&
              old(upgrades)[k.value].cost <= old(clots) - old(upgrades)[k.value].cost ==>
                var u := old(upgrades)[k.value];
                clots == old(clots) - 2.0 * u.cost && upgrades == Activated(old(upgrades), k.value) &&
                autoRate == old(autoRate) + 2.0 * RateGain(u)
      ensures UpgradeIndex(old(upgrades), id).None? ==> unchanged(this)
    {
      ghost var ups0 := upgrades;
      BuyUpgrade(id);
      var k := UpgradeIndex(ups0, id);
      if k.Some? {
        RepurchaseFindsSameOffer(ups0, id);
      }
      BuyUpgrade(id);
    }
  }
}
