/** The game economy of Piemaker.cpp: the state globals (lines 13-23), the
    upgrade table (28-40), the three building purchases (134-162), the
    prestige reset (167-175), the unlock updates made while building a frame
    (216-227, 252-256), the bake and upgrade-purchase steps of the main loop
    (315-333) and the passive-production step (351-356).

    Every player command is a pure transition on an immutable `GameState`.
    The production rate is a field, not a function of the building counts:
    an upgrade grants buildings already owned a smaller bonus than it grants
    buildings bought afterwards, so the rate depends on the order of
    purchases.
 */
module Economy {
  import Accumulator

  datatype Building = Grandma | Bakery | Factory

  /** Price of the next building of kind `b` when `owned` are owned. */
  function Cost(b: Building, owned: int): (r: int)
    // every purchase costs something: never less than the cheapest first grandma
    ensures 0 <= owned ==> 10 <= r
    ensures 0 <= owned ==> Cost(b, 0) <= r
  {
    match b
    case Grandma => 10 + owned * 2
    case Bakery => 50 + owned * 10
    case Factory => 200 + owned * 50
  }

  /** Pies per second every building of kind `b` adds when bought. */
  function BaseRate(b: Building): int
  {
    match b
    case Grandma => 1
    case Bakery => 5
    case Factory => 20
  }

  /** Extra pies per second a building bought after its upgrade adds. */
  function UpgradeBonus(b: Building): int
  {
    match b
    case Grandma => 1
    case Bakery => 10
    case Factory => 60
  }

  /** Pie count at which buildings of kind `b` are offered. */
  function UnlockAt(b: Building): int
  {
    match b
    case Grandma => 10
    case Bakery => 100
    case Factory => 500
  }

  /** The effect of an upgrade, in place of the source's closures: the rate
      grows by `perOwned` for every building of kind `target` owned at the
      moment of purchase. */
  datatype Effect = Boost(target: Building, perOwned: int)

  datatype UpgradeSpec = UpgradeSpec(name: string, cost: int, effect: Effect)

  const UpgradeCount := 3

  /** Index of an upgrade in the table. */
  type UpgradeId = i: int | 0 <= i < UpgradeCount

  /** The fixed part of the upgrade table. */
  const Catalog: seq<UpgradeSpec> := [
    UpgradeSpec("Better Ovens", 500, Boost(Grandma, 1)),
    UpgradeSpec("Industrial Wheat", 1000, Boost(Bakery, 2)),
    UpgradeSpec("Robot Bakers", 5000, Boost(Factory, 3))
  ]

  /** The upgrade whose purchase raises the bonus of buildings of kind `b`. */
  function UpgradeFor(b: Building): UpgradeId
  {
    match b
    case Grandma => 0
    case Bakery => 1
    case Factory => 2
  }

  /** The changing part of one upgrade-table entry. */
  datatype UpgradeFlags = UpgradeFlags(purchased: bool, visible: bool)

  type UpgradeTable = t: seq<UpgradeFlags> | |t| == UpgradeCount
    witness [UpgradeFlags(false, false), UpgradeFlags(false, false), UpgradeFlags(false, false)]

  datatype GameState = GameState(
    totalPies: int,
    piesPerSecond: int,
    grandmas: int,
    bakeries: int,
    factories: int,
    prestigeStars: real,
    pendingPies: real,
    showGrandmas: bool,
    showBakeries: bool,
    showFactories: bool,
    upgrades: UpgradeTable)

  /** The state at program start. */
  const Initial: GameState := GameState(0, 0, 0, 0, 0, 0.0, 0.0, false, false, false,
    [UpgradeFlags(false, false), UpgradeFlags(false, false), UpgradeFlags(false, false)])

  /** Star gain of a prestige reset as a function of the pie count. The
      source computes sqrt(totalPies / 1000) in floating point; the model
      only relies on the gain never being negative. */
  type StarCurve = f: int -> real | forall n :: 0.0 <= f(n) witness (n: int) => 0.0

  function Owned(s: GameState, b: Building): int
  {
    match b
    case Grandma => s.grandmas
    case Bakery => s.bakeries
    case Factory => s.factories
  }

  function Shown(s: GameState, b: Building): bool
  {
    match b
    case Grandma => s.showGrandmas
    case Bakery => s.showBakeries
    case Factory => s.showFactories
  }

  function WithOwned(s: GameState, b: Building, n: int): (r: GameState)
    ensures Owned(r, b) == n
    ensures forall c :: c != b ==> Owned(r, c) == Owned(s, c)
  {
    match b
    case Grandma => s.(grandmas := n)
    case Bakery => s.(bakeries := n)
    case Factory => s.(factories := n)
  }

  function Purchased(s: GameState, i: UpgradeId): bool
  {
    s.upgrades[i].purchased
  }

  /** The parts of the state no purchase touches: stars, carry, unlock flags
      and upgrade visibility. */
  predicate SameProgress(s: GameState, r: GameState)
  {
    && r.prestigeStars == s.prestigeStars
    && r.pendingPies == s.pendingPies
    && (forall b :: Shown(r, b) == Shown(s, b))
    && (forall i :: 0 <= i < UpgradeCount ==> r.upgrades[i].visible == s.upgrades[i].visible)
  }

  // ---------------------------------------------------------------------
  // Commands
  // ---------------------------------------------------------------------

  /** SPACE bakes one pie by hand; nothing else changes. */
  function Bake(s: GameState): (r: GameState)
    ensures r.totalPies == s.totalPies + 1
    ensures r.(totalPies := s.totalPies) == s
  {
    s.(totalPies := s.totalPies + 1)
  }

  /** Buys one building of kind `b`: all or nothing. */
  function Buy(s: GameState, b: Building): (r: GameState)
    ensures s.totalPies >= Cost(b, Owned(s, b)) ==>
      && r.totalPies == s.totalPies - Cost(b, Owned(s, b))
      && Owned(r, b) == Owned(s, b) + 1
      && r.piesPerSecond == s.piesPerSecond + BaseRate(b)
           + (if Purchased(s, UpgradeFor(b)) then UpgradeBonus(b) else 0)
    ensures s.totalPies < Cost(b, Owned(s, b)) ==> r == s
    ensures forall c :: c != b ==> Owned(r, c) == Owned(s, c)
    ensures r.upgrades == s.upgrades && SameProgress(s, r)
  {
    var cost := Cost(b, Owned(s, b));
    if s.totalPies >= cost then
      var bonus := if Purchased(s, UpgradeFor(b)) then UpgradeBonus(b) else 0;
      WithOwned(s, b, Owned(s, b) + 1).(
        totalPies := s.totalPies - cost,
        piesPerSecond := s.piesPerSecond + BaseRate(b) + bonus)
    else
      s
  }

  /** Applies an upgrade's effect to the buildings owned right now. */
  function ApplyEffect(e: Effect, s: GameState): (r: GameState)
    ensures r.piesPerSecond - s.piesPerSecond == e.perOwned * Owned(s, e.target)
    ensures r.(piesPerSecond := s.piesPerSecond) == s
  {
    s.(piesPerSecond := s.piesPerSecond + e.perOwned * Owned(s, e.target))
  }

  /** Whether upgrade `i` can be bought now. */
  predicate CanBuyUpgrade(s: GameState, i: UpgradeId)
  {
    s.upgrades[i].visible && !s.upgrades[i].purchased && s.totalPies >= Catalog[i].cost
  }

  /** Buys upgrade `i`: only when it is shown, not yet bought and affordable;
      then its cost is paid, it is marked bought and its effect is applied
      once. Otherwise nothing changes. */
  function BuyUpgrade(s: GameState, i: UpgradeId): (r: GameState)
    ensures CanBuyUpgrade(s, i) ==>
      && r.totalPies == s.totalPies - Catalog[i].cost
      && r.upgrades == s.upgrades[i := UpgradeFlags(true, s.upgrades[i].visible)]
      && r.piesPerSecond == s.piesPerSecond
           + Catalog[i].effect.perOwned * Owned(s, Catalog[i].effect.target)
      && (forall b :: Owned(r, b) == Owned(s, b))
      && SameProgress(s, r)
    ensures !CanBuyUpgrade(s, i) ==> r == s
  {
    if CanBuyUpgrade(s, i) then
      var paid := s.(
        totalPies := s.totalPies - Catalog[i].cost,
        upgrades := s.upgrades[i := s.upgrades[i].(purchased := true)]);
      ApplyEffect(Catalog[i].effect, paid)
    else
      s
  }

  /** The prestige reset proper: stars grow by the curve's value at the
      current pie count; pies, rate, carry, buildings and building unlocks go
      back to zero; upgrades keep their flags. The gate at 1000 pies lives in
      the main loop, see `PrestigeGate`. */
  function ResetForPrestige(s: GameState, curve: StarCurve): (r: GameState)
    ensures r.prestigeStars == s.prestigeStars + curve(s.totalPies)
    ensures r.prestigeStars >= s.prestigeStars
    ensures r.totalPies == 0 && r.piesPerSecond == 0 && r.pendingPies == 0.0
    ensures forall b :: Owned(r, b) == 0 && !Shown(r, b)
    ensures r.upgrades == s.upgrades
  {
    GameState(0, 0, 0, 0, 0, s.prestigeStars + curve(s.totalPies), 0.0,
      false, false, false, s.upgrades)
  }

  /** Pie count a prestige reset needs. */
  const PrestigeGate := 1000

  /** The unlock updates done each frame: a building kind is offered once the
      pie count reaches its threshold, and an upgrade not yet bought becomes
      visible once the pie count reaches half its cost. Flags are only ever
      set here, never cleared. */
  function UpdateUnlocks(s: GameState): (r: GameState)
    ensures forall b :: Shown(r, b) <==> Shown(s, b) || s.totalPies >= UnlockAt(b)
    ensures forall i :: 0 <= i < UpgradeCount ==>
      (r.upgrades[i].visible <==>
         s.upgrades[i].visible || (!s.upgrades[i].purchased && s.totalPies >= Catalog[i].cost / 2))
    ensures forall i :: 0 <= i < UpgradeCount ==> r.upgrades[i].purchased == s.upgrades[i].purchased
    ensures r.totalPies == s.totalPies && r.piesPerSecond == s.piesPerSecond
    ensures forall b :: Owned(r, b) == Owned(s, b)
    ensures r.prestigeStars == s.prestigeStars && r.pendingPies == s.pendingPies
  {
    var flags := seq(UpgradeCount, i requires 0 <= i < UpgradeCount =>
      if !s.upgrades[i].purchased && s.totalPies >= Catalog[i].cost / 2
      then s.upgrades[i].(visible := true)
      else s.upgrades[i]);
    s.(
      showGrandmas := s.showGrandmas || s.totalPies >= UnlockAt(Grandma),
      showBakeries := s.showBakeries || s.totalPies >= UnlockAt(Bakery),
      showFactories := s.showFactories || s.totalPies >= UnlockAt(Factory),
      upgrades := flags)
  }

  /** Passive production for `dt` seconds at the current rate: whole pies go
      to the pie count, the fraction stays in the carry. */
  function Produce(s: GameState, dt: real): (r: GameState)
    ensures r.totalPies as real + r.pendingPies
         == s.totalPies as real + s.pendingPies + s.piesPerSecond as real * dt
    ensures r.totalPies >= s.totalPies
    ensures r.(totalPies := s.totalPies, pendingPies := s.pendingPies) == s
  {
    var a := Accumulator.Accrue(s.pendingPies, s.piesPerSecond, dt);
    s.(totalPies := s.totalPies + a.added, pendingPies := a.pending)
  }

  // ---------------------------------------------------------------------
  // The state invariant
  // ---------------------------------------------------------------------

  /** Rate a building of kind `b` adds at least: its base rate plus the
      retroactive effect of its upgrade, if bought. */
  function LowShare(s: GameState, b: Building): int
  {
    match b
    case Grandma => if Purchased(s, 0) then 2 else 1
    case Bakery => if Purchased(s, 1) then 7 else 5
    case Factory => if Purchased(s, 2) then 23 else 20
  }

  /** Rate a building of kind `b` adds at most: its base rate plus the bonus
      of a building bought after its upgrade. */
  function HighShare(s: GameState, b: Building): int
  {
    match b
    case Grandma => if Purchased(s, 0) then 2 else 1
    case Bakery => if Purchased(s, 1) then 15 else 5
    case Factory => if Purchased(s, 2) then 80 else 20
  }

  /** Least rate the owned buildings give: each contributes its base rate,
      plus its upgrade's retroactive effect if that upgrade was bought
      (grandma 1 + 1, bakery 5 + 2, factory 20 + 3); see `SharesMatchTable`.
      The coefficients are written as literals, not as products of the
      tables' entries, so that the rate bounds stay linear arithmetic and
      the proofs about them stay cheap. */
  function LowRate(s: GameState): int
  {
    (if Purchased(s, 0) then 2 * s.grandmas else s.grandmas)
      + (if Purchased(s, 1) then 7 * s.bakeries else 5 * s.bakeries)
      + (if Purchased(s, 2) then 23 * s.factories else 20 * s.factories)
  }

  /** Greatest rate the owned buildings give: each contributes its base
      rate, plus the bonus of a building bought after its upgrade (grandma
      1 + 1, bakery 5 + 10, factory 20 + 60). Literal coefficients, as in
      `LowRate`. */
  function HighRate(s: GameState): int
  {
    (if Purchased(s, 0) then 2 * s.grandmas else s.grandmas)
      + (if Purchased(s, 1) then 15 * s.bakeries else 5 * s.bakeries)
      + (if Purchased(s, 2) then 80 * s.factories else 20 * s.factories)
  }

  /** What every reachable state satisfies: no negative pies, counts or
      stars; a carry below one pie; an upgrade is only ever bought while
      visible; and the rate lies between what the owned buildings give when
      every upgrade was bought after them and when it was bought before
      them. */
  predicate Valid(s: GameState)
  {
    && s.totalPies >= 0
    && s.grandmas >= 0 && s.bakeries >= 0 && s.factories >= 0
    && 0.0 <= s.prestigeStars
    && 0.0 <= s.pendingPies < 1.0
    && BoughtWhileVisible(s)
    && RateInBounds(s)
  }

  predicate BoughtWhileVisible(s: GameState)
  {
    forall i :: 0 <= i < UpgradeCount ==> s.upgrades[i].purchased ==> s.upgrades[i].visible
  }

  predicate RateInBounds(s: GameState)
  {
    LowRate(s) <= s.piesPerSecond <= HighRate(s)
  }

  // ---------------------------------------------------------------------
  // Commands as the main loop issues them
  // ---------------------------------------------------------------------

  /** Elapsed wall-clock time between two ticks: never negative. */
  type Seconds = r: real | 0.0 <= r

  /** One state change of the main loop, with the guards the loop places in
      front of it (Piemaker.cpp:315-338, 351-356, 371): a building is only
      bought while offered, a prestige reset only happens at 1000 pies or
      more, and the frame step performs the unlock updates. */
  datatype Command =
    | BakePie
    | BuyBuilding(building: Building)
    | BuyUpgradeCmd(id: UpgradeId)
    | Prestige
    | Passive(dt: Seconds)
    | BuildFrame

  function Step(s: GameState, cmd: Command, curve: StarCurve): (r: GameState)
    // the guards of the main loop: a hidden building and a reset below the gate do nothing
    ensures cmd.BuyBuilding? && !Shown(s, cmd.building) ==> r == s
    ensures cmd.Prestige? && s.totalPies < PrestigeGate ==> r == s
    // only a prestige reset changes the stars
    ensures !cmd.Prestige? ==> r.prestigeStars == s.prestigeStars
    ensures cmd.Prestige? ==> s.prestigeStars <= r.prestigeStars
  {
    match cmd
    case BakePie => Bake(s)
    case BuyBuilding(b) => if Shown(s, b) then Buy(s, b) else s
    case BuyUpgradeCmd(i) => BuyUpgrade(s, i)
    case Prestige => if s.totalPies >= PrestigeGate then ResetForPrestige(s, curve) else s
    case Passive(dt) => Produce(s, dt)
    case BuildFrame => UpdateUnlocks(s)
  }

  /** The state after a sequence of commands. */
  function Run(s: GameState, cmds: seq<Command>, curve: StarCurve): GameState
    decreases |cmds|
  {
    if |cmds| == 0 then s else Run(Step(s, cmds[0], curve), cmds[1..], curve)
  }

  /** Whether `cmd` resets the run. */
  predicate Resets(s: GameState, cmd: Command)
  {
    cmd.Prestige? && s.totalPies >= PrestigeGate
  }

  // ---------------------------------------------------------------------
  // Properties
  // ---------------------------------------------------------------------

  /** Building prices follow a linear curve with a fixed step per building
      owned, and so strictly increase with the number owned. */
  lemma CostStrictlyIncreasing(b: Building, n: int, m: int)
    requires n < m
    ensures Cost(b, n) < Cost(b, m)
    ensures Cost(b, n + 1) - Cost(b, n) == (match b case Grandma => 2 case Bakery => 10 case Factory => 50)
  {
  }

  /** The shares are those of the building and upgrade tables, and the rate
      bounds are the owned counts weighted by the shares. */
  lemma SharesMatchTable(s: GameState, b: Building)
    ensures Catalog[UpgradeFor(b)].effect.target == b
    ensures LowShare(s, b) == BaseRate(b)
      + (if Purchased(s, UpgradeFor(b)) then Catalog[UpgradeFor(b)].effect.perOwned else 0)
    ensures HighShare(s, b) == BaseRate(b)
      + (if Purchased(s, UpgradeFor(b)) then UpgradeBonus(b) else 0)
    ensures LowRate(s) == s.grandmas * LowShare(s, Grandma) + s.bakeries * LowShare(s, Bakery)
      + s.factories * LowShare(s, Factory)
    ensures HighRate(s) == s.grandmas * HighShare(s, Grandma) + s.bakeries * HighShare(s, Bakery)
      + s.factories * HighShare(s, Factory)
  {
  }

  lemma InitialValid()
    ensures Valid(Initial)
  {
  }

  /** A valid state never has a negative rate. */
  lemma ValidRateNonNegative(s: GameState)
    requires Valid(s)
    ensures 0 <= LowRate(s) <= s.piesPerSecond
  {
  }

  lemma BuyPreservesValid(s: GameState, b: Building)
    requires Valid(s)
    ensures Valid(Buy(s, b))
    ensures Buy(s, b).totalPies >= 0
  {
    var r := Buy(s, b);
    assert r.upgrades == s.upgrades;
    assert BoughtWhileVisible(r);
    BuyKeepsRateInBounds(s, b);
  }

  /** One more building of kind `b`, upgrades unchanged, moves both rate
      bounds by that building's shares. */
  lemma OneMoreBuilding(s: GameState, r: GameState, b: Building)
    requires r.upgrades == s.upgrades
    requires Owned(r, b) == Owned(s, b) + 1
    requires forall c :: c != b ==> Owned(r, c) == Owned(s, c)
    ensures LowRate(r) == LowRate(s) + LowShare(s, b)
    ensures HighRate(r) == HighRate(s) + HighShare(s, b)
  {
    assert Owned(r, Grandma) == r.grandmas && Owned(r, Bakery) == r.bakeries && Owned(r, Factory) == r.factories;
    assert Owned(s, Grandma) == s.grandmas && Owned(s, Bakery) == s.bakeries && Owned(s, Factory) == s.factories;
  }

  /** A building bought adds between its least and greatest share to the
      rate, so the rate stays within its bounds. */
  lemma BuyKeepsRateInBounds(s: GameState, b: Building)
    requires RateInBounds(s)
    ensures RateInBounds(Buy(s, b))
  {
    var r := Buy(s, b);
    if s.totalPies >= Cost(b, Owned(s, b)) {
      OneMoreBuilding(s, r, b);
      assert LowShare(s, b) <= r.piesPerSecond - s.piesPerSecond <= HighShare(s, b);
    }
  }

  lemma BuyUpgradePreservesValid(s: GameState, i: UpgradeId)
    requires Valid(s)
    ensures Valid(BuyUpgrade(s, i))
  {
    var r := BuyUpgrade(s, i);
    if CanBuyUpgrade(s, i) {
      assert r.upgrades[i].purchased && r.upgrades[i].visible;
      forall j | 0 <= j < UpgradeCount && j != i
        ensures r.upgrades[j] == s.upgrades[j]
      {
      }
    }
  }

  lemma StepPreservesValid(s: GameState, cmd: Command, curve: StarCurve)
    requires Valid(s)
    ensures Valid(Step(s, cmd, curve))
  {
    match cmd
    case BakePie =>
    case BuyBuilding(b) => BuyPreservesValid(s, b);
    case BuyUpgradeCmd(i) => BuyUpgradePreservesValid(s, i);
    case Prestige =>
    case Passive(dt) =>
      ValidRateNonNegative(s);
      Accumulator.ProductNonNegative(s.piesPerSecond, dt);
      Accumulator.AccrueKeepsCarry(s.pendingPies, s.piesPerSecond, dt);
    case BuildFrame =>
      var r := UpdateUnlocks(s);
      assert r.upgrades[0].purchased == s.upgrades[0].purchased;
      assert r.upgrades[1].purchased == s.upgrades[1].purchased;
      assert r.upgrades[2].purchased == s.upgrades[2].purchased;
      assert LowRate(r) == LowRate(s) && HighRate(r) == HighRate(s);
  }

  /** Pies never go negative, whatever the player does. */
  lemma {:induction false} RunPreservesValid(s: GameState, cmds: seq<Command>, curve: StarCurve)
    requires Valid(s)
    ensures Valid(Run(s, cmds, curve))
    ensures Run(s, cmds, curve).totalPies >= 0
    decreases |cmds|
  {
    if |cmds| > 0 {
      StepPreservesValid(s, cmds[0], curve);
      RunPreservesValid(Step(s, cmds[0], curve), cmds[1..], curve);
    }
  }

  /** What holds between any earlier and later state of a game: stars never
      decrease, and an upgrade once bought or visible stays so. */
  predicate KeepsUpgrades(s: GameState, r: GameState)
  {
    && r.prestigeStars >= s.prestigeStars
    && (forall i :: 0 <= i < UpgradeCount ==>
          (s.upgrades[i].purchased ==> r.upgrades[i].purchased)
          && (s.upgrades[i].visible ==> r.upgrades[i].visible))
  }

  /** What holds in addition when no prestige reset happens in between: the
      rate never decreases and no building unlock is withdrawn. */
  predicate Advances(s: GameState, r: GameState)
  {
    && KeepsUpgrades(s, r)
    && r.piesPerSecond >= s.piesPerSecond
    && (forall b :: Shown(s, b) ==> Shown(r, b))
  }

  /** Only a prestige reset lowers the rate or withdraws unlocks; nothing
      ever lowers the stars or un-buys or hides an upgrade. */
  lemma StepMonotone(s: GameState, cmd: Command, curve: StarCurve)
    requires Valid(s)
    ensures KeepsUpgrades(s, Step(s, cmd, curve))
    ensures !Resets(s, cmd) ==> Advances(s, Step(s, cmd, curve))
  {
    match cmd
    case BuyUpgradeCmd(i) =>
      var r := BuyUpgrade(s, i);
      assert Owned(s, Catalog[i].effect.target) >= 0;
      assert Catalog[i].effect.perOwned >= 0;
      forall j | 0 <= j < UpgradeCount
        ensures s.upgrades[j].purchased ==> r.upgrades[j].purchased
        ensures s.upgrades[j].visible ==> r.upgrades[j].visible
      {
      }
    case _ =>
  }

  /** How often upgrade `i` is actually bought during a run. */
  function UpgradePurchases(s: GameState, cmds: seq<Command>, i: UpgradeId, curve: StarCurve): nat
    decreases |cmds|
  {
    if |cmds| == 0 then 0
    else
      (if cmds[0] == BuyUpgradeCmd(i) && CanBuyUpgrade(s, i) then 1 else 0)
        + UpgradePurchases(Step(s, cmds[0], curve), cmds[1..], i, curve)
  }

  /** However often the player asks for it, an upgrade is bought, and its
      effect applied, at most once over any run; never again once bought. */
  lemma {:induction false} UpgradeBoughtAtMostOnce(s: GameState, cmds: seq<Command>, i: UpgradeId, curve: StarCurve)
    requires Valid(s)
    ensures UpgradePurchases(s, cmds, i, curve) <= 1
    ensures Purchased(s, i) ==> UpgradePurchases(s, cmds, i, curve) == 0
    decreases |cmds|
  {
    if |cmds| > 0 {
      var r := Step(s, cmds[0], curve);
      StepPreservesValid(s, cmds[0], curve);
      StepMonotone(s, cmds[0], curve);
      UpgradeBoughtAtMostOnce(r, cmds[1..], i, curve);
      if cmds[0] == BuyUpgradeCmd(i) && CanBuyUpgrade(s, i) {
        assert Purchased(r, i);
      }
    }
  }

  /** A second attempt at the same upgrade changes nothing. */
  lemma BuyUpgradeIdempotent(s: GameState, i: UpgradeId)
    ensures BuyUpgrade(BuyUpgrade(s, i), i) == BuyUpgrade(s, i)
  {
  }

  /** The rate is path-dependent: with the same buildings and upgrade, buying
      the bakery before "Industrial Wheat" gives it 5 + 2 pies per second,
      buying it afterwards gives it 5 + 10. */
  lemma UpgradeOrderMatters()
    ensures var s := Initial.(totalPies := 2000, showBakeries := true,
                              upgrades := Initial.upgrades[1 := UpgradeFlags(false, true)]);
      && BuyUpgrade(Buy(s, Bakery), 1).piesPerSecond == 7
      && Buy(BuyUpgrade(s, 1), Bakery).piesPerSecond == 15
      && Owned(BuyUpgrade(Buy(s, Bakery), 1), Bakery) == Owned(Buy(BuyUpgrade(s, 1), Bakery), Bakery)
  {
    var s := Initial.(totalPies := 2000, showBakeries := true,
                      upgrades := Initial.upgrades[1 := UpgradeFlags(false, true)]);
    assert CanBuyUpgrade(Buy(s, Bakery), 1);
    assert CanBuyUpgrade(s, 1);
  }

  /** A short session from the start: fifteen pies baked by hand, a frame
      (which unlocks grandmas at ten pies), one grandma bought for ten pies,
      then five seconds at one pie per second. */
  lemma ExampleSession(curve: StarCurve)
    ensures var baked := Run(Initial, seq(15, _ => BakePie), curve);
            var bought := Run(baked, [BuildFrame, BuyBuilding(Grandma)], curve);
            && baked.totalPies == 15
            && bought.totalPies == 5 && bought.grandmas == 1 && bought.piesPerSecond == 1
            && Step(bought, Passive(5.0), curve).totalPies == 10
  {
    var cmds := seq(15, _ => BakePie);
    RunBakes(Initial, cmds, curve);
    var baked := Run(Initial, cmds, curve);
    var framed := Step(baked, BuildFrame, curve);
    assert framed.showGrandmas;
    var bought := Step(framed, BuyBuilding(Grandma), curve);
    assert Run(baked, [BuildFrame, BuyBuilding(Grandma)], curve) == Run(framed, [BuyBuilding(Grandma)], curve);
    assert Run(framed, [BuyBuilding(Grandma)], curve) == Run(bought, [], curve);
    Accumulator.FloorOf(5.0, 5);
  }

  /** Baking n times adds n pies and changes nothing else. */
  lemma {:induction false} RunBakes(s: GameState, cmds: seq<Command>, curve: StarCurve)
    requires forall k :: 0 <= k < |cmds| ==> cmds[k] == BakePie
    ensures Run(s, cmds, curve) == s.(totalPies := s.totalPies + |cmds|)
    decreases |cmds|
  {
    if |cmds| > 0 {
      RunBakes(Bake(s), cmds[1..], curve);
    }
  }
}
