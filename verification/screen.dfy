/** Frame building (`buildFrame`, Piemaker.cpp:212-267).

    Building a frame has one side effect on the game, the unlock updates,
    and otherwise only reads the state. The frame is modelled by what its
    text lines carry rather than by the strings themselves: the counters,
    one slot per building line and per upgrade line (empty when that line is
    blank), the unlock notices of this frame and the prestige offer. The pie
    animation lines are not modelled.
 */
module Screen {
  import opened Economy

  datatype Option<T> = None | Some(value: T)

  /** The building kinds in the order of their screen lines. */
  const Buildings: seq<Building> := [Grandma, Bakery, Factory]

  /** A building line: how many are owned and the price shown. */
  datatype BuildingLine = BuildingLine(building: Building, owned: int, cost: int)

  /** An upgrade line: its name and the price shown. */
  datatype UpgradeLine = UpgradeLine(name: string, cost: int)

  datatype Frame = Frame(
    pies: int,
    perSecond: int,
    stars: real,
    notices: seq<Option<Building>>,
    buildingLines: seq<Option<BuildingLine>>,
    upgradeLines: seq<Option<UpgradeLine>>,
    prestigeOffer: Option<real>)

  /** The game state after the frame's unlock updates, and the frame. */
  datatype Rendered = Rendered(state: GameState, frame: Frame)

  /** Builds a frame: first the unlock updates, then every line from the
      updated state. */
  function Render(s: GameState, curve: StarCurve): (r: Rendered)
    ensures r.state == UpdateUnlocks(s)
    ensures |r.frame.notices| == 3 && |r.frame.buildingLines| == 3
    ensures |r.frame.upgradeLines| == UpgradeCount
    // a notice appears exactly in the frame in which its building is unlocked
    ensures forall k :: 0 <= k < 3 ==>
      (r.frame.notices[k].Some? <==> !Shown(s, Buildings[k]) && Shown(r.state, Buildings[k]))
    // a building line appears exactly while the building is offered
    ensures forall k :: 0 <= k < 3 ==>
      (r.frame.buildingLines[k].Some? <==> Shown(r.state, Buildings[k]))
    // and shows the building, how many are owned and the price of the next one
    ensures forall k :: 0 <= k < 3 && r.frame.buildingLines[k].Some? ==>
      var line := r.frame.buildingLines[k].value;
      line.building == Buildings[k] && line.owned == Owned(r.state, Buildings[k])
        && line.cost == Cost(line.building, line.owned)
    // an upgrade line appears exactly while the upgrade is visible and not bought
    ensures forall i :: 0 <= i < UpgradeCount ==>
      (r.frame.upgradeLines[i].Some? <==>
         r.state.upgrades[i].visible && !r.state.upgrades[i].purchased)
    // and shows the upgrade's name and price from the catalogue
    ensures forall i :: 0 <= i < UpgradeCount && r.frame.upgradeLines[i].Some? ==>
      r.frame.upgradeLines[i].value == UpgradeLine(Catalog[i].name, Catalog[i].cost)
    ensures r.frame.prestigeOffer.Some? <==> r.state.totalPies >= PrestigeGate
    ensures r.frame.pies == s.totalPies && r.frame.perSecond == s.piesPerSecond
    ensures r.frame.stars == s.prestigeStars
  {
    var u := UpdateUnlocks(s);
    var notices := seq(3, k requires 0 <= k < 3 =>
      if !Shown(s, Buildings[k]) && Shown(u, Buildings[k]) then Some(Buildings[k]) else None);
    var buildingLines := seq(3, k requires 0 <= k < 3 =>
      var b := Buildings[k];
      if Shown(u, b) then Some(BuildingLine(b, Owned(u, b), Cost(b, Owned(u, b)))) else None);
    var upgradeLines := seq(UpgradeCount, i requires 0 <= i < UpgradeCount =>
      if !u.upgrades[i].purchased && u.upgrades[i].visible
      then Some(UpgradeLine(Catalog[i].name, Catalog[i].cost))
      else None);
    var offer := if u.totalPies >= PrestigeGate then Some(curve(u.totalPies)) else None;
    Rendered(u, Frame(u.totalPies, u.piesPerSecond, u.prestigeStars,
      notices, buildingLines, upgradeLines, offer))
  }

  /** The price on a building line is the price a purchase charges: with at
      least that many pies the purchase takes exactly that many, with fewer
      it changes nothing. */
  lemma ShownCostIsCharged(s: GameState, curve: StarCurve, k: int)
    requires 0 <= k < 3
    requires Render(s, curve).frame.buildingLines[k].Some?
    ensures var u := Render(s, curve).state;
            var line := Render(s, curve).frame.buildingLines[k].value;
            && line.building == Buildings[k]
            && line.owned == Owned(u, line.building)
            && line.cost == Cost(line.building, line.owned)
            && (u.totalPies >= line.cost ==>
                  Buy(u, line.building).totalPies == u.totalPies - line.cost
                  && Owned(Buy(u, line.building), line.building) == line.owned + 1)
            && (u.totalPies < line.cost ==> Buy(u, line.building) == u)
  {
  }

  /** The price on an upgrade line is the price its purchase charges. */
  lemma ShownUpgradeCostIsCharged(s: GameState, curve: StarCurve, i: UpgradeId)
    requires Render(s, curve).frame.upgradeLines[i].Some?
    ensures var u := Render(s, curve).state;
            var line := Render(s, curve).frame.upgradeLines[i].value;
            && line.name == Catalog[i].name
            && line.cost == Catalog[i].cost
            && (u.totalPies >= line.cost ==>
                  BuyUpgrade(u, i).totalPies == u.totalPies - line.cost
                  && Purchased(BuyUpgrade(u, i), i))
            && (u.totalPies < line.cost ==> BuyUpgrade(u, i) == u)
  {
  }

  /** The stars offered on screen are the stars a prestige reset of the
      frame's state grants. The next tick resets the state left after its
      own bake and purchases; `Game.OfferHoldsNextTick` states when the two
      agree. */
  lemma PrestigeOfferIsGranted(s: GameState, curve: StarCurve)
    requires Render(s, curve).frame.prestigeOffer.Some?
    ensures var u := Render(s, curve).state;
            ResetForPrestige(u, curve).prestigeStars
              == u.prestigeStars + Render(s, curve).frame.prestigeOffer.value
  {
  }
}
