/** One iteration of the main loop (`main`, Piemaker.cpp:313-374): input,
    goal check, passive production and frame building.

    The physical keyboard is an input: `down` is the set of keys physically
    down during the tick. The elapsed time is an input too. Polls sit behind
    the same short-circuiting guards as in the source, so a key whose guard
    is false is not polled and its entry in the key table stays as it was.
 */
module Game {
  import opened Keyboard
  import opened Economy
  import opened Screen

  const SpaceKey: KeyCode := 0x20

  const ResetKey: KeyCode := 'R' as int

  function BuildingKey(b: Building): KeyCode
  {
    match b
    case Grandma => 'G' as int
    case Bakery => 'B' as int
    case Factory => 'F' as int
  }

  function UpgradeKey(i: UpgradeId): KeyCode
  {
    '1' as int + i
  }

  /** Pie count that wins the game. */
  const Goal := 1000000

  /** The game state and the key-edge detector's table. */
  datatype World = World(game: GameState, held: set<KeyCode>)

  /** The result of a tick: the loop either goes on with a new frame, or
      stops to celebrate the goal. */
  datatype Outcome = Running(world: World, frame: Screen.Frame) | Celebrating(world: World)

  /** Polls `key` only if `guard` holds, and on a press issues `cmd`. */
  function Guarded(w: World, down: set<KeyCode>, guard: bool, key: KeyCode, cmd: Command, curve: StarCurve): (r: World)
    ensures r.game == w.game || r.game == Step(w.game, cmd, curve)
    ensures guard && key in down && key !in w.held ==> r.game == Step(w.game, cmd, curve)
    ensures !(guard && key in down && key !in w.held) ==> r.game == w.game
    ensures guard ==> (key in r.held <==> key in down)
    ensures !guard ==> r.held == w.held
    ensures forall k :: k != key ==> (k in r.held <==> k in w.held)
  {
    if !guard then w
    else
      var p := KeyPressed(w.held, key, key in down);
      World(if p.pressed then Step(w.game, cmd, curve) else w.game, p.held)
  }

  function BuildingInput(w: World, down: set<KeyCode>, b: Building, curve: StarCurve): World
  {
    Guarded(w, down, Shown(w.game, b), BuildingKey(b), BuyBuilding(b), curve)
  }

  function UpgradeInput(w: World, down: set<KeyCode>, i: UpgradeId, curve: StarCurve): World
  {
    var u := w.game.upgrades[i];
    Guarded(w, down, u.visible && !u.purchased, UpgradeKey(i), BuyUpgradeCmd(i), curve)
  }

  /** The input steps before the prestige check: bake, the three buildings,
      the three upgrades in table order. */
  function InputBeforePrestige(w: World, down: set<KeyCode>, curve: StarCurve): (r: World)
    // none of these steps is a reset, so the stars stay as they are
    ensures r.game.prestigeStars == w.game.prestigeStars
    // R is not polled yet: its edge is measured from the previous tick's poll
    ensures ResetKey in r.held <==> ResetKey in w.held
  {
    var baked := Guarded(w, down, true, SpaceKey, BakePie, curve);
    var w1 := BuildingInput(baked, down, Grandma, curve);
    var w2 := BuildingInput(w1, down, Bakery, curve);
    var w3 := BuildingInput(w2, down, Factory, curve);
    var w4 := UpgradeInput(w3, down, 0, curve);
    var w5 := UpgradeInput(w4, down, 1, curve);
    UpgradeInput(w5, down, 2, curve)
  }

  /** Whether the tick performs a prestige reset: R is newly pressed while
      the pie count is at least 1000. */
  predicate ResetsThisTick(w: World, down: set<KeyCode>, curve: StarCurve)
  {
    var before := InputBeforePrestige(w, down, curve);
    before.game.totalPies >= PrestigeGate && ResetKey in down && ResetKey !in before.held
  }

  function Input(w: World, down: set<KeyCode>, curve: StarCurve): (r: World)
    // the stars change only by a reset, which adds the gain of the pies it clears
    ensures !ResetsThisTick(w, down, curve) ==> r.game.prestigeStars == w.game.prestigeStars
    ensures ResetsThisTick(w, down, curve) ==>
      && r.game.totalPies == 0
      && r.game.prestigeStars
           == w.game.prestigeStars + curve(InputBeforePrestige(w, down, curve).game.totalPies)
  {
    var before := InputBeforePrestige(w, down, curve);
    Guarded(before, down, before.game.totalPies >= PrestigeGate, ResetKey, Prestige, curve)
  }

  /** One tick: input; stop if the goal is reached; otherwise passive
      production for `dt` seconds and a new frame. */
  function Tick(w: World, down: set<KeyCode>, dt: Seconds, curve: StarCurve): (r: Outcome)
    ensures r.Celebrating? ==> r.world.game.totalPies >= Goal
    // a frame shows the counters of the state the loop goes on with
    ensures r.Running? ==>
      && r.frame.pies == r.world.game.totalPies
      && r.frame.perSecond == r.world.game.piesPerSecond
      && r.frame.stars == r.world.game.prestigeStars
    ensures r.world.held == Input(w, down, curve).held
  {
    var afterInput := Input(w, down, curve);
    if afterInput.game.totalPies >= Goal then
      Celebrating(afterInput)
    else
      var produced := Step(afterInput.game, Passive(dt), curve);
      var rendered := Render(produced, curve);
      Running(World(rendered.state, afterInput.held), rendered.frame)
  }

  // ---------------------------------------------------------------------
  // Properties
  // ---------------------------------------------------------------------

  lemma GuardedKeeps(w: World, down: set<KeyCode>, guard: bool, key: KeyCode, cmd: Command, curve: StarCurve)
    requires Valid(w.game)
    ensures Valid(Guarded(w, down, guard, key, cmd, curve).game)
    ensures KeepsUpgrades(w.game, Guarded(w, down, guard, key, cmd, curve).game)
    ensures !Resets(w.game, cmd) ==> Advances(w.game, Guarded(w, down, guard, key, cmd, curve).game)
  {
    StepPreservesValid(w.game, cmd, curve);
    StepMonotone(w.game, cmd, curve);
  }

  lemma AdvancesTransitive(a: GameState, b: GameState, c: GameState)
    requires Advances(a, b) && Advances(b, c)
    ensures Advances(a, c)
  {
  }

  lemma KeepsUpgradesTransitive(a: GameState, b: GameState, c: GameState)
    requires KeepsUpgrades(a, b) && KeepsUpgrades(b, c)
    ensures KeepsUpgrades(a, c)
  {
  }

  lemma BuildingInputAdvances(w: World, down: set<KeyCode>, b: Building, curve: StarCurve)
    requires Valid(w.game)
    ensures Valid(BuildingInput(w, down, b, curve).game)
    ensures Advances(w.game, BuildingInput(w, down, b, curve).game)
  {
    GuardedKeeps(w, down, Shown(w.game, b), BuildingKey(b), BuyBuilding(b), curve);
  }

  lemma UpgradeInputAdvances(w: World, down: set<KeyCode>, i: UpgradeId, curve: StarCurve)
    requires Valid(w.game)
    ensures Valid(UpgradeInput(w, down, i, curve).game)
    ensures Advances(w.game, UpgradeInput(w, down, i, curve).game)
  {
    var u := w.game.upgrades[i];
    GuardedKeeps(w, down, u.visible && !u.purchased, UpgradeKey(i), BuyUpgradeCmd(i), curve);
  }

  lemma InputBeforePrestigeAdvances(w: World, down: set<KeyCode>, curve: StarCurve)
    requires Valid(w.game)
    ensures Valid(InputBeforePrestige(w, down, curve).game)
    ensures Advances(w.game, InputBeforePrestige(w, down, curve).game)
  {
    var baked := Guarded(w, down, true, SpaceKey, BakePie, curve);
    GuardedKeeps(w, down, true, SpaceKey, BakePie, curve);
    var w1 := BuildingInput(baked, down, Grandma, curve);
    BuildingInputAdvances(baked, down, Grandma, curve);
    AdvancesTransitive(w.game, baked.game, w1.game);
    var w2 := BuildingInput(w1, down, Bakery, curve);
    BuildingInputAdvances(w1, down, Bakery, curve);
    AdvancesTransitive(w.game, w1.game, w2.game);
    var w3 := BuildingInput(w2, down, Factory, curve);
    BuildingInputAdvances(w2, down, Factory, curve);
    AdvancesTransitive(w.game, w2.game, w3.game);
    var w4 := UpgradeInput(w3, down, 0, curve);
    UpgradeInputAdvances(w3, down, 0, curve);
    AdvancesTransitive(w.game, w3.game, w4.game);
    var w5 := UpgradeInput(w4, down, 1, curve);
    UpgradeInputAdvances(w4, down, 1, curve);
    AdvancesTransitive(w.game, w4.game, w5.game);
    var w6 := UpgradeInput(w5, down, 2, curve);
    UpgradeInputAdvances(w5, down, 2, curve);
    AdvancesTransitive(w.game, w5.game, w6.game);
  }

  lemma InputKeeps(w: World, down: set<KeyCode>, curve: StarCurve)
    requires Valid(w.game)
    ensures Valid(Input(w, down, curve).game)
    ensures KeepsUpgrades(w.game, Input(w, down, curve).game)
    ensures !ResetsThisTick(w, down, curve) ==> Advances(w.game, Input(w, down, curve).game)
  {
    var before := InputBeforePrestige(w, down, curve);
    InputBeforePrestigeAdvances(w, down, curve);
    GuardedKeeps(before, down, before.game.totalPies >= PrestigeGate, ResetKey, Prestige, curve);
    var afterInput := Input(w, down, curve);
    KeepsUpgradesTransitive(w.game, before.game, afterInput.game);
    if !ResetsThisTick(w, down, curve) {
      AdvancesTransitive(w.game, before.game, afterInput.game);
    }
  }

  lemma ProduceAndRenderAdvance(g: GameState, dt: Seconds, curve: StarCurve)
    requires Valid(g)
    ensures Valid(Render(Step(g, Passive(dt), curve), curve).state)
    ensures Advances(g, Render(Step(g, Passive(dt), curve), curve).state)
  {
    var produced := Step(g, Passive(dt), curve);
    StepPreservesValid(g, Passive(dt), curve);
    StepMonotone(g, Passive(dt), curve);
    StepPreservesValid(produced, BuildFrame, curve);
    StepMonotone(produced, BuildFrame, curve);
    AdvancesTransitive(g, produced, Step(produced, BuildFrame, curve));
  }

  /** Every tick keeps the state valid (no negative pies or rate, a carry
      below one pie), never lowers the stars, never un-buys or hides an
      upgrade, and, unless it performs a prestige reset, never lowers the
      rate nor withdraws a building unlock. */
  lemma TickPreserves(w: World, down: set<KeyCode>, dt: Seconds, curve: StarCurve)
    requires Valid(w.game)
    ensures Valid(Tick(w, down, dt, curve).world.game)
    ensures KeepsUpgrades(w.game, Tick(w, down, dt, curve).world.game)
    ensures !ResetsThisTick(w, down, curve) ==> Advances(w.game, Tick(w, down, dt, curve).world.game)
  {
    var afterInput := Input(w, down, curve);
    InputKeeps(w, down, curve);
    if afterInput.game.totalPies < Goal {
      var next := Render(Step(afterInput.game, Passive(dt), curve), curve).state;
      assert Tick(w, down, dt, curve).world.game == next;
      ProduceAndRenderAdvance(afterInput.game, dt, curve);
      KeepsUpgradesTransitive(w.game, afterInput.game, next);
      if !ResetsThisTick(w, down, curve) {
        AdvancesTransitive(w.game, afterInput.game, next);
      }
    }
  }

  /** A prestige reset happens only at 1000 pies or more, and then leaves an
      empty run with the upgrades kept. */
  lemma ResetOnlyAtGate(w: World, down: set<KeyCode>, curve: StarCurve)
    ensures var before := InputBeforePrestige(w, down, curve);
            var after := Input(w, down, curve);
            && (ResetsThisTick(w, down, curve) ==>
                  before.game.totalPies >= PrestigeGate
                  && after.game == ResetForPrestige(before.game, curve))
            && (!ResetsThisTick(w, down, curve) ==> after.game == before.game)
  {
  }

  /** The game stops exactly when the input of a tick leaves at least a
      million pies. */
  lemma CelebratesAtGoal(w: World, down: set<KeyCode>, dt: Seconds, curve: StarCurve)
    ensures Tick(w, down, dt, curve).Celebrating? <==> Input(w, down, curve).game.totalPies >= Goal
  {
  }

  /** SPACE is polled every tick: after a tick the key table holds its
      physical state, and a newly pressed SPACE bakes exactly one pie before
      any purchase. */
  lemma SpaceBakesOnEdge(w: World, down: set<KeyCode>, curve: StarCurve)
    ensures var baked := Guarded(w, down, true, SpaceKey, BakePie, curve);
            && (SpaceKey in down && SpaceKey !in w.held ==> baked.game.totalPies == w.game.totalPies + 1)
            && (!(SpaceKey in down && SpaceKey !in w.held) ==> baked.game == w.game)
    ensures SpaceKey in Input(w, down, curve).held <==> SpaceKey in down
  {
  }

  /** After a tick that goes on, every building kind whose threshold the pie
      count has reached is offered, and every upgrade not yet bought whose
      half price it has reached is visible. */
  lemma TickUnlocks(w: World, down: set<KeyCode>, dt: Seconds, curve: StarCurve)
    requires Tick(w, down, dt, curve).Running?
    ensures var g := Tick(w, down, dt, curve).world.game;
            && (forall b :: g.totalPies >= UnlockAt(b) ==> Shown(g, b))
            && (forall i :: 0 <= i < UpgradeCount ==>
                  (!g.upgrades[i].purchased && g.totalPies >= Catalog[i].cost / 2 ==> g.upgrades[i].visible))
  {
  }

  /** A tick whose only key down is R grants exactly the stars the last
      frame offered: nothing before the reset changes the pie count, and
      the reset fires iff R was up at its last poll. */
  lemma OfferHoldsNextTick(g: GameState, held: set<KeyCode>, down: set<KeyCode>, curve: StarCurve)
    requires Render(g, curve).frame.prestigeOffer.Some?
    requires forall k :: k in down ==> k == ResetKey
    ensures var rendered := Render(g, curve);
            var w := World(rendered.state, held);
            && (ResetsThisTick(w, down, curve) <==> ResetKey in down && ResetKey !in held)
            && (ResetsThisTick(w, down, curve) ==>
                  Input(w, down, curve).game.prestigeStars
                    == rendered.frame.stars + rendered.frame.prestigeOffer.value)
  {
  }

  /** The game begins with the start state and an empty key table. */
  const Start := World(Initial, {})

  lemma StartValid()
    ensures Valid(Start.game) && Start.held == {}
    ensures Start.game.totalPies == 0 && Start.game.prestigeStars == 0.0
  {
    InitialValid();
  }
}
