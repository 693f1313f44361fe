/** Power-switch selection: `PowerSwitchManager`.

    The manager keeps the list of power switches the overlay shows. The scene
    scan that finds every switch of the level is a parameter, and so is the
    game world the manager is started with. */
module PowerSwitches {
  import opened Wrappers
  import opened Seqs
  import opened Text

  /** `EDoorState`; the game's `None` member is written NoState here. */
  datatype DoorState = NoState | Locked | Shut | Open | Interacting | Breaching

  /** A switch of the level: whether this client has authority over it, whether
      it can be operated, the switch before it in its chain (None for the first
      of a chain), its door state and its object name. */
  datatype Switch = Switch(
    name: string,
    hasAuthority: bool,
    operatable: bool,
    previousSwitch: Option<Switch>,
    doorState: DoorState)

  /** The running game world; the manager only tests it for null. */
  class GameWorld {
  }

  /** A switch worth showing: one the player can work, the first of its chain,
      closed at the start, and not a reset or node switch by name. Such a
      switch is not triggered, and "reset" and "node" occur nowhere in its
      lower-cased name. */
  predicate IsInitialPowerSwitch(s: Switch): (shown: bool)
    ensures shown ==> !CurrentlyTriggered(s)
    ensures shown ==> forall i ::
      !OccursAt(Lower(s.name), "reset", i) && !OccursAt(Lower(s.name), "node", i)
  {
    s.hasAuthority &&
    s.operatable &&
    s.previousSwitch.None? &&
    s.doorState == Shut &&
    !Contains(Lower(s.name), "reset") &&
    !Contains(Lower(s.name), "node")
  }

  /** The switches of a scan that the selection keeps, in scan order: each
      one kept is a scanned switch that passes the test. */
  function InitialPowerSwitches(scene: seq<Switch>): (kept: seq<Switch>)
    ensures |kept| <= |scene|
    ensures forall k :: 0 <= k < |kept| ==> IsInitialPowerSwitch(kept[k]) && kept[k] in scene
  {
    Filter(scene, IsInitialPowerSwitch)
  }

  /** `currentlyTriggered`: the switch is open or being worked; it is not
      triggered exactly in the other four door states. */
  predicate CurrentlyTriggered(s: Switch): (triggered: bool)
    ensures !triggered <==>
      s.doorState.NoState? || s.doorState.Locked? || s.doorState.Shut? || s.doorState.Breaching?
  {
    if s.doorState == Open || s.doorState == Interacting then true else false
  }

  /** Errors thrown by Initialize. */
  datatype InitializeError = GameWorldNull

  /** The manager's state: `powerSwitches` and the game world it was started with. */
  class PowerSwitchManager {
    var powerSwitches: seq<Switch>
    var gameWorld: GameWorld?

    constructor ()
      ensures powerSwitches == [] && gameWorld == null
    {
      powerSwitches := [];
      gameWorld := null;
    }

    /** Start for a game world: throw when it is null, before the list is
        touched; otherwise clear the list and fill it from the scan. */
    method Initialize(world: GameWorld?, scene: seq<Switch>) returns (outcome: Outcome<InitializeError>)
      modifies this
      ensures world == null ==>
        outcome == Threw(GameWorldNull) &&
        powerSwitches == old(powerSwitches) && gameWorld == old(gameWorld)
      ensures world != null ==>
        outcome == Returned && gameWorld == world && powerSwitches == InitialPowerSwitches(scene)
    {
      if world == null {
        return Threw(GameWorldNull);
      }
      gameWorld := world;
      powerSwitches := [];
      SetupInitialPowerSwitches(scene);
      outcome := Returned;
    }

    /** Clear the list. */
    method Deinitialize()
      modifies this
      ensures powerSwitches == [] && gameWorld == old(gameWorld)
    {
      powerSwitches := [];
    }

    /** Append to the list, in scan order, every scanned switch that passes
        the selection. */
    method SetupInitialPowerSwitches(scene: seq<Switch>)
      modifies this
      ensures powerSwitches == old(powerSwitches) + InitialPowerSwitches(scene)
      ensures gameWorld == old(gameWorld)
    {
      for i := 0 to |scene|
        invariant powerSwitches == old(powerSwitches) + Filter(scene[..i], IsInitialPowerSwitch)
        invariant gameWorld == old(gameWorld)
      {
        FilterSnoc(scene, i, IsInitialPowerSwitch);
        var s := scene[i];
        if s.hasAuthority &&
           s.operatable &&
           s.previousSwitch == None &&
           s.doorState == Shut &&
           !Contains(Lower(s.name), "reset") &&
           !Contains(Lower(s.name), "node")
        {
          powerSwitches := powerSwitches + [s];
        }
      }
      assert scene[..|scene|] == scene;
    }
  }

  // ---------------------------------------------------------------------------
  // Properties of the selection

  /** The selection keeps each scanned switch exactly as often as the scan
      holds it when it passes the test, and never otherwise. */
  lemma InitialPowerSwitchesExactly(scene: seq<Switch>, s: Switch)
    ensures multiset(InitialPowerSwitches(scene))[s] ==
            if IsInitialPowerSwitch(s) then multiset(scene)[s] else 0
    ensures s in InitialPowerSwitches(scene) <==> s in scene && IsInitialPowerSwitch(s)
  {
    FilterMultiplicity(scene, IsInitialPowerSwitch, s);
    FilterMember(scene, IsInitialPowerSwitch, s);
  }

  /** The selection keeps the scan order. */
  lemma InitialPowerSwitchesInScanOrder(scene: seq<Switch>)
    ensures IsSubsequence(InitialPowerSwitches(scene), scene)
  {
    FilterIsSubsequence(scene, IsInitialPowerSwitch);
  }

  /** No switch selected at initialisation is triggered at that moment: each is shut. */
  lemma InitialPowerSwitchesNotTriggered(scene: seq<Switch>, k: nat)
    requires k < |InitialPowerSwitches(scene)|
    ensures !CurrentlyTriggered(InitialPowerSwitches(scene)[k])
  {
    var s := InitialPowerSwitches(scene)[k];
    InitialPowerSwitchesExactly(scene, s);
  }
}
