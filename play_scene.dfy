/**
 * PlayScene: the in-game scene. It keeps its own pending-event list, which PollEvents
 * snapshots and clears before dispatching in arrival order; it toggles the pause menu and the
 * hitbox overlay, counts the hits taken and dealt by the player, routes input either to the
 * menu or to the game view, and decides which panels draw on which render layer.
 *
 * The panels it drives but that are not part of this model (game view, camera, UI, map) are
 * seen through the calls it makes on them, kept in order in `panelLog`.
 */
module PlayScenes {

  import opened Wrappers
  import opened Events
  import opened EngineTypes
  import opened Timers
  import opened Menus
  import Tanks

  datatype MapType = UNDEFINED | TILED | UNLIMITED

  datatype MapPanel = TiledMapPanel | UnlimitedMapPanel

  /** The map panel Enter creates for a map type: none for UNDEFINED. */
  function MapFor(t: MapType): (m: Option<MapPanel>)
    ensures m.None? <==> t.UNDEFINED?
    ensures t.TILED? ==> m == Some(TiledMapPanel)
    ensures t.UNLIMITED? ==> m == Some(UnlimitedMapPanel)
  {
    match t
    case UNDEFINED => None
    case TILED => Some(TiledMapPanel)
    case UNLIMITED => Some(UnlimitedMapPanel)
  }

  /** What the game view is asked to add: an object carried by an event, or a new tank. */
  datatype Spawned = ExistingObject(obj: object?) | NewTank(color: Tanks.TankColor)

  /** A call the scene makes on a panel, the camera or the sprite registry. */
  datatype PanelCall =
    | GameViewInput(input: InputStruct)
    | GameViewAdd(spawned: Spawned)
    | GameViewRemove(obj: object?)
    | GameViewUpdate
    | CameraUpdate
    | UiUpdate
    | MapUpdate
    | UiTimeIsUp(enemyDamaged: int, playerDamaged: int)
    | MapRender(layer: RenderLayer)
    | GameViewRender(layer: RenderLayer)
    | MenuRender(layer: RenderLayer)
    | UiRender(layer: RenderLayer)
    | RemoveAllSprites

  /** The layers the map and the game view draw on. */
  predicate IsWorldLayer(layer: RenderLayer) {
    layer.BACKGROOUND? || layer.GROUND? || layer.HITBOXES? || layer.MAINBOARD? || layer.OVERHEAD?
  }

  /** The draw calls Render makes for `layer`. */
  function RenderCalls(layer: RenderLayer, showMenu: bool, showHitboxes: bool): (r: seq<PanelCall>)
    ensures MapRender(layer) in r <==> IsWorldLayer(layer) && (layer.HITBOXES? ==> showHitboxes)
    ensures GameViewRender(layer) in r <==> MapRender(layer) in r
    ensures MenuRender(layer) in r <==> layer.MENU? && showMenu
    ensures UiRender(layer) in r <==> layer.USER_INTERFACE? && !showMenu
    ensures forall c :: c in r ==> c in {MapRender(layer), GameViewRender(layer), MenuRender(layer), UiRender(layer)}
  {
    if IsWorldLayer(layer) then
      if !(layer.HITBOXES? && !showHitboxes) then [MapRender(layer), GameViewRender(layer)] else []
    else if showMenu && layer.MENU? then [MenuRender(layer)]
    else if !showMenu && layer.USER_INTERFACE? then [UiRender(layer)]
    else []
  }

  /** The hitbox layer is drawn exactly when the overlay is on; the menu and the UI never together. */
  lemma RenderGating(showMenu: bool, showHitboxes: bool)
    ensures RenderCalls(HITBOXES, showMenu, showHitboxes) != [] <==> showHitboxes
    ensures RenderCalls(MENU, showMenu, showHitboxes) != [] <==> showMenu
    ensures RenderCalls(USER_INTERFACE, showMenu, showHitboxes) != [] <==> !showMenu
    ensures RenderCalls(MENU, showMenu, showHitboxes) == [] || RenderCalls(USER_INTERFACE, showMenu, showHitboxes) == []
  {
  }

  /** The part of the scene that dispatching events changes. */
  datatype PollState = PollState(showMenu: bool, playerDamaged: int, enemyDamaged: int, log: seq<PanelCall>)

  /** A TANK_HIT whose target is the player. */
  predicate HitsPlayer(e: Event, player: object?) {
    IsStateEvent(e, TANK_HIT) && e.target == player
  }

  /** A TANK_HIT on another tank, fired by the player. */
  predicate HitByPlayer(e: Event, player: object?) {
    IsStateEvent(e, TANK_HIT) && e.target != player && e.sniper == player
  }

  /** The three new green tanks a SPAWN_GROUP adds to the game view. */
  const SPAWN_GROUP_CALLS: seq<PanelCall> := [
    GameViewAdd(NewTank(Tanks.TankColor.GREEN)),
    GameViewAdd(NewTank(Tanks.TankColor.GREEN)),
    GameViewAdd(NewTank(Tanks.TankColor.GREEN))]

  /** The effect of dispatching one event. */
  function ApplyEvent(s: PollState, e: Event, player: object?): (r: PollState)
    ensures e.OtherEvent? ==> r == s
    ensures r.showMenu == (s.showMenu != IsStateEvent(e, FLIP_MENU))
    ensures r.playerDamaged == s.playerDamaged + (if HitsPlayer(e, player) then 1 else 0)
    ensures r.enemyDamaged == s.enemyDamaged + (if HitByPlayer(e, player) then 1 else 0)
    ensures s.log <= r.log
    ensures IsStateEvent(e, SPAWN_GROUP) ==> r.log == s.log + SPAWN_GROUP_CALLS
    ensures IsStateEvent(e, SPAWN_NEW_ENTITY) ==> r.log == s.log + [GameViewAdd(ExistingObject(e.sender))]
    ensures IsStateEvent(e, DESPAWN_ENTITY) ==> r.log == s.log + [GameViewRemove(e.sender)]
    ensures IsStateEvent(e, TIME_UP) ==> r.log == s.log + [UiTimeIsUp(s.enemyDamaged, s.playerDamaged)]
    ensures !e.SceneStateEvent? || e.eventType !in {SPAWN_GROUP, SPAWN_NEW_ENTITY, DESPAWN_ENTITY, TIME_UP} ==> r.log == s.log
    ensures !IsStateEvent(e, SPAWN_GROUP) ==> |r.log| <= |s.log| + 1
    ensures !IsStateEvent(e, SPAWN_GROUP) ==> forall k :: |s.log| <= k < |r.log| ==> !r.log[k].GameViewAdd? || r.log[k].spawned.ExistingObject?
  {
    match e
    case OtherEvent(_) => s
    case SceneStateEvent(t, sender, target, sniper, _) =>
      match t
      case FLIP_MENU => s.(showMenu := !s.showMenu)
      case SPAWN_NEW_ENTITY => s.(log := s.log + [GameViewAdd(ExistingObject(sender))])
      case DESPAWN_ENTITY => s.(log := s.log + [GameViewRemove(sender)])
      case TANK_HIT =>
        if target == player then s.(playerDamaged := s.playerDamaged + 1)
        else if sniper == player then s.(enemyDamaged := s.enemyDamaged + 1)
        else s
      case SPAWN_GROUP => s.(log := s.log + SPAWN_GROUP_CALLS)
      case TIME_UP => s.(log := s.log + [UiTimeIsUp(s.enemyDamaged, s.playerDamaged)])
      case CHANGE_SCENE => s
      case EXIT_GAME => s
  }

  /** A TANK_HIT moves at most one of the two counters, by one. */
  lemma AtMostOneCounter(s: PollState, e: Event, player: object?)
    ensures var r := ApplyEvent(s, e, player);
      (r.playerDamaged - s.playerDamaged) + (r.enemyDamaged - s.enemyDamaged) == (if IsStateEvent(e, TANK_HIT) && (e.target == player || e.sniper == player) then 1 else 0)
  {
  }

  /** Dispatching `evs` in arrival order. */
  function ApplyEvents(s: PollState, evs: seq<Event>, player: object?): PollState {
    if evs == [] then s
    else ApplyEvent(ApplyEvents(s, evs[..|evs| - 1], player), evs[|evs| - 1], player)
  }

  /** Two polls over consecutive batches equal one poll over both, in order. */
  lemma {:induction false} ApplyEventsAppend(s: PollState, a: seq<Event>, b: seq<Event>, player: object?)
    ensures ApplyEvents(s, a + b, player) == ApplyEvents(ApplyEvents(s, a, player), b, player)
  {
    if b == [] {
      assert a + b == a;
    } else {
      ApplyEventsAppend(s, a, b[..|b| - 1], player);
      assert (a + b)[..|a + b| - 1] == a + b[..|b| - 1];
    }
  }

  function PlayerHits(evs: seq<Event>, player: object?): nat {
    if evs == [] then 0
    else PlayerHits(evs[..|evs| - 1], player) + (if HitsPlayer(evs[|evs| - 1], player) then 1 else 0)
  }

  function EnemyHits(evs: seq<Event>, player: object?): nat {
    if evs == [] then 0
    else EnemyHits(evs[..|evs| - 1], player) + (if HitByPlayer(evs[|evs| - 1], player) then 1 else 0)
  }

  /** The number of new tanks a call log asks the game view to add. */
  function NewTankCount(log: seq<PanelCall>): nat {
    if log == [] then 0
    else NewTankCount(log[..|log| - 1]) + (if log[|log| - 1].GameViewAdd? && log[|log| - 1].spawned.NewTank? then 1 else 0)
  }

  lemma {:induction false} NewTankCountAppend(a: seq<PanelCall>, b: seq<PanelCall>)
    ensures NewTankCount(a + b) == NewTankCount(a) + NewTankCount(b)
  {
    if b == [] {
      assert a + b == a;
    } else {
      NewTankCountAppend(a, b[..|b| - 1]);
      assert (a + b)[..|a + b| - 1] == a + b[..|b| - 1];
    }
  }

  /** A log made only of new-tank requests counts each of them. */
  lemma {:induction false} NewTankCountAll(b: seq<PanelCall>)
    requires forall k :: 0 <= k < |b| ==> b[k].GameViewAdd? && b[k].spawned.NewTank?
    ensures NewTankCount(b) == |b|
  {
    if b != [] {
      NewTankCountAll(b[..|b| - 1]);
    }
  }

  /** A log extension that adds no new tank leaves the new-tank count alone. */
  lemma {:induction false} NoNewTanks(a: seq<PanelCall>, b: seq<PanelCall>)
    requires a <= b
    requires forall k :: |a| <= k < |b| ==> !b[k].GameViewAdd? || b[k].spawned.ExistingObject?
    ensures NewTankCount(b) == NewTankCount(a)
  {
    if |b| > |a| {
      NoNewTanks(a, b[..|b| - 1]);
    } else {
      assert a == b;
    }
  }

  /**
   * One poll over `evs`: the menu flag flips once per FLIP_MENU, and the counters grow by the
   * hits on the player and by the player.
   */
  lemma {:induction false} PollFlagsAndCounters(s: PollState, evs: seq<Event>, player: object?)
    ensures var r := ApplyEvents(s, evs, player);
      && r.showMenu == (s.showMenu != (CountType(evs, FLIP_MENU) % 2 == 1))
      && r.playerDamaged == s.playerDamaged + PlayerHits(evs, player)
      && r.enemyDamaged == s.enemyDamaged + EnemyHits(evs, player)
  {
    if evs != [] {
      PollFlagsAndCounters(s, evs[..|evs| - 1], player);
    }
  }

  /**
   * One poll over `evs` only appends to the call log, and every SPAWN_GROUP in it asks for
   * exactly three new tanks, all green.
   */
  lemma {:induction false} PollSpawns(s: PollState, evs: seq<Event>, player: object?)
    ensures var r := ApplyEvents(s, evs, player);
      && s.log <= r.log
      && NewTankCount(r.log) == NewTankCount(s.log) + 3 * CountType(evs, SPAWN_GROUP)
      && forall k :: |s.log| <= k < |r.log| && r.log[k].GameViewAdd? && r.log[k].spawned.NewTank? ==>
           r.log[k].spawned.color == Tanks.TankColor.GREEN
  {
    if evs != [] {
      var e := evs[|evs| - 1];
      PollSpawns(s, evs[..|evs| - 1], player);
      var m := ApplyEvents(s, evs[..|evs| - 1], player);
      SpawnStep(m, e, player);
    }
  }

  /** One event: only SPAWN_GROUP asks for new tanks, three green ones. */
  lemma SpawnStep(m: PollState, e: Event, player: object?)
    ensures var r := ApplyEvent(m, e, player);
      && m.log <= r.log
      && NewTankCount(r.log) == NewTankCount(m.log) + (if IsStateEvent(e, SPAWN_GROUP) then 3 else 0)
      && forall k :: |m.log| <= k < |r.log| && r.log[k].GameViewAdd? && r.log[k].spawned.NewTank? ==>
           r.log[k].spawned.color == Tanks.TankColor.GREEN
  {
    var r := ApplyEvent(m, e, player);
    if IsStateEvent(e, SPAWN_GROUP) {
      NewTankCountAppend(m.log, SPAWN_GROUP_CALLS);
      NewTankCountAll(SPAWN_GROUP_CALLS);
      assert forall k :: |m.log| <= k < |r.log| ==> r.log[k] == SPAWN_GROUP_CALLS[k - |m.log|];
    } else {
      NoNewTanks(m.log, r.log);
    }
  }

  /** Two FLIP_MENU events in one poll leave the menu as it was. */
  lemma FlipTwiceCancels(s: PollState, player: object?)
    ensures var flip := SceneStateEvent(FLIP_MENU, null, null, null, null);
      ApplyEvents(s, [flip, flip], player).showMenu == s.showMenu
  {
    var flip := SceneStateEvent(FLIP_MENU, null, null, null, null);
    assert [flip, flip][..1] == [flip];
    assert [flip][..0] == [];
    assert ApplyEvents(s, [flip], player) == ApplyEvent(s, flip, player);
    assert ApplyEvents(s, [flip, flip], player) == ApplyEvent(ApplyEvent(s, flip, player), flip, player);
  }

  /** The menu's state after a key press handled while the menu is shown. */
  function MenuAfterKey(s: MenuState, key: InputEvent): (r: MenuState)
    requires CursorValid(s)
    ensures CursorValid(r) && |r.items| == |s.items|
    ensures (key.PRESS_S? || key.PRESS_DOWN?) ==> r.active == NextIndex(s.active, |s.items|)
    ensures (key.PRESS_W? || key.PRESS_UP?) ==> r.active == PrevIndex(s.active, |s.items|)
    ensures !(key.PRESS_S? || key.PRESS_DOWN? || key.PRESS_W? || key.PRESS_UP?) ==> r.active == s.active
    ensures (key.PRESS_SPACE? || key.PRESS_ENTER?) ==>
      r.items == s.items[s.active := s.items[s.active].(actions := s.items[s.active].actions + 1)]
  {
    match key
    case PRESS_S => MoveTo(s, NextIndex(s.active, |s.items|))
    case PRESS_DOWN => MoveTo(s, NextIndex(s.active, |s.items|))
    case PRESS_W => MoveTo(s, PrevIndex(s.active, |s.items|))
    case PRESS_UP => MoveTo(s, PrevIndex(s.active, |s.items|))
    case PRESS_SPACE => s.(items := s.items[s.active := s.items[s.active].Action()])
    case PRESS_ENTER => s.(items := s.items[s.active := s.items[s.active].Action()])
    case _ => s
  }

  /** Any key press keeps the active menu item the only one with an odd status count. */
  lemma MenuKeyKeepsOnlyActiveOdd(s: MenuState, key: InputEvent)
    requires OnlyActiveOdd(s)
    ensures OnlyActiveOdd(MenuAfterKey(s, key))
  {
    match key
    case PRESS_S => MoveKeepsOnlyActiveOdd(s, NextIndex(s.active, |s.items|));
    case PRESS_DOWN => MoveKeepsOnlyActiveOdd(s, NextIndex(s.active, |s.items|));
    case PRESS_W => MoveKeepsOnlyActiveOdd(s, PrevIndex(s.active, |s.items|));
    case PRESS_UP => MoveKeepsOnlyActiveOdd(s, PrevIndex(s.active, |s.items|));
    case _ =>
  }

  /** The four items of the pause menu, in order. */
  function PauseMenuItems(): (items: seq<MenuItem>)
    ensures |items| == 4
    ensures forall k :: 0 <= k < 4 ==> items[k].statusChanges == 0 && items[k].placement.None?
  {
    [NewMenuItem(FlipMenuCommand, "Continue", "Continue Game"),
     NewMenuItem(StartGameCommand, "Restart", "Restart Level"),
     NewMenuItem(BackToMenuCommand, "Back", "Back To Main Menu"),
     NewMenuItem(QuitGameCommand, "Quit", "Quit Game")]
  }

  /**
   * The pause menu items once Enter is done: the first one selected (its status flipped once),
   * the others untouched, each placed at (windowX / 3, 100) with its own index.
   */
  function PlacedPauseMenu(windowX: nat): (items: seq<MenuItem>)
    ensures |items| == 4
    ensures OnlyActiveOdd(MenuState(items, 0))
  {
    var base := PauseMenuItems();
    seq(4, k requires 0 <= k < 4 =>
      base[k].(statusChanges := if k == 0 then 1 else 0, placement := Some(Placement(windowX / 3, 100, k))))
  }

  /** Each placed item is the pause menu item, with only its status count and placement set. */
  lemma PlacedPauseMenuItems(windowX: nat, k: int)
    requires 0 <= k < 4
    ensures PlacedPauseMenu(windowX)[k].command == PauseMenuItems()[k].command
    ensures PlacedPauseMenu(windowX)[k].text == PauseMenuItems()[k].text
    ensures PlacedPauseMenu(windowX)[k].description == PauseMenuItems()[k].description
    ensures PlacedPauseMenu(windowX)[k].actions == 0 && PlacedPauseMenu(windowX)[k].updates == 0
    ensures PlacedPauseMenu(windowX)[k].placement == Some(Placement(windowX / 3, 100, k))
  {
  }

  /** The pause menu Enter builds: the four items, the first one selected, placed at (windowX / 3, 100). */
  method CreatePauseMenu(windowX: nat) returns (menu: MenuPanel)
    ensures fresh(menu) && menu.Valid()
    ensures menu.activeItemIndex == 0 && menu.items == PlacedPauseMenu(windowX)
  {
    var items := PauseMenuItems();
    menu := new MenuPanel(items);
    ghost var placed := menu.items;
    menu.SetPosition(windowX * 1 / 3, 100);
    forall k | 0 <= k < 4
      ensures menu.items[k] == PlacedPauseMenu(windowX)[k]
    {
      assert menu.items[k] == placed[k].SetPosition(windowX * 1 / 3, 100, k);
    }
  }

  class PlayScene {
    const mapType: MapType            // playParameters.mapType
    const player: object?             // world.player
    var events: EventList?
    var menu: MenuPanel?
    var mapPanel: Option<MapPanel>
    var showMenu: bool
    var showHitboxes: bool
    var playerDamaged: int
    var enemyDamaged: int
    var spawnTimer: Timer
    var panelLog: seq<PanelCall>

    /** Entered: the event list and the menu exist. */
    ghost predicate Valid()
      reads this, menu
    {
      events != null && menu != null && menu.Valid()
    }

    function Poll(): PollState
      reads this
    {
      PollState(showMenu, playerDamaged, enemyDamaged, panelLog)
    }

    constructor (mapType: MapType, player: object?)
      ensures this.mapType == mapType && this.player == player
      ensures events == null && menu == null && mapPanel.None?
      ensures !showMenu && !showHitboxes && playerDamaged == 0 && enemyDamaged == 0 && panelLog == []
    {
      this.mapType := mapType;
      this.player := player;
      events := null;
      menu := null;
      mapPanel := None;
      showMenu, showHitboxes := false, false;
      playerDamaged, enemyDamaged := 0, 0;
      spawnTimer := NewTimer(ASCENDING);
      panelLog := [];
    }

    /**
     * Creates the map panel for the map type (none for UNDEFINED, which keeps the old one),
     * the pause menu placed at (windowX / 3, 100), a fresh event list registered on the bus,
     * and the spawn timer; both flags start off.
     */
    method Enter(bus: Bus, windowX: nat)
      modifies this, bus
      ensures Valid() && fresh(events) && fresh(menu)
      ensures mapPanel == (if mapType.UNDEFINED? then old(mapPanel) else MapFor(mapType))
      ensures !showMenu && !showHitboxes
      ensures events.items == [] && bus.subscribers == old(bus.subscribers) + {events}
      ensures spawnTimer.timerType == ASCENDING && !spawnTimer.paused
      ensures spawnTimer.time == 5000.0 && spawnTimer.executeTime == 5000.0 && spawnTimer.defaultTime == 0.0
      ensures menu.activeItemIndex == 0 && menu.items == PlacedPauseMenu(windowX)
      ensures playerDamaged == old(playerDamaged) && enemyDamaged == old(enemyDamaged) && panelLog == old(panelLog)
    {
      CreateMap();
      menu := CreatePauseMenu(windowX);
      showMenu := false;
      showHitboxes := false;
      events := new EventList();
      bus.Register(events);
      spawnTimer := NewTimer(ASCENDING);
      spawnTimer := spawnTimer.(time := 5.0 * 1000.0);
      spawnTimer := spawnTimer.(executeTime := 5.0 * 1000.0);
      spawnTimer := spawnTimer.(defaultTime := 0.0);
    }

    /** The map switch of Enter: UNDEFINED creates no map and leaves the field as it was. */
    method CreateMap()
      modifies this`mapPanel
      ensures mapPanel == (if mapType.UNDEFINED? then old(mapPanel) else MapFor(mapType))
    {
      match mapType {
        case UNDEFINED =>
        case TILED => mapPanel := Some(TiledMapPanel);
        case UNLIMITED => mapPanel := Some(UnlimitedMapPanel);
      }
    }

    /** Clears every sprite. */
    method Exit()
      modifies this`panelLog
      ensures panelLog == old(panelLog) + [RemoveAllSprites]
    {
      panelLog := panelLog + [RemoveAllSprites];
    }

    /**
     * ESCAPE always toggles the menu. While the menu is shown (after that toggle), the
     * movement and action keys drive the menu and O toggles the hitbox overlay; while it is
     * hidden, the input goes to the game view and never to the menu.
     */
    method HandleInput(input: InputStruct)
      requires Valid()
      modifies this, menu
      ensures Valid() && menu == old(menu) && events == old(events)
      ensures showMenu == (old(showMenu) != input.inputEvent.PRESS_ESCAPE?)
      ensures showHitboxes == (old(showHitboxes) != (showMenu && input.inputEvent.PRESS_O?))
      ensures showMenu ==> panelLog == old(panelLog) && menu.State() == MenuAfterKey(old(menu.State()), input.inputEvent)
      ensures !showMenu ==> panelLog == old(panelLog) + [GameViewInput(input)] && menu.State() == old(menu.State())
      ensures playerDamaged == old(playerDamaged) && enemyDamaged == old(enemyDamaged)
      ensures mapPanel == old(mapPanel) && spawnTimer == old(spawnTimer)
    {
      if input.inputEvent.PRESS_ESCAPE? {
        showMenu := !showMenu;
      }
      if showMenu {
        match input.inputEvent {
          case PRESS_S => menu.GoDown();
          case PRESS_DOWN => menu.GoDown();
          case PRESS_W => menu.GoUp();
          case PRESS_UP => menu.GoUp();
          case PRESS_SPACE => menu.Act();
          case PRESS_ENTER => menu.Act();
          case PRESS_O => showHitboxes := !showHitboxes;
          case _ =>
        }
      } else {
        panelLog := panelLog + [GameViewInput(input)];
      }
    }

    /** The scene's observer entry point: queue the event for the next poll. */
    method OnEvent(newEvent: Event)
      requires Valid()
      modifies events
      ensures events.items == old(events.items) + [newEvent]
    {
      events.Add(newEvent);
    }

    /**
     * Draws the map and the game view on the world layers (the hitbox layer only with the
     * overlay on), the menu on the MENU layer while it is shown, and the UI on the
     * USER_INTERFACE layer while the menu is hidden.
     */
    method Render(layer: RenderLayer)
      requires Valid()
      requires IsWorldLayer(layer) && (layer.HITBOXES? ==> showHitboxes) ==> mapPanel.Some?
      modifies this`panelLog
      ensures panelLog == old(panelLog) + RenderCalls(layer, showMenu, showHitboxes)
    {
      if layer.BACKGROOUND? || layer.GROUND? || layer.HITBOXES? || layer.MAINBOARD? || layer.OVERHEAD? {
        if !(layer.HITBOXES? && !showHitboxes) {
          panelLog := panelLog + [MapRender(layer)];
          panelLog := panelLog + [GameViewRender(layer)];
        }
      } else if showMenu && layer.MENU? {
        panelLog := panelLog + [MenuRender(layer)];
      } else if !showMenu && layer.USER_INTERFACE? {
        panelLog := panelLog + [UiRender(layer)];
      }
    }

    /** Handles one event of a poll. */
    method Dispatch(e: Event)
      modifies this`showMenu, this`playerDamaged, this`enemyDamaged, this`panelLog
      ensures Poll() == ApplyEvent(old(Poll()), e, player)
    {
      if e.SceneStateEvent? {
        match e.eventType {
          case FLIP_MENU =>
            showMenu := !showMenu;
          case SPAWN_NEW_ENTITY =>
            panelLog := panelLog + [GameViewAdd(ExistingObject(e.sender))];
          case DESPAWN_ENTITY =>
            panelLog := panelLog + [GameViewRemove(e.sender)];
          case TANK_HIT =>
            if e.target == player {
              playerDamaged := playerDamaged + 1;
            } else if e.sniper == player {
              enemyDamaged := enemyDamaged + 1;
            }
          case SPAWN_GROUP =>
            var i := 0;
            while i < 3
              invariant 0 <= i <= 3
              invariant panelLog == old(panelLog) + SPAWN_GROUP_CALLS[..i]
              invariant showMenu == old(showMenu)
              invariant playerDamaged == old(playerDamaged) && enemyDamaged == old(enemyDamaged)
            {
              panelLog := panelLog + [GameViewAdd(NewTank(Tanks.TankColor.GREEN))];
              i := i + 1;
            }
            assert SPAWN_GROUP_CALLS[..3] == SPAWN_GROUP_CALLS;
          case TIME_UP =>
            panelLog := panelLog + [UiTimeIsUp(enemyDamaged, playerDamaged)];
          case CHANGE_SCENE =>
          case EXIT_GAME =>
        }
      }
    }

    /**
     * Takes the pending events, clears the list, then dispatches the taken events in
     * arrival order.
     */
    method PollEvents()
      requires Valid()
      modifies this, events
      ensures Valid() && menu == old(menu) && events == old(events)
      ensures events.items == []
      ensures Poll() == ApplyEvents(old(Poll()), old(events.items), player)
      ensures showHitboxes == old(showHitboxes) && mapPanel == old(mapPanel) && spawnTimer == old(spawnTimer)
    {
      var snapshot := events.items;
      events.Clear();
      var i := 0;
      while i < |snapshot|
        invariant 0 <= i <= |snapshot|
        invariant Valid() && menu == old(menu) && events == old(events) && events.items == []
        invariant Poll() == ApplyEvents(old(Poll()), snapshot[..i], player)
        invariant showHitboxes == old(showHitboxes) && mapPanel == old(mapPanel) && spawnTimer == old(spawnTimer)
      {
        Dispatch(snapshot[i]);
        assert snapshot[..i + 1][..i] == snapshot[..i];
        i := i + 1;
      }
      assert snapshot[..|snapshot|] == snapshot;
    }

    /**
     * Polls first. Then, with the menu shown, only the menu is updated (the game is paused:
     * no spawn-timer tick, no world update); otherwise the game view, camera, UI, map and
     * spawn timer are.
     */
    method Update()
      requires Valid()
      requires !ApplyEvents(Poll(), events.items, player).showMenu ==> mapPanel.Some?
      modifies this, events, menu
      ensures Valid() && menu == old(menu) && events == old(events) && events.items == []
      ensures showHitboxes == old(showHitboxes) && mapPanel == old(mapPanel)
      ensures var polled := ApplyEvents(old(Poll()), old(events.items), player);
        && showMenu == polled.showMenu
        && playerDamaged == polled.playerDamaged && enemyDamaged == polled.enemyDamaged
        && (showMenu ==>
              && panelLog == polled.log && spawnTimer == old(spawnTimer)
              && menu.activeItemIndex == old(menu.activeItemIndex) && |menu.items| == |old(menu.items)|
              && forall k :: 0 <= k < |menu.items| ==> menu.items[k] == old(menu.items)[k].Update())
        && (!showMenu ==>
              && panelLog == polled.log + [GameViewUpdate, CameraUpdate, UiUpdate, MapUpdate]
              && spawnTimer == old(spawnTimer).Update() && menu.State() == old(menu.State()))
    {
      PollEvents();
      if showMenu {
        menu.Update();
      } else {
        panelLog := panelLog + [GameViewUpdate];
        panelLog := panelLog + [CameraUpdate];
        panelLog := panelLog + [UiUpdate];
        panelLog := panelLog + [MapUpdate];
        spawnTimer := spawnTimer.Update();
      }
    }
  }
}
