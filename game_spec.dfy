/** What one call of the client game loop does, stated on values: the per-event
    reaction, the drain of the event list, the tick gating rule, the render pass and
    the shutdown request, and a sequence of calls. The imperative loop in module Game
    is proved to agree with Update; the lemmas here state what that behaviour promises. */
module GameSpec {
  import opened Outcomes
  import Simulation

  type Usec64 = x: nat | x < 0x1_0000_0000_0000_0000
  type U32 = x: nat | x < 0x1_0000_0000

  const TimeModulus: nat := 0x1_0000_0000_0000_0000
  /** SimulationTickDuration*1000: one tick in microseconds. */
  const TickMicros: nat := Simulation.TickDuration * 1000

  const Red: U32 := 0x00FF_0000
  const Blue: U32 := 0x0000_00FF
  const PlayerColors: seq<U32> := [Red, Blue]

  datatype Coor = Coor(x: Simulation.U16, y: Simulation.U16)

  datatype NetMessage =
    | StartMessage(playerCount: nat, playerIndex: nat)
    | OrderListMessage
    | UnknownMessage(tag: nat)

  datatype NetEvent =
    | ConnectionEstablished
    | ConnectionLost
    | ConnectionFailed
    | MessageEvent(message: NetMessage)
    | UnknownEvent(tag: nat)

  datatype OutMessage = ReplyMessage
  datatype NetCommand = SendCommand(message: OutMessage) | ShutdownCommand
  datatype RenderCommand = DrawSquare(x: Simulation.U16, y: Simulation.U16, color: U32)

  /** The game_state record; orderRingUnread is the order ring's unread count. */
  datatype GameSnapshot = GameSnapshot(
    playerId: Simulation.PlayerId,
    nextTickTime: Usec64,
    sim: Simulation.State,
    positions: seq<Coor>,
    orderListCounts: seq<nat>,
    orderRingUnread: nat)

  /** The game state together with what one call writes outside it. */
  datatype World = World(
    game: GameSnapshot,
    netCmds: seq<NetCommand>,
    renderCmds: seq<RenderCommand>,
    running: bool)

  /** The inputs of one UpdateGame call. */
  datatype Call = Call(time: Usec64, terminationRequested: bool, events: seq<NetEvent>)

  /** What the code the loop calls but this model does not see does, supplied by the
      caller: tick is TickSimulation with the loop's (always empty) order list, spawn
      gives the units SimulationCreatePlayer adds for a new player id, and strayColor
      the value read from PlayerColors at an owner past its two entries. */
  datatype Collaborators = Collaborators(
    tick: Simulation.State -> Simulation.State,
    spawn: nat -> seq<Simulation.Unit>,
    strayColor: nat -> U32)

  /** State after InitGame over a zero-filled memory block. */
  function InitialSnapshot(): GameSnapshot
  {
    GameSnapshot(Simulation.UndefinedPlayerId, 0, Simulation.Init(), [], [], 0)
  }

  /** 64-bit unsigned addition of the microsecond clock. */
  function AddU64(a: Usec64, b: nat): (r: Usec64)
    requires b < TimeModulus
    ensures a + b < TimeModulus ==> r == a + b
    ensures a + b >= TimeModulus ==> r == a + b - TimeModulus
  {
    (a + b) % TimeModulus
  }

  // ---------------------------------------------------------------- render

  /** Every unit has an interpolated position. */
  predicate Renderable(g: GameSnapshot)
  {
    |g.sim.units| <= |g.positions|
  }

  /** What UpdateGame needs of the tick it is given: it adds no unit, since the
      interpolation positions are seeded only by a start message. */
  ghost predicate TickAddsNoUnits(c: Collaborators)
  {
    forall s: Simulation.State :: |c.tick(s).units| <= |s.units|
  }

  /** PlayerColors[owner]: red for player 0, blue for player 1, and past the table's
      end whatever the caller says lies there. */
  function UnitColor(owner: nat, strayColor: nat -> U32): U32
  {
    if owner < |PlayerColors| then PlayerColors[owner] else strayColor(owner)
  }

  function DrawUnit(u: Simulation.Unit, p: Coor, strayColor: nat -> U32): RenderCommand
  {
    DrawSquare(p.x, p.y, UnitColor(u.playerId, strayColor))
  }

  /** The draw commands for the first k units, in unit order. */
  function RenderPrefix(units: seq<Simulation.Unit>, positions: seq<Coor>, strayColor: nat -> U32, k: nat)
    : seq<RenderCommand>
    requires k <= |units| <= |positions|
  {
    if k == 0 then []
    else RenderPrefix(units, positions, strayColor, k - 1) + [DrawUnit(units[k - 1], positions[k - 1], strayColor)]
  }

  function RenderCommands(units: seq<Simulation.Unit>, positions: seq<Coor>, strayColor: nat -> U32)
    : seq<RenderCommand>
    requires |units| <= |positions|
  {
    RenderPrefix(units, positions, strayColor, |units|)
  }

  // ---------------------------------------------------------------- events

  /** InitInterpolation, as this model assumes it: one position per unit, the unit's own. */
  function InitInterpolation(s: Simulation.State): (positions: seq<Coor>)
    ensures |positions| == |s.units|
    ensures forall i :: 0 <= i < |s.units| ==> positions[i] == Coor(s.units[i].x, s.units[i].y)
  {
    seq(|s.units|, i requires 0 <= i < |s.units| => Coor(s.units[i].x, s.units[i].y))
  }

  /** The player-creation loop of a start message declaring n players, from iteration
      i on: each iteration creates one player, and the id created in iteration 0
      becomes the local player id. On success exactly n - i players were created and
      the units present before come first; the only fault is the player limit. */
  function CreatePlayers(s: Simulation.State, i: nat, n: nat, playerId: Simulation.PlayerId,
                         spawn: nat -> seq<Simulation.Unit>)
    : (r: Outcome<(Simulation.State, Simulation.PlayerId)>)
    requires i <= n
    ensures r.Fatal? ==> r.fault == PlayerLimit
    ensures r.Ok? ==> r.value.0.playerCount == s.playerCount + (n - i) && s.units <= r.value.0.units
    decreases n - i
  {
    if i == n then Ok((s, playerId))
    else match Simulation.CreatePlayer(s, spawn)
      case Fatal(f) => Fatal(f)
      case Ok((s', id)) => CreatePlayers(s', i + 1, n, if i == 0 then id else playerId, spawn)
  }

  /** A start message declaring n players. */
  function StartGame(g: GameSnapshot, n: nat, time: Usec64, spawn: nat -> seq<Simulation.Unit>)
    : Outcome<GameSnapshot>
  {
    match CreatePlayers(Simulation.Init(), 0, n, g.playerId, spawn)
    case Fatal(f) => Fatal(f)
    case Ok((sim, playerId)) =>
      if playerId == Simulation.UndefinedPlayerId then Fatal(UndefinedPlayer)
      else Ok(g.(playerId := playerId, sim := sim, positions := InitInterpolation(sim),
                 nextTickTime := AddU64(time, TickMicros)))
  }

  /** ProcessMessageEvent: the new game state and the commands it writes. */
  function ProcessMessage(g: GameSnapshot, m: NetMessage, time: Usec64, spawn: nat -> seq<Simulation.Unit>)
    : Outcome<(GameSnapshot, seq<NetCommand>)>
  {
    match m
    case StartMessage(n, _) =>
      (match StartGame(g, n, time, spawn)
       case Fatal(f) => Fatal(f)
       case Ok(g') => Ok((g', [SendCommand(ReplyMessage)])))
    case OrderListMessage => Ok((g, []))
    case UnknownMessage(_) => Fatal(InvalidCodePath)
  }

  /** The reaction to one event of the network event list. */
  function Dispatch(w: World, e: NetEvent, time: Usec64, spawn: nat -> seq<Simulation.Unit>): (r: Outcome<World>)
    ensures r.Ok? && Renderable(w.game) ==> Renderable(r.value.game)
  {
    match e
    case ConnectionEstablished => Ok(w)
    case ConnectionLost => Ok(w.(running := false))
    case ConnectionFailed => Ok(w.(running := false))
    case MessageEvent(m) =>
      (match ProcessMessage(w.game, m, time, spawn)
       case Fatal(f) => Fatal(f)
       case Ok((g, cmds)) => Ok(w.(game := g, netCmds := w.netCmds + cmds)))
    case UnknownEvent(_) => Fatal(InvalidCodePath)
  }

  /** The drain loop: every event, in order, until the list is empty or one is fatal. */
  function Drain(w: World, events: seq<NetEvent>, time: Usec64, spawn: nat -> seq<Simulation.Unit>)
    : (r: Outcome<World>)
    ensures r.Ok? && Renderable(w.game) ==> Renderable(r.value.game)
    decreases |events|
  {
    if events == [] then Ok(w)
    else match Dispatch(w, events[0], time, spawn)
      case Fatal(f) => Fatal(f)
      case Ok(w') => Drain(w', events[1..], time, spawn)
  }

  /** One turn of the drain loop. */
  lemma DrainStep(w: World, events: seq<NetEvent>, time: Usec64, spawn: nat -> seq<Simulation.Unit>)
    requires events != []
    ensures var d := Dispatch(w, events[0], time, spawn);
      && (d.Fatal? ==> Drain(w, events, time, spawn) == Fatal(d.fault))
      && (d.Ok? ==> Drain(w, events, time, spawn) == Drain(d.value, events[1..], time, spawn))
  {
  }

  // ---------------------------------------------------------------- tick and update

  /** The tick gating rule: the deadline has passed and the order ring holds something. */
  predicate TickDue(g: GameSnapshot, time: Usec64)
  {
    time >= g.nextTickTime && g.orderRingUnread != 0
  }

  function Tick(g: GameSnapshot, time: Usec64, c: Collaborators): (r: GameSnapshot)
    ensures Renderable(g) && TickAddsNoUnits(c) ==> Renderable(r)
  {
    if TickDue(g, time) then
      g.(sim := c.tick(g.sim),
         orderListCounts := g.orderListCounts + [g.orderRingUnread - 1],
         nextTickTime := AddU64(g.nextTickTime, TickMicros))
    else g
  }

  /** One UpdateGame call. */
  function Update(w: World, call: Call, c: Collaborators): (r: Outcome<World>)
    requires Renderable(w.game) && TickAddsNoUnits(c)
    ensures r.Ok? ==> Renderable(r.value.game)
  {
    match Drain(w, call.events, call.time, c.spawn)
    case Fatal(f) => Fatal(f)
    case Ok(w') =>
      var g := Tick(w'.game, call.time, c);
      var rendered := w'.renderCmds + RenderCommands(g.sim.units, g.positions, c.strayColor);
      if call.terminationRequested then Ok(World(g, w'.netCmds + [ShutdownCommand], rendered, false))
      else Ok(World(g, w'.netCmds, rendered, w'.running))
  }

  /** A sequence of UpdateGame calls, stopping at the first fatal one. */
  function Run(w: World, calls: seq<Call>, c: Collaborators): Outcome<World>
    requires Renderable(w.game) && TickAddsNoUnits(c)
    decreases |calls|
  {
    if calls == [] then Ok(w)
    else match Update(w, calls[0], c)
      case Fatal(f) => Fatal(f)
      case Ok(w') => Run(w', calls[1..], c)
  }

  // ---------------------------------------------------------------- event classes

  predicate StopsRunning(e: NetEvent)
  {
    e.ConnectionLost? || e.ConnectionFailed?
  }

  predicate IsStart(e: NetEvent)
  {
    e.MessageEvent? && e.message.StartMessage?
  }

  predicate IsUnknown(e: NetEvent)
  {
    e.UnknownEvent? || (e.MessageEvent? && e.message.UnknownMessage?)
  }

  function StartCount(events: seq<NetEvent>): nat
  {
    if events == [] then 0 else (if IsStart(events[0]) then 1 else 0) + StartCount(events[1..])
  }

  function Replies(k: nat): seq<NetCommand>
  {
    seq(k, _ => SendCommand(ReplyMessage))
  }

  /** The units spawn gives players first, first + 1, ..., first + k - 1, in that order. */
  function SpawnedUnits(spawn: nat -> seq<Simulation.Unit>, first: nat, k: nat): seq<Simulation.Unit>
    decreases k
  {
    if k == 0 then [] else spawn(first) + SpawnedUnits(spawn, first + 1, k - 1)
  }
}
