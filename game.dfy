/** The client game loop as the program runs it: a game state updated in place, the
    network event list drained through its read cursor, commands appended to the
    network and render command lists, and a running flag passed in and out. Each
    method is proved to do what GameSpec says. */
module Game {
  import opened Outcomes
  import Simulation
  import opened GameSpec
  import ChunkList

  class GameState {
    var playerId: Simulation.PlayerId
    var sim: Simulation.State
    /** The interpolation's per-unit positions. */
    var positions: seq<Coor>
    /** The samples pushed to the order-count window, oldest first. */
    var orderListCounts: seq<nat>
    var nextTickTime: Usec64
    /** The order ring's unread count. */
    var orderRingUnread: nat

    /** Capacity of the order-count window, in samples. */
    const orderListCountCapacity: nat
    const orderRingChunkCount: nat
    /** Bytes of storage behind the order ring. */
    const orderRingStorageSize: nat

    function Snapshot(): GameSnapshot
      reads this
    {
      GameSnapshot(playerId, nextTickTime, sim, positions, orderListCounts, orderRingUnread)
    }

    predicate Valid()
      reads this
    {
      Renderable(Snapshot())
    }

    /** InitGame over a zero-filled memory block: a two-second window of one sample per
        tick, a ring of 100 chunks over 100 KiB, and no local player yet. */
    constructor InitGame()
      ensures Valid() && Snapshot() == InitialSnapshot()
      ensures playerId == Simulation.UndefinedPlayerId
      ensures orderListCountCapacity == 20
      ensures orderRingChunkCount == 100 && orderRingStorageSize == 100 * 1024
    {
      var watchDuration := 2;
      var samplesPerSecond := 1000 / Simulation.TickDuration;
      orderListCountCapacity := samplesPerSecond * watchDuration;
      var count := 100;
      orderRingChunkCount := count;
      orderRingStorageSize := count * 1024;
      orderRingUnread := 0;
      orderListCounts := [];
      sim := Simulation.Init();
      positions := [];
      nextTickTime := 0;
      playerId := Simulation.UndefinedPlayerId;
    }

    /** ProcessMessageEvent: a start message restarts the match and queues a reply, an
        order list is ignored, any other message is fatal. */
    method ProcessMessageEvent(message: NetMessage, netCmds: ChunkList.List<NetCommand>, time: Usec64,
                               spawn: nat -> seq<Simulation.Unit>)
      returns (status: Outcome<()>)
      requires Valid() && netCmds.Valid()
      modifies this, netCmds
      ensures var r := ProcessMessage(old(Snapshot()), message, time, spawn);
        && status == r.Verdict()
        && (r.Ok? ==>
              && Valid() && Snapshot() == r.value.0
              && netCmds.Valid() && netCmds.chunks == old(netCmds.chunks) + r.value.1
              && netCmds.readPos == old(netCmds.readPos))
    {
      match message
      case StartMessage(playerCount, _) =>
        ghost var players := CreatePlayers(Simulation.Init(), 0, playerCount, playerId, spawn);
        sim := Simulation.Init();
        for i := 0 to playerCount
          invariant CreatePlayers(sim, i, playerCount, playerId, spawn) == players
          invariant orderListCounts == old(orderListCounts) && orderRingUnread == old(orderRingUnread)
          invariant netCmds.Valid() && netCmds.chunks == old(netCmds.chunks) && netCmds.readPos == old(netCmds.readPos)
        {
          var created := Simulation.CreatePlayer(sim, spawn);
          if created.Fatal? {
            return Fatal(created.fault);
          }
          sim := created.value.0;
          if i == 0 {
            playerId := created.value.1;
          }
        }
        if playerId == Simulation.UndefinedPlayerId {
          return Fatal(UndefinedPlayer);
        }
        positions := InitInterpolation(sim);
        nextTickTime := AddU64(time, TickMicros);
        netCmds.Write(SendCommand(ReplyMessage));
        status := Ok(());
      case OrderListMessage =>
        status := Ok(());
      case UnknownMessage(_) =>
        status := Fatal(InvalidCodePath);
    }

    /** UpdateGame: drain the network events, tick when due and orders are pending, draw
        every unit, and shut down when asked. */
    method UpdateGame(time: Usec64, terminationRequested: bool,
                      netEvents: ChunkList.List<NetEvent>, netCmds: ChunkList.List<NetCommand>,
                      renderCmds: ChunkList.List<RenderCommand>, wasRunning: bool,
                      c: Collaborators)
      returns (status: Outcome<()>, running: bool)
      requires Valid() && netEvents.Valid() && netCmds.Valid() && renderCmds.Valid()
      requires TickAddsNoUnits(c)
      modifies this, netEvents, netCmds, renderCmds
      ensures var r := Update(World(old(Snapshot()), old(netCmds.chunks), old(renderCmds.chunks), wasRunning),
                              Call(time, terminationRequested, old(netEvents.chunks[netEvents.readPos..])), c);
        && status == r.Verdict()
        && (r.Ok? ==>
              && Valid() && Snapshot() == r.value.game
              && netCmds.Valid() && netCmds.chunks == r.value.netCmds
              && netCmds.readPos == old(netCmds.readPos)
              && renderCmds.Valid() && renderCmds.chunks == r.value.renderCmds
              && renderCmds.readPos == old(renderCmds.readPos)
              && running == r.value.running
              && netEvents.chunks == old(netEvents.chunks)
              && netEvents.readPos == |netEvents.chunks|)
    {
      ghost var w0 := World(Snapshot(), netCmds.chunks, renderCmds.chunks, wasRunning);
      ghost var call := Call(time, terminationRequested, netEvents.chunks[netEvents.readPos..]);
      ghost var drained := Drain(w0, call.events, time, c.spawn);
      running := wasRunning;
      while true
        invariant Valid() && netEvents.Valid() && netCmds.Valid() && renderCmds.Valid()
        invariant netEvents.chunks == old(netEvents.chunks)
        invariant renderCmds.chunks == old(renderCmds.chunks)
        invariant netCmds.readPos == old(netCmds.readPos) && renderCmds.readPos == old(renderCmds.readPos)
        invariant drained ==
          Drain(World(Snapshot(), netCmds.chunks, renderCmds.chunks, running), netEvents.chunks[netEvents.readPos..], time, c.spawn)
        decreases |netEvents.chunks| - netEvents.readPos
      {
        ghost var w := World(Snapshot(), netCmds.chunks, renderCmds.chunks, running);
        ghost var rest := netEvents.chunks[netEvents.readPos..];
        var event := netEvents.Read();
        if event.None? {
          break;
        }
        assert rest[0] == event.value && rest[1..] == netEvents.chunks[netEvents.readPos..];
        DrainStep(w, rest, time, c.spawn);
        match event.value
        case ConnectionEstablished =>
        case ConnectionLost =>
          running := false;
        case ConnectionFailed =>
          running := false;
        case MessageEvent(message) =>
          var processed := ProcessMessageEvent(message, netCmds, time, c.spawn);
          if processed.Fatal? {
            return processed, running;
          }
        case UnknownEvent(_) =>
          return Fatal(InvalidCodePath), running;
      }
      ghost var w1 := World(Snapshot(), netCmds.chunks, renderCmds.chunks, running);
      assert Drain(w0, call.events, time, c.spawn) == Ok(w1);

      if time >= nextTickTime {
        var orderListCount := orderRingUnread;
        if orderListCount != 0 {
          sim := c.tick(sim);
          orderListCounts := orderListCounts + [orderListCount - 1];
          nextTickTime := AddU64(nextTickTime, TickMicros);
        }
      }
      assert Snapshot() == Tick(w1.game, time, c);

      Render(sim, positions, c.strayColor, renderCmds);

      if terminationRequested {
        netCmds.Write(ShutdownCommand);
        running := false;
      }
      status := Ok(());
    }
  }

  /** _AddRenderCommand: reserve one command, tag first, at the end of the list. */
  method AddRenderCommand(commands: ChunkList.List<RenderCommand>, command: RenderCommand)
    requires commands.Valid()
    modifies commands
    ensures commands.Valid() && commands.chunks == old(commands.chunks) + [command]
    ensures commands.readPos == old(commands.readPos)
  {
    commands.Write(command);
  }

  /** Render: one draw-square command per unit, in unit order, in its owner's colour.
      strayColor stands for what the colour table holds past its two entries. */
  method Render(sim: Simulation.State, positions: seq<Coor>, strayColor: nat -> U32,
                commands: ChunkList.List<RenderCommand>)
    requires |sim.units| <= |positions| && commands.Valid()
    modifies commands
    ensures commands.Valid()
    ensures commands.chunks == old(commands.chunks) + RenderCommands(sim.units, positions, strayColor)
    ensures commands.readPos == old(commands.readPos)
  {
    for i := 0 to |sim.units|
      invariant commands.Valid() && commands.readPos == old(commands.readPos)
      invariant commands.chunks == old(commands.chunks) + RenderPrefix(sim.units, positions, strayColor, i)
    {
      var owner := sim.units[i].playerId;
      var color := if owner < |PlayerColors| then PlayerColors[owner] else strayColor(owner);
      AddRenderCommand(commands, DrawSquare(positions[i].x, positions[i].y, color));
    }
  }
}
