/** What the client game loop promises, proved about its specification in GameSpec. */
module GameProperties {
  import opened Outcomes
  import Simulation
  import opened GameSpec

  // ---------------------------------------------------------------- start message

  /** The player-creation loop in closed form: it fails exactly when the declared
      players do not fit; otherwise it adds them all, appends the units spawned for
      each in id order, and keeps the first id handed out. */
  lemma {:induction false} CreatePlayersClosedForm(s: Simulation.State, i: nat, n: nat, playerId: Simulation.PlayerId,
                                                   spawn: nat -> seq<Simulation.Unit>)
    requires i <= n
    ensures var r := CreatePlayers(s, i, n, playerId, spawn);
      && (r.Fatal? <==> i < n && s.playerCount + (n - i) > Simulation.PlayerMax)
      && (r.Ok? ==>
            && r.value.0 == Simulation.State(s.playerCount + (n - i),
                                             s.units + SpawnedUnits(spawn, s.playerCount, n - i))
            && r.value.1 == (if i == 0 && i < n then s.playerCount else playerId))
    decreases n - i
  {
    if i == n {
      assert SpawnedUnits(spawn, s.playerCount, 0) == [];
    } else {
      match Simulation.CreatePlayer(s, spawn)
      case Fatal(f) =>
      case Ok((s', id)) =>
        assert CreatePlayers(s, i, n, playerId, spawn) == CreatePlayers(s', i + 1, n, if i == 0 then id else playerId, spawn);
        CreatePlayersClosedForm(s', i + 1, n, if i == 0 then id else playerId, spawn);
        assert s'.units + SpawnedUnits(spawn, s'.playerCount, n - (i + 1))
            == s.units + SpawnedUnits(spawn, s.playerCount, n - i);
    }
  }

  /** A start message declaring n players: fatal with the player limit exactly when n
      exceeds it, fatal with the player-id assertion exactly when n is 0 and no earlier
      start defined the local player, and successful otherwise. On success the
      simulation holds n players and the units spawned for players 0 .. n-1, player 0
      is the local player (the old one when n is 0), every unit is given its own
      position, the first tick is one tick duration after now, and the order ring and
      the sample window are untouched. */
  lemma StartGameResult(g: GameSnapshot, n: nat, time: Usec64, spawn: nat -> seq<Simulation.Unit>)
    ensures var r := StartGame(g, n, time, spawn);
      && (r == Fatal(PlayerLimit) <==> n > Simulation.PlayerMax)
      && (r == Fatal(UndefinedPlayer) <==> n == 0 && g.playerId == Simulation.UndefinedPlayerId)
      && (r.Ok? <==> n <= Simulation.PlayerMax && (n > 0 || g.playerId != Simulation.UndefinedPlayerId))
      && (r.Ok? ==>
            && r.value.sim == Simulation.State(n, SpawnedUnits(spawn, 0, n))
            && r.value.playerId == (if n > 0 then 0 else g.playerId)
            && r.value.playerId != Simulation.UndefinedPlayerId
            && r.value.positions == InitInterpolation(r.value.sim)
            && r.value.nextTickTime == AddU64(time, TickMicros)
            && r.value.orderRingUnread == g.orderRingUnread
            && r.value.orderListCounts == g.orderListCounts)
  {
    CreatePlayersClosedForm(Simulation.Init(), 0, n, g.playerId, spawn);
  }

  // ---------------------------------------------------------------- the drain loop

  /** Draining a list in two parts is draining the first part and then the second from
      where the first left off: every event is dispatched once, in arrival order. */
  lemma {:induction false} DrainAppend(w: World, a: seq<NetEvent>, b: seq<NetEvent>, time: Usec64,
                                       spawn: nat -> seq<Simulation.Unit>)
    ensures Drain(w, a + b, time, spawn) ==
      match Drain(w, a, time, spawn)
      case Fatal(f) => Fatal(f)
      case Ok(w') => Drain(w', b, time, spawn)
    decreases |a|
  {
    if a == [] {
      assert a + b == b;
    } else {
      assert (a + b)[0] == a[0] && (a + b)[1..] == a[1..] + b;
      match Dispatch(w, a[0], time, spawn)
      case Fatal(f) =>
      case Ok(w') => DrainAppend(w', a[1..], b, time, spawn);
    }
  }

  /** Every event is of a known type and every start message fits the player limit. */
  predicate KnownEvents(events: seq<NetEvent>)
  {
    forall i :: 0 <= i < |events| ==>
      !IsUnknown(events[i]) && (IsStart(events[i]) ==> events[i].message.playerCount <= Simulation.PlayerMax)
  }

  /** Some start message before position i declares at least one player. */
  predicate PlayerStartedBefore(events: seq<NetEvent>, i: nat)
    requires i <= |events|
  {
    exists j :: 0 <= j < i && IsStart(events[j]) && events[j].message.playerCount > 0
  }

  /** Every start message declaring no players finds a local player already defined:
      before the list (`defined`) or by an earlier start message of the list. */
  predicate PlayerKnownAtEmptyStarts(defined: bool, events: seq<NetEvent>)
  {
    forall i :: 0 <= i < |events| && IsStart(events[i]) && events[i].message.playerCount == 0 ==>
      defined || PlayerStartedBefore(events, i)
  }

  /** Dropping a first event that is not a start message changes no verdict. */
  lemma PlayerKnownSkip(defined: bool, events: seq<NetEvent>)
    requires events != [] && !IsStart(events[0])
    ensures PlayerKnownAtEmptyStarts(defined, events) <==> PlayerKnownAtEmptyStarts(defined, events[1..])
  {
  }

  /** A first start message that defines the local player covers every later 0-player start. */
  lemma PlayerKnownAfterStart(defined: bool, events: seq<NetEvent>)
    requires events != [] && IsStart(events[0])
    requires events[0].message.playerCount > 0 || defined
    ensures PlayerKnownAtEmptyStarts(defined, events)
  {
  }

  /** The drain succeeds exactly when every event is of a known type, every start
      message fits the player limit, and every start message declaring no players
      comes when a local player is already defined. */
  lemma {:induction false} DrainOkIff(w: World, events: seq<NetEvent>, time: Usec64,
                                      spawn: nat -> seq<Simulation.Unit>)
    ensures Drain(w, events, time, spawn).Ok? <==>
      KnownEvents(events) && PlayerKnownAtEmptyStarts(w.game.playerId != Simulation.UndefinedPlayerId, events)
    decreases |events|
  {
    if events != [] {
      var e, tail := events[0], events[1..];
      var defined := w.game.playerId != Simulation.UndefinedPlayerId;
      assert forall i :: 0 < i < |events| ==> events[i] == tail[i - 1];
      assert KnownEvents(events) <==>
        !IsUnknown(e) && (IsStart(e) ==> e.message.playerCount <= Simulation.PlayerMax) && KnownEvents(tail);
      if IsStart(e) {
        StartGameResult(w.game, e.message.playerCount, time, spawn);
      }
      match Dispatch(w, e, time, spawn)
      case Fatal(f) =>
        if IsStart(e) && e.message.playerCount <= Simulation.PlayerMax {
          assert !PlayerStartedBefore(events, 0);
        }
      case Ok(w') =>
        DrainOkIff(w', tail, time, spawn);
        if IsStart(e) {
          PlayerKnownAfterStart(defined, events);
        } else {
          assert w'.game == w.game;
          PlayerKnownSkip(defined, events);
        }
    }
  }

  /** After the drain the running flag is down exactly when it was down already or some
      event reported the connection lost or failed. */
  lemma {:induction false} DrainRunning(w: World, events: seq<NetEvent>, time: Usec64,
                                        spawn: nat -> seq<Simulation.Unit>)
    requires Drain(w, events, time, spawn).Ok?
    ensures Drain(w, events, time, spawn).value.running ==
      (w.running && forall i :: 0 <= i < |events| ==> !StopsRunning(events[i]))
    decreases |events|
  {
    if events != [] {
      var w' := Dispatch(w, events[0], time, spawn).value;
      DrainRunning(w', events[1..], time, spawn);
      assert forall i :: 0 < i < |events| ==> events[i] == events[1..][i - 1];
    }
  }

  /** The drain writes one reply command per start message and nothing else. */
  lemma {:induction false} DrainReplies(w: World, events: seq<NetEvent>, time: Usec64,
                                        spawn: nat -> seq<Simulation.Unit>)
    requires Drain(w, events, time, spawn).Ok?
    ensures Drain(w, events, time, spawn).value.netCmds == w.netCmds + Replies(StartCount(events))
    decreases |events|
  {
    if events == [] {
      assert Replies(0) == [];
    } else {
      var w' := Dispatch(w, events[0], time, spawn).value;
      DrainReplies(w', events[1..], time, spawn);
      var k := StartCount(events[1..]);
      if IsStart(events[0]) {
        assert w'.netCmds == w.netCmds + [SendCommand(ReplyMessage)];
        assert Replies(k + 1) == [SendCommand(ReplyMessage)] + Replies(k);
      } else {
        assert w'.netCmds == w.netCmds;
      }
    }
  }

  /** An event of unknown type, or a message of unknown type, anywhere in the list makes
      the call fatal. */
  lemma {:induction false} DrainUnknownIsFatal(w: World, events: seq<NetEvent>, time: Usec64,
                                               spawn: nat -> seq<Simulation.Unit>, k: nat)
    requires k < |events| && IsUnknown(events[k])
    ensures Drain(w, events, time, spawn).Fatal?
    decreases |events|
  {
    match Dispatch(w, events[0], time, spawn)
    case Fatal(f) =>
    case Ok(w') =>
      assert k != 0;
      DrainUnknownIsFatal(w', events[1..], time, spawn, k - 1);
  }

  /** Only a start message changes the game state: without one the drain leaves it and
      the network commands as they were. The order ring, the sample window and the
      render commands are never touched by the drain. */
  lemma {:induction false} DrainFrame(w: World, events: seq<NetEvent>, time: Usec64,
                                      spawn: nat -> seq<Simulation.Unit>)
    requires Drain(w, events, time, spawn).Ok?
    ensures var w' := Drain(w, events, time, spawn).value;
      && w'.game.orderRingUnread == w.game.orderRingUnread
      && w'.game.orderListCounts == w.game.orderListCounts
      && w'.renderCmds == w.renderCmds
      && ((forall i :: 0 <= i < |events| ==> !IsStart(events[i])) ==>
            w'.game == w.game && w'.netCmds == w.netCmds)
    decreases |events|
  {
    if events != [] {
      var w' := Dispatch(w, events[0], time, spawn).value;
      if IsStart(events[0]) {
        StartGameResult(w.game, events[0].message.playerCount, time, spawn);
      }
      DrainFrame(w', events[1..], time, spawn);
      assert forall i :: 0 < i < |events| ==> events[i] == events[1..][i - 1];
    }
  }

  // ---------------------------------------------------------------- one call

  /** The draw commands: one per unit, in unit order, each at the unit's interpolated
      position in its owner's colour. */
  lemma {:induction false} RenderPrefixAt(units: seq<Simulation.Unit>, positions: seq<Coor>, strayColor: nat -> U32,
                                          k: nat, i: nat)
    requires k <= |units| <= |positions|
    ensures |RenderPrefix(units, positions, strayColor, k)| == k
    ensures i < k ==>
      RenderPrefix(units, positions, strayColor, k)[i] ==
        DrawSquare(positions[i].x, positions[i].y, UnitColor(units[i].playerId, strayColor))
    decreases k
  {
    if k > 0 {
      RenderPrefixAt(units, positions, strayColor, k - 1, i);
    }
  }

  /** Tick gating, for every call: with d the game state after the drain, the
      simulation ticks, the deadline moves one tick duration on and the unread count
      less one is sampled exactly when the deadline of d has passed and the order ring
      holds something; otherwise d stays as it is. The order ring's count and the
      samples already taken are never changed by a call. */
  lemma UpdateTickGating(w: World, call: Call, c: Collaborators)
    requires Renderable(w.game) && TickAddsNoUnits(c)
    requires Update(w, call, c).Ok?
    ensures Drain(w, call.events, call.time, c.spawn).Ok?
    ensures var d, g' := Drain(w, call.events, call.time, c.spawn).value.game, Update(w, call, c).value.game;
      && g'.orderRingUnread == w.game.orderRingUnread
      && g'.playerId == d.playerId
      && g'.positions == d.positions
      && g'.nextTickTime == (if TickDue(d, call.time) then AddU64(d.nextTickTime, TickMicros) else d.nextTickTime)
      && g'.sim == (if TickDue(d, call.time) then c.tick(d.sim) else d.sim)
      && g'.orderListCounts ==
           (if TickDue(d, call.time) then w.game.orderListCounts + [w.game.orderRingUnread - 1]
            else w.game.orderListCounts)
  {
    DrainFrame(w, call.events, call.time, c.spawn);
  }

  /** The commands of one call: a reply per start message then, when termination was
      requested, exactly one shutdown command; one draw command per unit after the tick;
      the running flag ends up down when termination was requested or the connection was
      lost or failed, and otherwise as it was. */
  lemma UpdateOutputs(w: World, call: Call, c: Collaborators)
    requires Renderable(w.game) && TickAddsNoUnits(c)
    requires Update(w, call, c).Ok?
    ensures var w' := Update(w, call, c).value;
      && w'.netCmds == w.netCmds + Replies(StartCount(call.events))
                       + (if call.terminationRequested then [ShutdownCommand] else [])
      && |w'.renderCmds| == |w.renderCmds| + |w'.game.sim.units|
      && w'.renderCmds[..|w.renderCmds|] == w.renderCmds
      && (forall i :: 0 <= i < |w'.game.sim.units| ==>
            w'.renderCmds[|w.renderCmds| + i] ==
              DrawSquare(w'.game.positions[i].x, w'.game.positions[i].y,
                         UnitColor(w'.game.sim.units[i].playerId, c.strayColor)))
      && w'.running == (!call.terminationRequested && w.running &&
                        forall i :: 0 <= i < |call.events| ==> !StopsRunning(call.events[i]))
  {
    DrainReplies(w, call.events, call.time, c.spawn);
    DrainRunning(w, call.events, call.time, c.spawn);
    DrainFrame(w, call.events, call.time, c.spawn);
    var w' := Update(w, call, c).value;
    var units, positions := w'.game.sim.units, w'.game.positions;
    RenderPrefixAt(units, positions, c.strayColor, |units|, 0);
    assert w'.renderCmds == w.renderCmds + RenderCommands(units, positions, c.strayColor);
    forall i | 0 <= i < |units|
      ensures w'.renderCmds[|w.renderCmds| + i] ==
        DrawSquare(positions[i].x, positions[i].y, UnitColor(units[i].playerId, c.strayColor))
    {
      RenderPrefixAt(units, positions, c.strayColor, |units|, i);
    }
  }

  // ---------------------------------------------------------------- many calls

  /** With nothing in the order ring the simulation never ticks: over any sequence of
      calls the sample window gains nothing and the ring stays empty. */
  lemma {:induction false} RunWithoutOrdersNeverTicks(w: World, calls: seq<Call>, c: Collaborators)
    requires Renderable(w.game) && TickAddsNoUnits(c)
    requires w.game.orderRingUnread == 0
    requires Run(w, calls, c).Ok?
    ensures Run(w, calls, c).value.game.orderListCounts == w.game.orderListCounts
    ensures Run(w, calls, c).value.game.orderRingUnread == 0
    decreases |calls|
  {
    if calls != [] {
      DrainFrame(w, calls[0].events, calls[0].time, c.spawn);
      RunWithoutOrdersNeverTicks(Update(w, calls[0], c).value, calls[1..], c);
    }
  }

  /** The tick stall: with the order ring empty and no start message, the deadline and
      the simulation stay where they are over any sequence of calls, however late. */
  lemma {:induction false} RunStallsWithoutOrders(w: World, calls: seq<Call>, c: Collaborators)
    requires Renderable(w.game) && TickAddsNoUnits(c)
    requires w.game.orderRingUnread == 0
    requires forall k, i :: 0 <= k < |calls| && 0 <= i < |calls[k].events| ==> !IsStart(calls[k].events[i])
    requires Run(w, calls, c).Ok?
    ensures Run(w, calls, c).value.game.nextTickTime == w.game.nextTickTime
    ensures Run(w, calls, c).value.game.sim == w.game.sim
    decreases |calls|
  {
    if calls != [] {
      UpdateTickGating(w, calls[0], c);
      DrainFrame(w, calls[0].events, calls[0].time, c.spawn);
      assert forall k :: 0 < k < |calls| ==> calls[k] == calls[1..][k - 1];
      RunStallsWithoutOrders(Update(w, calls[0], c).value, calls[1..], c);
    }
  }

  /** Nothing in the game loop writes to the order ring, which InitGame leaves empty: from
      InitGame on, no call ever ticks the simulation. */
  lemma FromInitNeverTicks(netCmds: seq<NetCommand>, renderCmds: seq<RenderCommand>, running: bool,
                           calls: seq<Call>, c: Collaborators)
    requires TickAddsNoUnits(c)
    requires Run(World(InitialSnapshot(), netCmds, renderCmds, running), calls, c).Ok?
    ensures Run(World(InitialSnapshot(), netCmds, renderCmds, running), calls, c).value.game.orderListCounts == []
  {
    RunWithoutOrdersNeverTicks(World(InitialSnapshot(), netCmds, renderCmds, running), calls, c);
  }

  /** A start message declaring no players before any other start is fatal. */
  lemma StartWithoutPlayersFirstIsFatal(call: Call, w: World, c: Collaborators)
    requires w.game == InitialSnapshot() && TickAddsNoUnits(c)
    requires |call.events| > 0 && call.events[0].MessageEvent? && call.events[0].message.StartMessage?
    requires call.events[0].message.playerCount == 0
    ensures Update(w, call, c) == Fatal(UndefinedPlayer)
  {
  }
}
