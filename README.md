# Client game loop of a lockstep RTS, modelled in Dafny

This project models the client-side game loop of a small networked real-time-strategy
game (`code/client/game.cpp`). On each frame the platform layer calls `UpdateGame`, which:

- drains the network event list until it is empty, reacting to each event in arrival order;
- on a `start` message, restarts the simulation with the declared number of players, takes
  the first created player as the local player, schedules the first tick one tick duration
  (100 ms = 100 000 µs) ahead, and queues a reply command;
- ticks the simulation only when the deadline has passed **and** the order ring holds unread
  entries, then pushes that count less one into the sample window and moves the deadline on
  by 100 000 µs;
- appends one draw-square command per unit;
- when termination was requested, queues one shutdown command and clears the running flag.

`InitGame` lays out a sample window of (1000 / 100) × 2 = 20 samples and an order ring of 100
chunks over 100 × 1024 bytes, and leaves the local player id undefined (8, one past the last
valid id).

Files:

- `outcomes.dfy` — module `Outcomes`: the fatal conditions (`InvalidCodePath`, the failed
  player-id assertion, the player limit) as an `Outcome` value.
- `simulation.dfy` — module `Simulation`: the constants of `simulation.h`, the player count and
  unit list, `InitSimulation` and `SimulationCreatePlayer`.
- `chunk_list.dfy` — module `ChunkList`: the chunk list as a sequence of chunks with a read cursor.
- `game_spec.dfy` — module `GameSpec`: what one call does, on values (`Dispatch`, `Drain`,
  `Tick`, `Update`, and `Run` for a sequence of calls).
- `game_properties.dfy` — module `GameProperties`: the lemmas about that specification.
- `game.dfy` — module `Game`: the class `GameState` updated in place by `InitGame`,
  `ProcessMessageEvent` and `UpdateGame`, and the free procedures `AddRenderCommand` and `Render`.
  Each method's `ensures` ties the new state to the functions of `GameSpec`.

Points of the code's behaviour the model keeps, and the lemmas that state them:

- a tick needs a non-zero unread count in the order ring as well as a passed deadline
  (the tick stall, `RunStallsWithoutOrders`);
- order-list messages are ignored and nothing in the loop writes to the order ring, so from
  `InitGame` on the simulation never ticks (`FromInitNeverTicks`);
- the deadline counts in microseconds: a start message sets it to now + 100 000, a tick moves
  it on by 100 000, both modulo 2^64 (`StartGameResult`, `UpdateTickGating`);
- connection-established events change no state (`DrainFrame`);
- the sample pushed into the window is the unread count less one (`UpdateTickGating`).

The code the loop calls but whose bodies are not part of this model is supplied by the
caller as a `Collaborators` value: the tick (`TickSimulation`), the units that
`SimulationCreatePlayer` adds for a new player (`spawn`), and the value read from the
two-entry colour table at an owner beyond its end (`strayColor`).

## Model

| member | source | states |
|---|---|---|
| `Game.GameState.InitGame` | code/client/game.cpp:34-68 | the window holds 20 samples, the ring 100 chunks over 102 400 bytes, the local player id is the undefined id 8, the ring is empty (assuming `InitChunkRingBuffer` leaves no unread chunk) |
| `Game.GameState.ProcessMessageEvent` | code/client/game.cpp:90-137 | the new game state and the commands written are exactly those of `ProcessMessage`; the returned status is fatal exactly when that is, with the same fault |
| `Game.GameState.UpdateGame` | code/client/game.cpp:139-205 | the new game state, network and render commands and running flag are exactly those of `Update` on the unread events; the returned status is fatal exactly when that is; on success every event has been read and both command lists keep their read cursors |
| `Game.AddRenderCommand` | code/client/game.cpp:72-79 | exactly one command is appended after all earlier ones; the read cursor is untouched |
| `Game.Render` | code/client/game.cpp:81-88 | the render list gains exactly `RenderCommands(units, positions, strayColor)`, after what it held |
| `ChunkList.List.Write` | code/lib/chunk_list.h:13 | the chunk goes after every chunk already written; the read cursor is untouched |
| `ChunkList.List.Read` | code/lib/chunk_list.h:14 | returns the next unread chunk and advances the cursor, or nothing (the zero-length buffer) with the cursor unchanged once all are read |
| `Simulation.CreatePlayer` | code/common/simulation.h:49 | as this model assumes `SimulationCreatePlayer`: succeeds exactly when fewer than 8 players exist and otherwise faults with the player limit; the id handed out is a valid id, never the undefined one; the player count grows by one and the units already present stay first |
| `GameSpec.AddU64` | code/client/game.cpp:121 | 64-bit microsecond addition: the exact sum below 2^64, the sum less 2^64 above |
| `GameSpec.CreatePlayers` | code/client/game.cpp:100-105 | the loop calling `SimulationCreatePlayer` once per declared player, from iteration i on: on success it has created exactly n − i players and the units present before stay first; the only fault it raises is the player limit |
| `GameSpec.Tick` | code/client/game.cpp:174-187 | after a tick every unit still has an interpolated position, provided the supplied tick adds no unit |
| `GameProperties.CreatePlayersClosedForm` | code/client/game.cpp:99-105 | creating n players from iteration i fails exactly when they do not fit; otherwise the count grows by n − i, the units spawned for the new ids are appended in id order, and the local id is the first created id (unchanged when no iteration runs) |
| `GameProperties.StartGameResult` | code/client/game.cpp:95-130 | a start message with n players fails with the player limit exactly when n > 8, fails the player-id assertion exactly when n = 0 with no local player yet, and succeeds otherwise; on success: n players and the units spawned for ids 0 .. n−1, local id 0 (the old id when n = 0, never undefined), one position per unit from `InitInterpolation`, deadline at now + 100 000 µs (modulo 2^64), order ring and sample window untouched |
| `GameProperties.StartWithoutPlayersFirstIsFatal` | code/client/game.cpp:99-106 | a 0-player start as the first event of a call, from the state `InitGame` leaves, fails the player-id assertion |
| `GameProperties.DrainAppend` | code/client/game.cpp:147-172 | draining two event lists in sequence equals draining their concatenation: each event handled once, in arrival order, stopping at the first fatal one |
| `GameProperties.DrainOkIff` | code/client/game.cpp:147-172 | the drain succeeds exactly when every event and message type is known, every start message declares at most 8 players, and every start message declaring 0 players comes after a local player was defined (before the call or by an earlier start with players) |
| `GameProperties.DrainRunning` | code/client/game.cpp:153-164 | after the drain the running flag is up exactly when it was up and no event reported the connection lost or failed |
| `GameProperties.DrainReplies` | code/client/game.cpp:121-128 | the drain appends exactly one reply command per start message and no other network command |
| `GameProperties.DrainUnknownIsFatal` | code/client/game.cpp:131-171 | an unknown event type or unknown message type anywhere in the list makes the call fatal |
| `GameProperties.DrainFrame` | code/client/game.cpp:147-172 | the drain never touches the order ring, the sample window or the render commands; without a start message it changes neither the game state nor the network commands |
| `GameProperties.RenderPrefixAt` | code/client/game.cpp:81-87 | the render pass emits exactly one draw-square command per unit, in unit order, at the unit's interpolated position in its owner's colour (red for player 0, blue for player 1) |
| `GameProperties.UpdateTickGating` | code/client/game.cpp:174-187 | for every successful call, with d the state after the drain: the simulation ticks, the deadline moves on by 100 000 µs (modulo 2^64) and the unread count less one is sampled exactly when now ≥ d's deadline and the ring count is non-zero; otherwise d's simulation, deadline and samples stay; the ring count never changes |
| `GameProperties.UpdateOutputs` | code/client/game.cpp:189-204 | a call appends one reply per start message then, on termination, exactly one shutdown command; one draw command per unit after the tick, in its owner's colour; the running flag stays up exactly when it was up, no termination was requested, and no lost or failed connection arrived |
| `GameProperties.RunWithoutOrdersNeverTicks` | code/client/game.cpp:174-181 | with an empty order ring, no sequence of calls ever samples the window or changes the ring count |
| `GameProperties.RunStallsWithoutOrders` | code/client/game.cpp:174-187 | with an empty order ring and no start message, the deadline and the simulation stay fixed over any sequence of calls, however late |
| `GameProperties.FromInitNeverTicks` | code/client/game.cpp:131-133 | since no code path writes to the order ring, from `InitGame` on no call ever ticks the simulation |

## Left out

- Console output (`printf` of events and of the mouse state) has no effect on state and is not modelled; the mouse argument is dropped.
- Serialisation of events, messages and commands (`UnserializeMessageNetEvent`, `SerializeReplyNetMessage`, `SerializeSendNetCommand`, `SerializeShutdownNetCommand`) is not part of this model: events, messages and commands are datatype values. The start message's player index is carried but, as in the code, only printed.
- The chunk list's byte buffer, its capacity and its fatal overflow are not modelled; a zero-length chunk written into the event list (which would end the drain early) does not exist in the model.
- The chunk ring buffer is reduced to its unread count: its storage, slots, FIFO order and wrap-around are not modelled, and nothing in the loop reads or writes it.
- The order-count sample window (`int_seq`) is modelled as the list of pushed samples; its overwrite of the oldest sample beyond 20 is not modelled, because its implementation is not part of this model.
- The linear allocator, the command serialisation buffer and the layout of `game_state` at the start of the memory block are not modelled.
- Simulation.Init: the body of `InitSimulation` is not part of this model; the model assumes it leaves no players and no units.
- Simulation.CreatePlayer: the body of `SimulationCreatePlayer` is not part of this model; the model assumes dense player ids from 0, a fatal outcome once 8 players exist, and that the new player's units are those `spawn` gives its id, appended after the existing ones; the limit of 4096 units is not enforced.
- GameSpec.CreatePlayers: inherits the assumptions on `SimulationCreatePlayer`; the units it adds are exactly those `spawn` gives the new ids, so what the simulation holds after a start depends only on that parameter.
- GameSpec.InitInterpolation: the body of `InitInterpolation` is not part of this model; the model assumes one position per unit, taken from the unit. Interpolation updates are only a comment in `UpdateGame` (code/client/game.cpp:189), so positions change only on a start message.
- `TickSimulation` is the `tick` field of the `Collaborators` parameter of `UpdateGame`: its mechanics are not part of this model, and it is always called with an empty order list, which is therefore not passed.
- `InitChunkRingBuffer`: its body is not part of this model; the model assumes it leaves the order ring with no unread chunk, which is what `FromInitNeverTicks` rests on.
- `InitGame` does not set the deadline or the simulation: the model assumes a zero-filled memory block (deadline 0, empty simulation, no positions).
- Game.Render: for a unit owned by player 2 or higher the code reads `PlayerColors[owner]` past the end of its two entries, which C leaves undefined; this happens once a start message declares three or more players whose spawned units belong to them. The model draws such a unit in the colour `strayColor` gives and promises nothing about that value.
- Game.GameState.UpdateGame: requires the supplied tick to add no unit (`TickAddsNoUnits`), because positions are seeded only by a start message and `Render` reads one position per unit; the `*Running` out-parameter is modelled as a value passed in and returned; after a fatal condition, where the process aborts, the state is left unspecified.
