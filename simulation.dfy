/** The simulation as the game loop sees it: the constants of the shared simulation
    header, the player count and unit list, and the two calls the loop makes before a
    match starts. The bodies of InitSimulation, SimulationCreatePlayer and
    TickSimulation are not part of this model: what SimulationCreatePlayer adds to the
    unit list is a parameter `spawn`, and the tick is supplied by the caller
    (see GameSpec.Collaborators). */
module Simulation {
  import opened Outcomes

  const PlayerMax: nat := 8
  // The header's unit limit (4096) is not enforced by this model.
  /** The "no player yet" id: one past the last valid id. */
  const UndefinedPlayerId: nat := PlayerMax
  /** Length of one simulation tick, in milliseconds. */
  const TickDuration: nat := 100

  type U8 = x: nat | x < 0x100
  type U16 = x: nat | x < 0x1_0000
  type PlayerId = U8

  datatype Unit = Unit(playerId: PlayerId, x: U16, y: U16)

  datatype State = State(playerCount: nat, units: seq<Unit>)

  /** InitSimulation, as this model assumes it: no players, no units. */
  function Init(): State
  {
    State(0, [])
  }

  /** SimulationCreatePlayer, as this model assumes it: hands out the next dense id,
      appends the units `spawn` gives that id, and is fatal once every slot is taken. */
  function CreatePlayer(s: State, spawn: nat -> seq<Unit>): (r: Outcome<(State, PlayerId)>)
    ensures r.Ok? <==> s.playerCount < PlayerMax
    ensures r.Fatal? ==> r.fault == PlayerLimit
    ensures r.Ok? ==> r.value.1 != UndefinedPlayerId && r.value.1 < PlayerMax
    ensures r.Ok? ==> r.value.0.playerCount == s.playerCount + 1 && s.units <= r.value.0.units
  {
    if s.playerCount >= PlayerMax then Fatal(PlayerLimit)
    else Ok((State(s.playerCount + 1, s.units + spawn(s.playerCount)), s.playerCount))
  }
}
