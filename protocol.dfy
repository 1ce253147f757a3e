/**
 * What both matchmaking drafts share: player and room identities, the
 * record a battle is created with, the messages sent to sockets, and the
 * rule that picks who moves first.
 */
module Protocol {
  import opened Roster

  /** A socket's id; socket.io also uses it as the name of a room holding only that socket. */
  type PlayerId = string
  type RoomId = string

  /** Every room id is this prefix followed by a freshly generated uuid. */
  const RoomPrefix: string := "battle_"

  /** The constructor arguments of a battle's game state. */
  datatype Battle = Battle(
    roomId: RoomId,
    player1: PlayerId,
    player2: PlayerId,
    pokemon1: Combatant,
    pokemon2: Combatant,
    firstPlayer: PlayerId)

  /** The prompt sent with the roster options. */
  const SelectionPrompt: string := "Choose your Pokemon!"
  const FailedToStart: string := "Failed to start battle"
  const BattleNotFound: string := "Battle not found"

  datatype Message =
    | MatchSearching                                    // matchStatus { status: 'searching' }
    | MatchFoundStatus(opponent: string)                // matchStatus { status: 'found', opponent }
    | PokemonSelection(options: seq<Combatant>, prompt: string)
    | OpponentChosePokemon
    | BattleStart(yourPokemon: Combatant, opponentPokemon: Combatant, currentTurn: bool, opponentName: string)
    | MatchFound(roomId: RoomId, isPlayer1: bool, yourPokemon: Combatant, opponentPokemon: Combatant, currentTurn: bool)
    | GameUpdate(state: Battle)
    | OpponentDisconnected
    | Error(message: string)

  /** One transport action, in the order the server performs them. */
  datatype Outbound =
    | Emit(to: PlayerId, msg: Message)       // socket.emit, or io.to(socket id).emit
    | Broadcast(room: RoomId, msg: Message)  // io.to(room id).emit
    | Join(player: PlayerId, room: RoomId)   // socket.join

  /**
   * `stats.speed` of the first combatant is at least that of the second.
   * A missing `speed` reads as undefined, and every comparison with
   * undefined is false.
   */
  predicate SpeedAtLeast(c1: Combatant, c2: Combatant)
  {
    "speed" in c1.stats && "speed" in c2.stats && c1.stats["speed"] >= c2.stats["speed"]
  }

  /** `player1Speed >= player2Speed ? player1 : player2`. */
  function FirstPlayer(p1: PlayerId, p2: PlayerId, c1: Combatant, c2: Combatant): (r: PlayerId)
    ensures r == p1 || r == p2
    ensures p1 != p2 ==> (r == p1 <==> SpeedAtLeast(c1, c2))
  {
    if SpeedAtLeast(c1, c2) then p1 else p2
  }

  /** Equal speeds go to player 1; a missing speed on either side gives the first turn to player 2. */
  lemma FirstPlayerTies(p1: PlayerId, p2: PlayerId, c1: Combatant, c2: Combatant)
    ensures "speed" in c1.stats && "speed" in c2.stats && c1.stats["speed"] == c2.stats["speed"]
      ==> FirstPlayer(p1, p2, c1, c2) == p1
    ensures ("speed" !in c1.stats || "speed" !in c2.stats) ==> FirstPlayer(p1, p2, c1, c2) == p2
  {
  }
}
