# Matchmaking coordinator of poketonn, modelled in Dafny

poketonn is a two-player creature-battle server. Players ask for a match
over a socket. The server pairs waiting players, offers them combatants
drawn at random from a public creature API, and starts a battle whose
first turn goes to the faster combatant. This project models the
server-side matchmaking coordinator, the class `BattleManager`. Two
drafts of it exist, and they behave differently:

- `DraftA` (`draft_a.dfy`) models `server/game_logic/battleManager.js`,
  the draft the server loads. The queue holds sockets and a per-player
  data cache sits beside it. A `while` loop pairs the queue two at a
  time. Each pair is offered one shared list of three options. A one-shot
  'pokemonChosen' handler per player notifies the opponent. `startBattle`
  runs only when both cached records already carry a `selectedPokemon`.
- `DraftB` (`draft_b.dfy`) models the second `BattleManager`, which sits in
  `server/game_logic/gameState.js`. The queue holds `{socket, playerData}`
  entries and pairs at most once per arrival. Two random combatants are
  fetched and the battle room is created at once. Moves are routed by room
  id. A disconnect ends the first battle that lists the player and filters
  the player out of the queue.
- `Roster` (`roster.dfy`) is the projection both drafts apply to a fetched
  API record. Stats are folded into a name-to-value map. Types are mapped
  in order. Moves are filtered to those learned at some level above 0, cut
  to four, and reduced to `{name, url}`.
- `Protocol` (`protocol.dfy`) holds what both drafts share: player and room
  ids, the battle record, the outbound messages, and the first-turn rule.

How the model represents the source:

- Each coordinator is a `class` whose fields are the source's fields.
  Everything the server sends is an append to the field `outbox`: an
  `Emit` to one socket, a `Broadcast` to a room, or a `Join` of a socket
  to a room.
- An `await` splits an operation in two, and the code after it is a method
  of its own. `DraftA.BattleManager.CheckForMatches` returns the pairs whose
  pick phase it started. `DraftA.BattleManager.HandlePokemonSelection` is
  that phase once the options are generated. `DraftB.BattleManager.MatchPlayers`
  returns the pair it took off the queue. `DraftB.BattleManager.CompleteMatch`
  is the rest once both fetches settle. Nothing observable happens before
  those awaits.
- The creature API is a parameter `api: map<int, RawPokemon>`. An id the
  map lacks stands for a rejected request. The random draw of
  `Math.floor(Math.random() * 898) + 1` becomes id parameters constrained
  to 1..898. `uuidv4()` becomes a `uuid` parameter, and the room id is
  `"battle_" + uuid`. Neither draft imports `uuidv4`, so as written that
  call throws; the model assumes it succeeds (see "## Left out").
- DraftA's `socket.on`/`removeListener` pair is the map
  `selectionHandlers`, from a socket to the opponent its pending handler
  will notify.
- DraftB's `activeBattles` is a JavaScript `Map`, which iterates in
  insertion order. The field `battleOrder` records that order. Setting an
  existing key keeps its place, and a new key goes last.
- A battle is the record of the arguments passed to `new GameState(...)`,
  and the game state's `processMove` is passed to
  `DraftB.BattleManager.HandlePlayerMove` as an opaque function. The model
  assumes that construction succeeds (see "## Left out").

The model follows the code as written, including these behaviours:

- DraftA offers one and the same option list to both players. It does not
  check that the three drawn ids differ.
- DraftA's selection handler ignores the chosen combatant and never writes
  it to the cache, so `OnPokemonChosen` leaves `playerDataCache` unchanged.
  A battle starts only if the data sent with 'findMatch' already carried a
  `selectedPokemon`. The player whose event fires the start becomes player 1.
- When both 'findMatch' records already carry a `selectedPokemon`, each
  player's handler finds both selections present, so each of the two
  'pokemonChosen' events calls `startBattle`. One pair then gets two rooms
  and two rounds of 'battleStart', one with each
  player as player 1. The contract of `DraftA.BattleManager.OnPokemonChosen`
  states this: its start condition reads only the cache, which no handler
  changes.
- DraftB routes a move by the room id the client sends, and answers an
  unknown room id with 'Battle not found' to the sender alone.
- A combatant without a `speed` stat compares as `undefined`. Every such
  comparison is false, so player 2 moves first.
- DraftA has no disconnect or move handling at all.

## Model

| member | source | states |
|---|---|---|
| Roster.FoldStats | server/game_logic/battleManager.js:84-87 | the stats map has exactly the stat names of the record as keys |
| Roster.FoldStatsLastWins | server/game_logic/battleManager.js:84-87 | the value under a name is the base stat of that name's last occurrence |
| Roster.TypeNames | server/game_logic/battleManager.js:88 | one type name per type entry, in source order |
| Roster.LearnedMoves | server/game_logic/battleManager.js:99 | the filter keeps only moves with some `level_learned_at > 0`, each drawn from the input |
| Roster.LearnedPositionsExact | server/game_logic/battleManager.js:99 | the learned positions are ascending and in range, each is learned, and no learned move is left out |
| Roster.LearnedMovesAtPositions | server/game_logic/battleManager.js:99-100 | the filtered moves are exactly the moves at the learned positions, in order |
| Roster.Refs | server/game_logic/battleManager.js:101-104 | each move is reduced to its name and url, order kept |
| Roster.SimplifyMoves | server/game_logic/battleManager.js:97-105 | at most 4 moves are kept |
| Roster.SimplifyMovesFirstLearned | server/game_logic/battleManager.js:97-105 | the result is the first min(4, n) of the n learned moves, in source order, each only name and url |
| Roster.ToCombatant | server/game_logic/battleManager.js:81-91 | id, name and sprite are copied; stat keys are the record's stat names; types are kept in order; at most 4 moves |
| Roster.FetchPokemon | server/game_logic/gameState.js:37-62 | a combatant exactly when the API answers the drawn id, carrying that record's id and at most 4 moves |
| Protocol.FirstPlayer | server/game_logic/battleManager.js:133-136 | the first player is one of the two; for distinct players it is player 1 iff both speeds exist and speed1 >= speed2 |
| Protocol.FirstPlayerTies | server/game_logic/gameState.js:72-74 | equal speeds go to player 1; a missing speed gives the first turn to player 2 |
| DraftA.Pairs | server/game_logic/battleManager.js:27-29 | n waiting players form floor(n/2) pairs |
| DraftA.Leftover | server/game_logic/battleManager.js:27-29 | fewer than two stay waiting, and they are the queue without its first 2*floor(n/2) entries |
| DraftA.PairsInQueueOrder | server/game_logic/battleManager.js:27-29 | pairing is FIFO: pair i is the entries at positions 2i and 2i+1 |
| DraftA.PairOff | server/game_logic/battleManager.js:27-29 | taking the two oldest entries as a pair leaves the overall pairing and the leftover unchanged |
| DraftA.FoundNoticesAppend | server/game_logic/battleManager.js:35-43 | one more pair adds exactly its two 'found' statuses after those already sent |
| DraftA.FoundNoticesNameOpponent | server/game_logic/battleManager.js:35-43 | two 'found' statuses per pair, each to one member of the pair and naming the other |
| DraftA.NewBattle | server/game_logic/battleManager.js:133-146 | the registered battle has the new room id, the two players in order, and one of them moving first |
| DraftA.StartNoticesOneFirstTurn | server/game_logic/battleManager.js:150-163 | player 1's currentTurn holds iff its speed is at least player 2's; for distinct players exactly one 'battleStart' has currentTurn true; each sees its own combatant |
| DraftA.BattleManager.constructor | server/game_logic/battleManager.js:5-10 | empty queue, cache, battles and handlers |
| DraftA.BattleManager.MatchPlayers | server/game_logic/battleManager.js:12-24 | data cached under the id, socket appended to the queue, one 'searching' to it, then the queue is paired FIFO and at most one player stays waiting |
| DraftA.BattleManager.CheckForMatches | server/game_logic/battleManager.js:26-48 | the pairs are Pairs(queue), the queue becomes Leftover(queue), and the 'found' statuses are appended in pairing order |
| DraftA.BattleManager.GeneratePokemonOptions | server/game_logic/battleManager.js:75-95 | options exist iff every drawn id is answered; then there are `count` of them, the i-th being the projection of the i-th answer |
| DraftA.BattleManager.HandlePokemonSelection | server/game_logic/battleManager.js:50-73 | on success both players get the same three options and a handler each; on failure both get 'Failed to start battle' and no handler is installed |
| DraftA.BattleManager.SetupSelectionHandler | server/game_logic/battleManager.js:107-123 | a handler for the socket that notifies the opponent is pending |
| DraftA.BattleManager.OnPokemonChosen | server/game_logic/battleManager.js:108-120 | one-shot: with no pending handler nothing changes; otherwise the handler is removed, the opponent is notified once, and a battle starts iff both cached records carry a selection |
| DraftA.BattleManager.StartBattle | server/game_logic/battleManager.js:125-166 | exactly one battle is added, under "battle_" + uuid, the others unchanged; both players join and get 'battleStart' |
| DraftB.FirstBattleOf | server/game_logic/gameState.js:126-127 | the position of the first battle, in iteration order, listing the player; none before it lists the player; none at all if absent |
| DraftB.RemoveAtKeepsOrderedKeys | server/game_logic/gameState.js:133 | deleting a battle keeps the remaining keys in order, each once |
| DraftB.WithoutPlayer | server/game_logic/gameState.js:139 | an entry survives iff it was in the queue and belongs to another player |
| DraftB.WithoutPlayerKeepsOrder | server/game_logic/gameState.js:139 | the filter distributes over concatenation, so the other entries keep their relative order |
| DraftB.WithoutPlayerCounts | server/game_logic/gameState.js:139 | each other entry is kept as often as it occurred; the player's entries are all gone |
| DraftB.WithoutAbsentPlayer | server/game_logic/gameState.js:139 | a queue with no entry of the player is unchanged |
| DraftB.MatchFoundOneFirstTurn | server/game_logic/gameState.js:88-103 | isPlayer1 only in player 1's 'matchFound'; currentTurn for player 1 iff speed1 >= speed2; exactly one currentTurn true for distinct players |
| DraftB.BattleManager.constructor | server/game_logic/gameState.js:5-9 | empty queue and battles |
| DraftB.BattleManager.MatchPlayers | server/game_logic/gameState.js:11-19 | the entry is appended; when two or more wait exactly the two oldest are taken, in order; the queue never exceeds one entry |
| DraftB.BattleManager.CompleteMatch | server/game_logic/gameState.js:20-34 | both fetches answered: the room is created; otherwise both players get 'Failed to start battle'; the queue is untouched either way |
| DraftB.BattleManager.CreateBattleRoom | server/game_logic/gameState.js:64-106 | exactly one battle is added under "battle_" + uuid, the others unchanged, iteration order kept; both players join and get 'matchFound' |
| DraftB.BattleManager.HandlePlayerMove | server/game_logic/gameState.js:108-122 | unknown room: 'Battle not found' to the sender only and no state change; otherwise only that battle changes and its update goes to the room |
| DraftB.BattleManager.HandlePlayerDisconnect | server/game_logic/gameState.js:124-140 | at most one battle is deleted, the first listing the player, whose other player is notified; other battles are untouched; every queue entry of the player is removed; a player in no battle and not waiting changes nothing |
| DraftB.BattleManager.EndFirstBattleOf | server/game_logic/gameState.js:125-136 | the battle at FirstBattleOf's position is deleted, its key leaves the iteration order and the other player is notified; with no such battle nothing changes |

## Left out

- client/client.js, the terminal client, is not part of this model. It only prompts and prints.
- server/server.js is not part of this model: the HTTP and socket bootstrap, the port and the `/status` endpoint. It also calls `handleExitGame`, `handlePlayerMove` and `handlePlayerDisconnect` on DraftA, which defines none of them.
- The `GameState` class is not part of this model. `gameState.js` requires itself (gameState.js:1), so the name `GameState` there is that module's own, still empty, exports object; `battleManager.js` requires `./gameState`, which exports the second `BattleManager`. Each battle is the record of its constructor arguments and `processMove` is an opaque function parameter.
- DraftA.BattleManager.StartBattle and DraftB.BattleManager.CreateBattleRoom assume that `uuidv4()` and `new GameState(...)` succeed. As written, `uuidv4` is never imported, so both calls throw a ReferenceError before any `join` (battleManager.js:129, gameState.js:65). Were `uuidv4` defined, DraftB's `new GameState(...)` (gameState.js:77) would throw a TypeError, since an exports object is not a constructor, and DraftA's (battleManager.js:139) would build a second `BattleManager` rather than a game state. Consequences the model does not show: in DraftB every completed match falls into the catch at gameState.js:28-33 and both players get 'Failed to start battle' instead of 'matchFound'; in DraftA the selection handler throws inside `startBattle` after notifying the opponent, so no room is joined, no battle registered and no 'battleStart' sent.
- Network requests to the creature API are a map from id to record. Transient failures and fields missing from a response are not modelled; a failed request is an absent id.
- `Math.random` is replaced by id parameters in 1..898. `uuidv4` is replaced by a uuid parameter, and uniqueness of room ids is not assumed: a repeated room id overwrites, as `Map.set` does.
- Interleavings of concurrent events and promises are not modelled. Each event or awaited continuation runs as one sequential method, which is how the single-threaded event loop runs the code between awaits. Console logging is left out.
- DraftA.BattleManager.SetupSelectionHandler: a socket keeps at most one pending handler, the latest. Two handlers stacked on one socket, which needs a player to queue twice before choosing, are not modelled.
- DraftB.BattleManager.HandlePlayerMove: `processMove` may call its callback later; the model appends the broadcast at once.
- The JavaScript quirks of a plain-object `stats` map are not modelled, for example a stat named `__proto__`.
