/**
 * The matchmaking coordinator of server/game_logic/battleManager.js, the
 * draft the server loads. Waiting sockets queue in arrival order and are
 * paired two at a time by a loop; each pair is offered one shared list of
 * three roster options; a one-shot 'pokemonChosen' handler per player
 * notifies the opponent and starts the battle once both cached player
 * records carry a selected combatant.
 *
 * The code after each `await` is modelled as its own method, called when
 * the awaited work completes: CheckForMatches returns the pairs whose pick
 * phase it started, and HandlePokemonSelection is the rest of that phase.
 */
module DraftA {
  import opened Roster
  import opened Protocol

  /** What a player sends with 'findMatch'. Nothing in this draft writes `selectedPokemon`. */
  datatype PlayerData = PlayerData(name: string, selectedPokemon: Option<Combatant>)

  /** The pairs the matching loop forms from queue `q`: its entries two by two, oldest first. */
  function Pairs(q: seq<PlayerId>): (r: seq<(PlayerId, PlayerId)>)
    ensures |r| == |q| / 2
  {
    if |q| < 2 then [] else [(q[0], q[1])] + Pairs(q[2..])
  }

  /** What the matching loop leaves waiting: the queue without its first 2 * (|q| / 2) entries. */
  function Leftover(q: seq<PlayerId>): (r: seq<PlayerId>)
    ensures |r| < 2
    ensures r == q[2 * (|q| / 2)..]
  {
    if |q| < 2 then q else Leftover(q[2..])
  }

  /** Pairing is first in, first out: pair i is made of the entries at 2i and 2i+1. */
  lemma {:induction false} PairsInQueueOrder(q: seq<PlayerId>, i: nat)
    requires i < |q| / 2
    ensures Pairs(q)[i] == (q[2 * i], q[2 * i + 1])
  {
    if i > 0 {
      PairsInQueueOrder(q[2..], i - 1);
    }
  }

  predicate AllCached(pairs: seq<(PlayerId, PlayerId)>, cache: map<PlayerId, PlayerData>)
  {
    forall i :: 0 <= i < |pairs| ==> pairs[i].0 in cache && pairs[i].1 in cache
  }

  /** The 'found' statuses sent for the given pairs, two per pair. */
  function FoundNotices(pairs: seq<(PlayerId, PlayerId)>, cache: map<PlayerId, PlayerData>): seq<Outbound>
    requires AllCached(pairs, cache)
  {
    if pairs == [] then []
    else
      var (p1, p2) := pairs[|pairs| - 1];
      FoundNotices(pairs[..|pairs| - 1], cache)
        + [Emit(p1, MatchFoundStatus(cache[p2].name)), Emit(p2, MatchFoundStatus(cache[p1].name))]
  }

  /** Each paired player gets exactly one 'found' status, naming the other player of its pair. */
  lemma {:induction false} FoundNoticesNameOpponent(pairs: seq<(PlayerId, PlayerId)>, cache: map<PlayerId, PlayerData>, i: nat)
    requires AllCached(pairs, cache)
    requires i < |pairs|
    ensures |FoundNotices(pairs, cache)| == 2 * |pairs|
    ensures FoundNotices(pairs, cache)[2 * i] == Emit(pairs[i].0, MatchFoundStatus(cache[pairs[i].1].name))
    ensures FoundNotices(pairs, cache)[2 * i + 1] == Emit(pairs[i].1, MatchFoundStatus(cache[pairs[i].0].name))
  {
    var init := pairs[..|pairs| - 1];
    if i < |pairs| - 1 {
      FoundNoticesNameOpponent(init, cache, i);
    } else if init != [] {
      FoundNoticesNameOpponent(init, cache, |init| - 1);
    }
  }

  /** Taking the first two entries of the queue as a pair leaves the pairing and the leftover as they were. */
  lemma PairOff(q: seq<PlayerId>, pairs: seq<(PlayerId, PlayerId)>)
    requires |q| >= 2
    ensures (pairs + [(q[0], q[1])]) + Pairs(q[2..]) == pairs + Pairs(q)
    ensures Leftover(q[2..]) == Leftover(q)
  {
    var rest := Pairs(q[2..]);
    assert Pairs(q) == [(q[0], q[1])] + rest;
    assert (pairs + [(q[0], q[1])]) + rest == pairs + ([(q[0], q[1])] + rest);
  }

  /** Appending a pair appends its two 'found' statuses. */
  lemma FoundNoticesAppend(sent: seq<Outbound>, pairs: seq<(PlayerId, PlayerId)>, p1: PlayerId, p2: PlayerId, cache: map<PlayerId, PlayerData>)
    requires AllCached(pairs, cache) && p1 in cache && p2 in cache
    ensures AllCached(pairs + [(p1, p2)], cache)
    ensures sent + FoundNotices(pairs + [(p1, p2)], cache)
      == (sent + FoundNotices(pairs, cache)) + [Emit(p1, MatchFoundStatus(cache[p2].name)), Emit(p2, MatchFoundStatus(cache[p1].name))]
  {
    assert (pairs + [(p1, p2)])[..|pairs|] == pairs;
  }

  predicate BothSelected(cache: map<PlayerId, PlayerData>, p1: PlayerId, p2: PlayerId)
  {
    p1 in cache && p2 in cache && cache[p1].selectedPokemon.Some? && cache[p2].selectedPokemon.Some?
  }

  /** The game state `startBattle` registers for two players whose records carry a selection. */
  function NewBattle(room: RoomId, p1: PlayerId, p2: PlayerId, cache: map<PlayerId, PlayerData>): (b: Battle)
    requires BothSelected(cache, p1, p2)
    ensures b.roomId == room && b.player1 == p1 && b.player2 == p2
    ensures b.firstPlayer == p1 || b.firstPlayer == p2
  {
    var c1, c2 := cache[p1].selectedPokemon.value, cache[p2].selectedPokemon.value;
    Battle(room, p1, p2, c1, c2, FirstPlayer(p1, p2, c1, c2))
  }

  /** What `startBattle` sends: both sockets join the room, then each gets its 'battleStart'. */
  function StartNotices(room: RoomId, p1: PlayerId, p2: PlayerId, cache: map<PlayerId, PlayerData>): seq<Outbound>
    requires BothSelected(cache, p1, p2)
  {
    var b := NewBattle(room, p1, p2, cache);
    [Join(p1, room), Join(p2, room),
     Emit(p1, BattleStart(b.pokemon1, b.pokemon2, b.firstPlayer == p1, cache[p2].name)),
     Emit(p2, BattleStart(b.pokemon2, b.pokemon1, b.firstPlayer == p2, cache[p1].name))]
  }

  /**
   * Player 1 is told it moves first exactly when its combatant's speed is at
   * least player 2's; for two distinct players exactly one 'battleStart'
   * carries `currentTurn` true. Each player sees its own combatant as its own.
   */
  lemma StartNoticesOneFirstTurn(room: RoomId, p1: PlayerId, p2: PlayerId, cache: map<PlayerId, PlayerData>)
    requires BothSelected(cache, p1, p2)
    requires p1 != p2
    ensures |StartNotices(room, p1, p2, cache)| == 4
    ensures StartNotices(room, p1, p2, cache)[2].msg.currentTurn
      <==> SpeedAtLeast(cache[p1].selectedPokemon.value, cache[p2].selectedPokemon.value)
    ensures StartNotices(room, p1, p2, cache)[2].msg.currentTurn != StartNotices(room, p1, p2, cache)[3].msg.currentTurn
    ensures StartNotices(room, p1, p2, cache)[2].msg.yourPokemon == cache[p1].selectedPokemon.value
    ensures StartNotices(room, p1, p2, cache)[3].msg.yourPokemon == cache[p2].selectedPokemon.value
  {
  }

  class BattleManager {
    /** Sockets waiting for an opponent, oldest first. */
    var waitingPlayers: seq<PlayerId>
    var activeBattles: map<RoomId, Battle>
    /** The data each player sent with 'findMatch'; entries are never removed. */
    var playerDataCache: map<PlayerId, PlayerData>
    /** The sockets with a pending 'pokemonChosen' handler, each mapped to the opponent it notifies. */
    var selectionHandlers: map<PlayerId, PlayerId>
    /** Everything sent to sockets, in order. */
    var outbox: seq<Outbound>

    /** Every player the coordinator may look up has a cached record. */
    ghost predicate Known()
      reads this
    {
      && (forall i :: 0 <= i < |waitingPlayers| ==> waitingPlayers[i] in playerDataCache)
      && (forall p :: p in selectionHandlers ==> p in playerDataCache && selectionHandlers[p] in playerDataCache)
    }

    /** Between events the queue holds at most one player: every arrival is paired off at once. */
    ghost predicate Valid()
      reads this
    {
      Known() && |waitingPlayers| <= 1
    }

    constructor ()
      ensures Valid()
      ensures waitingPlayers == [] && activeBattles == map[] && playerDataCache == map[]
      ensures selectionHandlers == map[] && outbox == []
    {
      waitingPlayers := [];
      activeBattles := map[];
      playerDataCache := map[];
      selectionHandlers := map[];
      outbox := [];
    }

    /**
     * 'findMatch': cache the player's data, queue the socket at the back,
     * tell it that it is searching, then pair the queue.
     */
    method MatchPlayers(socket: PlayerId, data: PlayerData) returns (pairs: seq<(PlayerId, PlayerId)>)
      requires Valid()
      modifies this`waitingPlayers, this`playerDataCache, this`outbox
      ensures Valid()
      ensures playerDataCache == old(playerDataCache)[socket := data]
      ensures pairs == Pairs(old(waitingPlayers) + [socket])
      ensures waitingPlayers == Leftover(old(waitingPlayers) + [socket])
      ensures AllCached(pairs, playerDataCache)
      ensures outbox == old(outbox) + [Emit(socket, MatchSearching)] + FoundNotices(pairs, playerDataCache)
    {
      playerDataCache := playerDataCache[socket := data];
      waitingPlayers := waitingPlayers + [socket];
      outbox := outbox + [Emit(socket, MatchSearching)];
      pairs := CheckForMatches();
    }

    /**
     * The pairing loop: while two or more wait, take the two oldest, send
     * each a 'found' status naming the other, and start their pick phase.
     * Returns the pairs formed, in order.
     */
    method CheckForMatches() returns (pairs: seq<(PlayerId, PlayerId)>)
      requires Known()
      modifies this`waitingPlayers, this`outbox
      ensures Valid()
      ensures pairs == Pairs(old(waitingPlayers))
      ensures waitingPlayers == Leftover(old(waitingPlayers))
      ensures AllCached(pairs, playerDataCache)
      ensures outbox == old(outbox) + FoundNotices(pairs, playerDataCache)
    {
      pairs := [];
      while |waitingPlayers| >= 2
        invariant forall i :: 0 <= i < |waitingPlayers| ==> waitingPlayers[i] in playerDataCache
        invariant pairs + Pairs(waitingPlayers) == Pairs(old(waitingPlayers))
        invariant Leftover(waitingPlayers) == Leftover(old(waitingPlayers))
        invariant AllCached(pairs, playerDataCache)
        invariant outbox == old(outbox) + FoundNotices(pairs, playerDataCache)
        decreases |waitingPlayers|
      {
        // the two `shift()` calls
        PairOff(waitingPlayers, pairs);
        var player1, player2 := waitingPlayers[0], waitingPlayers[1];
        waitingPlayers := waitingPlayers[2..];
        FoundNoticesAppend(old(outbox), pairs, player1, player2, playerDataCache);
        outbox := outbox + [Emit(player1, MatchFoundStatus(playerDataCache[player2].name)),
                            Emit(player2, MatchFoundStatus(playerDataCache[player1].name))];
        pairs := pairs + [(player1, player2)];
      }
    }

    /**
     * `generatePokemonOptions`: `count` sequential requests for the drawn
     * ids, each answer projected; the first rejected request aborts the
     * whole generation.
     */
    method GeneratePokemonOptions(count: nat, ids: seq<int>, api: map<int, RawPokemon>) returns (r: Option<seq<Combatant>>)
      requires |ids| == count
      requires forall i :: 0 <= i < |ids| ==> MinPokemonId <= ids[i] <= MaxPokemonId
      ensures r.Some? <==> forall i :: 0 <= i < count ==> ids[i] in api
      ensures r.Some? ==> |r.value| == count
      ensures r.Some? ==> forall i :: 0 <= i < count ==> r.value[i] == ToCombatant(api[ids[i]])
    {
      var options := [];
      for i := 0 to count
        invariant |options| == i
        invariant forall k :: 0 <= k < i ==> ids[k] in api && options[k] == ToCombatant(api[ids[k]])
      {
        var fetched := FetchPokemon(ids[i], api);
        if fetched.None? {
          return None;
        }
        options := options + [fetched.value];
      }
      return Some(options);
    }

    /**
     * The pick phase of a pair, from the point where option generation
     * completes: on success both players get the same three options and a
     * selection handler each; on failure both get 'Failed to start battle'
     * and nothing else changes. Returns the options offered.
     */
    method HandlePokemonSelection(player1: PlayerId, player2: PlayerId, ids: seq<int>, api: map<int, RawPokemon>)
      returns (offered: Option<seq<Combatant>>)
      requires Valid()
      requires player1 in playerDataCache && player2 in playerDataCache
      requires |ids| == 3
      requires forall i :: 0 <= i < |ids| ==> MinPokemonId <= ids[i] <= MaxPokemonId
      modifies this`selectionHandlers, this`outbox
      ensures Valid()
      ensures offered.Some? <==> forall i :: 0 <= i < 3 ==> ids[i] in api
      ensures offered.Some? ==> |offered.value| == 3
      ensures offered.Some? ==> forall i :: 0 <= i < 3 ==> offered.value[i] == ToCombatant(api[ids[i]])
      ensures offered.Some? ==>
        && outbox == old(outbox) + [Emit(player1, PokemonSelection(offered.value, SelectionPrompt)),
                                    Emit(player2, PokemonSelection(offered.value, SelectionPrompt))]
        && selectionHandlers == old(selectionHandlers)[player1 := player2][player2 := player1]
      ensures offered.None? ==>
        && outbox == old(outbox) + [Emit(player1, Error(FailedToStart)), Emit(player2, Error(FailedToStart))]
        && selectionHandlers == old(selectionHandlers)
    {
      offered := GeneratePokemonOptions(3, ids, api);
      if offered.Some? {
        outbox := outbox + [Emit(player1, PokemonSelection(offered.value, SelectionPrompt)),
                            Emit(player2, PokemonSelection(offered.value, SelectionPrompt))];
        SetupSelectionHandler(player1, player2);
        SetupSelectionHandler(player2, player1);
      } else {
        outbox := outbox + [Emit(player1, Error(FailedToStart)), Emit(player2, Error(FailedToStart))];
      }
    }

    /** Install the 'pokemonChosen' handler of `socket`, which will notify `opponent`. */
    method SetupSelectionHandler(socket: PlayerId, opponent: PlayerId)
      requires Valid()
      requires socket in playerDataCache && opponent in playerDataCache
      modifies this`selectionHandlers
      ensures Valid()
      ensures selectionHandlers == old(selectionHandlers)[socket := opponent]
    {
      selectionHandlers := selectionHandlers[socket := opponent];
    }

    /**
     * A 'pokemonChosen' event from `socket`. Without a pending handler it is
     * ignored. Otherwise the handler removes itself, tells the opponent a
     * choice was made, and starts the battle, with the chooser as player 1,
     * if both cached records already carry a selected combatant. The choice
     * itself is not read, and no handler changes the cache, so when both
     * records carry a selection each player's event starts a battle of its
     * own: one pair gets two rooms.
     */
    method OnPokemonChosen(socket: PlayerId, choice: Combatant, uuid: string)
      requires Valid()
      modifies this`selectionHandlers, this`activeBattles, this`outbox
      ensures Valid()
      ensures socket !in selectionHandlers
      ensures socket !in old(selectionHandlers) ==>
        selectionHandlers == old(selectionHandlers) && activeBattles == old(activeBattles) && outbox == old(outbox)
      ensures socket in old(selectionHandlers) ==>
        var opponent := old(selectionHandlers)[socket];
        && selectionHandlers == old(selectionHandlers) - {socket}
        && (if BothSelected(playerDataCache, socket, opponent) then
              && activeBattles == old(activeBattles)[RoomPrefix + uuid := NewBattle(RoomPrefix + uuid, socket, opponent, playerDataCache)]
              && outbox == old(outbox) + [Emit(opponent, OpponentChosePokemon)]
                   + StartNotices(RoomPrefix + uuid, socket, opponent, playerDataCache)
            else
              && activeBattles == old(activeBattles)
              && outbox == old(outbox) + [Emit(opponent, OpponentChosePokemon)])
    {
      if socket in selectionHandlers {
        var opponent := selectionHandlers[socket];
        selectionHandlers := selectionHandlers - {socket};
        outbox := outbox + [Emit(opponent, OpponentChosePokemon)];
        if playerDataCache[socket].selectedPokemon.Some? && playerDataCache[opponent].selectedPokemon.Some? {
          StartBattle(socket, opponent, uuid);
        }
      }
    }

    /**
     * `startBattle`: register a battle under the room "battle_" + uuid, the
     * faster combatant (ties to player 1) moving first, and tell both players.
     */
    method StartBattle(player1: PlayerId, player2: PlayerId, uuid: string)
      requires Valid()
      requires BothSelected(playerDataCache, player1, player2)
      modifies this`activeBattles, this`outbox
      ensures Valid()
      ensures activeBattles == old(activeBattles)[RoomPrefix + uuid := NewBattle(RoomPrefix + uuid, player1, player2, playerDataCache)]
      ensures outbox == old(outbox) + StartNotices(RoomPrefix + uuid, player1, player2, playerDataCache)
    {
      var roomId := RoomPrefix + uuid;
      outbox := outbox + [Join(player1, roomId), Join(player2, roomId)];
      var data1, data2 := playerDataCache[player1], playerDataCache[player2];
      var speedFirst := SpeedAtLeast(data1.selectedPokemon.value, data2.selectedPokemon.value);
      var firstPlayer := if speedFirst then player1 else player2;
      var gameState := Battle(roomId, player1, player2, data1.selectedPokemon.value, data2.selectedPokemon.value, firstPlayer);
      activeBattles := activeBattles[roomId := gameState];
      outbox := outbox + [Emit(player1, BattleStart(data1.selectedPokemon.value, data2.selectedPokemon.value, firstPlayer == player1, data2.name)),
                          Emit(player2, BattleStart(data2.selectedPokemon.value, data1.selectedPokemon.value, firstPlayer == player2, data1.name))];
    }
  }
}
