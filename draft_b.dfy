/**
 * The second matchmaking coordinator, the class `BattleManager` that
 * server/game_logic/gameState.js holds. Its queue keeps each socket with
 * its data and pairs at most once per arrival; a pair's two combatants are
 * fetched at random and the battle starts at once; moves are routed by room
 * id; a disconnect ends the first battle the player is in and drops the
 * player from the queue.
 *
 * `activeBattles` is a JavaScript Map, which iterates in insertion order;
 * `battleOrder` records that order beside the map. The code after the
 * `await` of `matchPlayers` is modelled as its own method, CompleteMatch.
 */
module DraftB {
  import opened Roster
  import opened Protocol

  /** What a player sends with 'findMatch'; this draft stores it and never reads it. */
  datatype PlayerData = PlayerData(name: string)

  /** One `{ socket, playerData }` entry of the waiting queue. */
  datatype WaitingEntry = WaitingEntry(socket: PlayerId, playerData: PlayerData)

  /**
   * What the game state's `processMove` does with a move: its new state, and
   * the state it hands to its callback, if it calls it.
   */
  datatype MoveOutcome = MoveOutcome(next: Battle, update: Option<Battle>)

  /** The battle lists the player as `player1` or `player2`. */
  predicate Involves(b: Battle, p: PlayerId)
  {
    b.player1 == p || b.player2 == p
  }

  /** The map's keys, each once, in insertion order. */
  ghost predicate OrderedKeys(order: seq<RoomId>, battles: map<RoomId, Battle>)
  {
    && (forall i, j :: 0 <= i < j < |order| ==> order[i] != order[j])
    && (forall r :: r in battles <==> r in order)
  }

  /** The position, in iteration order, of the first battle that lists the player. */
  function FirstBattleOf(order: seq<RoomId>, battles: map<RoomId, Battle>, p: PlayerId): (r: Option<nat>)
    requires forall i :: 0 <= i < |order| ==> order[i] in battles
    ensures r.Some? ==> r.value < |order| && Involves(battles[order[r.value]], p)
    ensures r.Some? ==> forall k :: 0 <= k < r.value ==> !Involves(battles[order[k]], p)
    ensures r.None? ==> forall k :: 0 <= k < |order| ==> !Involves(battles[order[k]], p)
  {
    if order == [] then None
    else if Involves(battles[order[0]], p) then Some(0)
    else
      match FirstBattleOf(order[1..], battles, p)
      case None => None
      case Some(k) => Some(k + 1)
  }

  /** Removing the key at position k keeps the order of the other keys. */
  lemma {:induction false} RemoveAtKeepsOrderedKeys(order: seq<RoomId>, battles: map<RoomId, Battle>, k: nat)
    requires OrderedKeys(order, battles)
    requires k < |order|
    ensures OrderedKeys(order[..k] + order[k + 1..], battles - {order[k]})
  {
  }

  /** The queue without the player's entries (the `filter` of `handlePlayerDisconnect`). */
  function WithoutPlayer(q: seq<WaitingEntry>, p: PlayerId): (r: seq<WaitingEntry>)
    ensures |r| <= |q|
    ensures forall e :: e in r <==> e in q && e.socket != p
  {
    if q == [] then []
    else (if q[0].socket == p then [] else [q[0]]) + WithoutPlayer(q[1..], p)
  }

  /** Filtering commutes with concatenation, so the kept entries keep their relative order. */
  lemma {:induction false} WithoutPlayerKeepsOrder(a: seq<WaitingEntry>, b: seq<WaitingEntry>, p: PlayerId)
    ensures WithoutPlayer(a + b, p) == WithoutPlayer(a, p) + WithoutPlayer(b, p)
  {
    if a != [] {
      var head := if a[0].socket == p then [] else [a[0]];
      assert (a + b)[0] == a[0] && (a + b)[1..] == a[1..] + b;
      WithoutPlayerKeepsOrder(a[1..], b, p);
      var x, y := WithoutPlayer(a[1..], p), WithoutPlayer(b, p);
      assert WithoutPlayer(a + b, p) == head + (x + y);
      assert head + (x + y) == (head + x) + y;
    } else {
      assert a + b == b;
    }
  }

  /** Every entry of another player is kept as often as it occurred; the player's own are all gone. */
  lemma {:induction false} WithoutPlayerCounts(q: seq<WaitingEntry>, p: PlayerId, e: WaitingEntry)
    ensures multiset(WithoutPlayer(q, p))[e] == if e.socket == p then 0 else multiset(q)[e]
  {
    if q != [] {
      WithoutPlayerCounts(q[1..], p, e);
      var head := if q[0].socket == p then [] else [q[0]];
      assert q == [q[0]] + q[1..];
      assert multiset(q) == multiset([q[0]]) + multiset(q[1..]);
      assert multiset(WithoutPlayer(q, p)) == multiset(head) + multiset(WithoutPlayer(q[1..], p));
    }
  }

  /** A queue without entries of the player is left as it is. */
  lemma {:induction false} WithoutAbsentPlayer(q: seq<WaitingEntry>, p: PlayerId)
    requires forall i :: 0 <= i < |q| ==> q[i].socket != p
    ensures WithoutPlayer(q, p) == q
  {
    if q != [] {
      WithoutAbsentPlayer(q[1..], p);
    }
  }

  /** What `createBattleRoom` sends: both sockets join the room, then each gets its 'matchFound'. */
  function MatchFoundNotices(room: RoomId, p1: PlayerId, p2: PlayerId, c1: Combatant, c2: Combatant): seq<Outbound>
  {
    var first := FirstPlayer(p1, p2, c1, c2);
    [Join(p1, room), Join(p2, room),
     Emit(p1, MatchFound(room, true, c1, c2, first == p1)),
     Emit(p2, MatchFound(room, false, c2, c1, first == p2))]
  }

  /**
   * Only player 1's 'matchFound' says `isPlayer1`; player 1 is told it moves
   * first exactly when its speed is at least player 2's; and for two
   * distinct players exactly one of them is told it moves first.
   */
  lemma MatchFoundOneFirstTurn(room: RoomId, p1: PlayerId, p2: PlayerId, c1: Combatant, c2: Combatant)
    requires p1 != p2
    ensures |MatchFoundNotices(room, p1, p2, c1, c2)| == 4
    ensures MatchFoundNotices(room, p1, p2, c1, c2)[2].msg.isPlayer1
    ensures !MatchFoundNotices(room, p1, p2, c1, c2)[3].msg.isPlayer1
    ensures MatchFoundNotices(room, p1, p2, c1, c2)[2].msg.currentTurn <==> SpeedAtLeast(c1, c2)
    ensures MatchFoundNotices(room, p1, p2, c1, c2)[2].msg.currentTurn != MatchFoundNotices(room, p1, p2, c1, c2)[3].msg.currentTurn
  {
  }

  class BattleManager {
    /** Entries waiting for an opponent, oldest first. */
    var waitingPlayers: seq<WaitingEntry>
    /** The keys of `activeBattles` in the order the Map iterates them. */
    var battleOrder: seq<RoomId>
    var activeBattles: map<RoomId, Battle>
    /** Everything sent to sockets, in order. */
    var outbox: seq<Outbound>

    /**
     * At most one player waits between events, since every arrival that
     * makes two pairs them; `battleOrder` lists the Map's keys.
     */
    ghost predicate Valid()
      reads this
    {
      |waitingPlayers| <= 1 && OrderedKeys(battleOrder, activeBattles)
    }

    constructor ()
      ensures Valid()
      ensures waitingPlayers == [] && battleOrder == [] && activeBattles == map[] && outbox == []
    {
      waitingPlayers := [];
      battleOrder := [];
      activeBattles := map[];
      outbox := [];
    }

    /**
     * 'findMatch': queue the entry at the back and, when two or more wait,
     * take the two oldest off the queue. Returns the pair taken, whose
     * combatants are then fetched.
     */
    method MatchPlayers(socket: PlayerId, data: PlayerData) returns (paired: Option<(WaitingEntry, WaitingEntry)>)
      requires Valid()
      modifies this`waitingPlayers
      ensures Valid()
      ensures var q := old(waitingPlayers) + [WaitingEntry(socket, data)];
        if |q| >= 2 then paired == Some((q[0], q[1])) && waitingPlayers == q[2..]
        else paired == None && waitingPlayers == q
    {
      waitingPlayers := waitingPlayers + [WaitingEntry(socket, data)];
      paired := None;
      if |waitingPlayers| >= 2 {
        var player1 := waitingPlayers[0];
        waitingPlayers := waitingPlayers[1..];
        var player2 := waitingPlayers[0];
        waitingPlayers := waitingPlayers[1..];
        paired := Some((player1, player2));
      }
    }

    /**
     * The rest of 'findMatch' once both random fetches settle: if both
     * succeed the battle room is created, otherwise both players get
     * 'Failed to start battle'. The queue is not touched either way.
     */
    method CompleteMatch(player1: WaitingEntry, player2: WaitingEntry, id1: int, id2: int, api: map<int, RawPokemon>, uuid: string)
      requires Valid()
      requires MinPokemonId <= id1 <= MaxPokemonId && MinPokemonId <= id2 <= MaxPokemonId
      modifies this`battleOrder, this`activeBattles, this`outbox
      ensures Valid()
      ensures id1 in api && id2 in api ==>
        var room := RoomPrefix + uuid;
        var c1, c2 := ToCombatant(api[id1]), ToCombatant(api[id2]);
        && activeBattles == old(activeBattles)[room := Battle(room, player1.socket, player2.socket, c1, c2, FirstPlayer(player1.socket, player2.socket, c1, c2))]
        && battleOrder == (if room in old(activeBattles) then old(battleOrder) else old(battleOrder) + [room])
        && outbox == old(outbox) + MatchFoundNotices(room, player1.socket, player2.socket, c1, c2)
      ensures !(id1 in api && id2 in api) ==>
        && activeBattles == old(activeBattles) && battleOrder == old(battleOrder)
        && outbox == old(outbox) + [Emit(player1.socket, Error(FailedToStart)), Emit(player2.socket, Error(FailedToStart))]
    {
      var pokemon1 := FetchPokemon(id1, api);
      var pokemon2 := FetchPokemon(id2, api);
      if pokemon1.Some? && pokemon2.Some? {
        CreateBattleRoom(player1, player2, pokemon1.value, pokemon2.value, uuid);
      } else {
        outbox := outbox + [Emit(player1.socket, Error(FailedToStart)), Emit(player2.socket, Error(FailedToStart))];
      }
    }

    /**
     * `createBattleRoom`: register a battle under the room "battle_" + uuid,
     * the faster combatant (ties to player 1) moving first, and tell both
     * players. A new key goes to the end of the iteration order; an existing
     * key keeps its place.
     */
    method CreateBattleRoom(player1: WaitingEntry, player2: WaitingEntry, pokemon1: Combatant, pokemon2: Combatant, uuid: string)
      requires Valid()
      modifies this`battleOrder, this`activeBattles, this`outbox
      ensures Valid()
      ensures var room := RoomPrefix + uuid;
        && activeBattles == old(activeBattles)[room := Battle(room, player1.socket, player2.socket, pokemon1, pokemon2,
                                                              FirstPlayer(player1.socket, player2.socket, pokemon1, pokemon2))]
        && battleOrder == (if room in old(activeBattles) then old(battleOrder) else old(battleOrder) + [room])
        && outbox == old(outbox) + MatchFoundNotices(room, player1.socket, player2.socket, pokemon1, pokemon2)
    {
      var roomId := RoomPrefix + uuid;
      outbox := outbox + [Join(player1.socket, roomId), Join(player2.socket, roomId)];
      var player1Speed := SpeedAtLeast(pokemon1, pokemon2);
      var firstPlayer := if player1Speed then player1.socket else player2.socket;
      var gameState := Battle(roomId, player1.socket, player2.socket, pokemon1, pokemon2, firstPlayer);
      if roomId !in activeBattles {
        battleOrder := battleOrder + [roomId];
      }
      activeBattles := activeBattles[roomId := gameState];
      outbox := outbox + [Emit(player1.socket, MatchFound(roomId, true, pokemon1, pokemon2, firstPlayer == player1.socket)),
                          Emit(player2.socket, MatchFound(roomId, false, pokemon2, pokemon1, firstPlayer == player2.socket))];
    }

    /**
     * 'playerMove': an unknown room is answered with 'Battle not found' to
     * the sender alone; otherwise the room's game state processes the move
     * and, if it reports an update, the update goes to the whole room.
     */
    method HandlePlayerMove(socket: PlayerId, roomId: RoomId, move: int, processMove: (Battle, PlayerId, int) -> MoveOutcome)
      requires Valid()
      modifies this`activeBattles, this`outbox
      ensures Valid()
      ensures roomId !in old(activeBattles) ==>
        activeBattles == old(activeBattles) && outbox == old(outbox) + [Emit(socket, Error(BattleNotFound))]
      ensures roomId in old(activeBattles) ==>
        var outcome := processMove(old(activeBattles)[roomId], socket, move);
        && activeBattles == old(activeBattles)[roomId := outcome.next]
        && outbox == old(outbox) + (if outcome.update.Some? then [Broadcast(roomId, GameUpdate(outcome.update.value))] else [])
    {
      if roomId !in activeBattles {
        outbox := outbox + [Emit(socket, Error(BattleNotFound))];
        return;
      }
      var outcome := processMove(activeBattles[roomId], socket, move);
      activeBattles := activeBattles[roomId := outcome.next];
      if outcome.update.Some? {
        outbox := outbox + [Broadcast(roomId, GameUpdate(outcome.update.value))];
      }
    }

    /**
     * 'disconnect': end the first battle, in iteration order, that lists the
     * player, telling its other player; then drop every queue entry of the
     * player. Nothing else changes, and a player in no battle and not
     * waiting changes nothing at all.
     */
    method HandlePlayerDisconnect(socket: PlayerId)
      requires Valid()
      modifies this`waitingPlayers, this`battleOrder, this`activeBattles, this`outbox
      ensures Valid()
      ensures waitingPlayers == WithoutPlayer(old(waitingPlayers), socket)
      ensures old(FirstBattleOf(battleOrder, activeBattles, socket)).None? ==>
        battleOrder == old(battleOrder) && activeBattles == old(activeBattles) && outbox == old(outbox)
      ensures old(FirstBattleOf(battleOrder, activeBattles, socket)).Some? ==>
        var k := old(FirstBattleOf(battleOrder, activeBattles, socket)).value;
        var room := old(battleOrder)[k];
        var ended := old(activeBattles)[room];
        && activeBattles == old(activeBattles) - {room}
        && battleOrder == old(battleOrder)[..k] + old(battleOrder)[k + 1..]
        && outbox == old(outbox) + [Emit(if ended.player1 == socket then ended.player2 else ended.player1, OpponentDisconnected)]
      ensures (forall k :: 0 <= k < |old(battleOrder)| ==> !Involves(old(activeBattles)[old(battleOrder)[k]], socket)) &&
              (forall i :: 0 <= i < |old(waitingPlayers)| ==> old(waitingPlayers)[i].socket != socket)
        ==> unchanged(this)
    {
      EndFirstBattleOf(socket);
      if forall k :: 0 <= k < |waitingPlayers| ==> waitingPlayers[k].socket != socket {
        WithoutAbsentPlayer(waitingPlayers, socket);
      }
      waitingPlayers := WithoutPlayer(waitingPlayers, socket);
    }

    /** The battle loop of 'disconnect': delete the first battle listing the player and notify its other player. */
    method EndFirstBattleOf(socket: PlayerId)
      requires OrderedKeys(battleOrder, activeBattles)
      modifies this`battleOrder, this`activeBattles, this`outbox
      ensures OrderedKeys(battleOrder, activeBattles)
      ensures old(FirstBattleOf(battleOrder, activeBattles, socket)).None? ==>
        battleOrder == old(battleOrder) && activeBattles == old(activeBattles) && outbox == old(outbox)
      ensures old(FirstBattleOf(battleOrder, activeBattles, socket)).Some? ==>
        var k := old(FirstBattleOf(battleOrder, activeBattles, socket)).value;
        var room := old(battleOrder)[k];
        var ended := old(activeBattles)[room];
        && activeBattles == old(activeBattles) - {room}
        && battleOrder == old(battleOrder)[..k] + old(battleOrder)[k + 1..]
        && outbox == old(outbox) + [Emit(if ended.player1 == socket then ended.player2 else ended.player1, OpponentDisconnected)]
    {
      ghost var first := FirstBattleOf(battleOrder, activeBattles, socket);
      var i := 0;
      while i < |battleOrder|
        invariant 0 <= i <= |battleOrder|
        invariant battleOrder == old(battleOrder) && activeBattles == old(activeBattles) && outbox == old(outbox)
        invariant forall k :: 0 <= k < i ==> !Involves(activeBattles[battleOrder[k]], socket)
        invariant first.None? || i <= first.value
      {
        var roomId := battleOrder[i];
        var gameState := activeBattles[roomId];
        if gameState.player1 == socket || gameState.player2 == socket {
          assert first == Some(i);
          var opponentId := if gameState.player1 == socket then gameState.player2 else gameState.player1;
          outbox := outbox + [Emit(opponentId, OpponentDisconnected)];
          RemoveAtKeepsOrderedKeys(battleOrder, activeBattles, i);
          activeBattles := activeBattles - {roomId};
          battleOrder := battleOrder[..i] + battleOrder[i + 1..];
          break;
        }
        i := i + 1;
      }
    }
  }
}
