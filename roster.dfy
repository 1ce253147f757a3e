/**
 * The projection both matchmaking drafts apply to a roster record fetched
 * from the creature API: the `stats` array is folded into a name-to-value
 * map, the `types` array is mapped to type names in order, and the `moves`
 * array is cut down to at most four moves learned by level, each reduced to
 * its name and url.
 */
module Roster {

  datatype Option<T> = None | Some(value: T)

  /** The number of moves a combatant keeps. */
  const MaxMoves: nat := 4
  /** The range of ids the random draw picks from. */
  const MinPokemonId: int := 1
  const MaxPokemonId: int := 898

  /** One entry of the record's `stats` array: `stat.name` and `base_stat`. */
  datatype RawStat = RawStat(statName: string, baseStat: int)

  /** One entry of the record's `types` array: `type.name`. */
  datatype RawType = RawType(typeName: string)

  /**
   * One entry of the record's `moves` array: `move.name`, `move.url` and the
   * `level_learned_at` of each of its `version_group_details`.
   */
  datatype RawMove = RawMove(moveName: string, url: string, levelsLearnedAt: seq<int>)

  /** The fields of the fetched record that the projection reads. */
  datatype RawPokemon = RawPokemon(
    id: int,
    name: string,
    stats: seq<RawStat>,
    types: seq<RawType>,
    sprite: Option<string>,   // `sprites.front_default`, which may be null
    moves: seq<RawMove>)

  /** A move as a combatant carries it: only its name and lookup url. */
  datatype MoveRef = MoveRef(name: string, url: string)

  /** A combatant as it is offered to players and stored in a battle. */
  datatype Combatant = Combatant(
    id: int,
    name: string,
    stats: map<string, int>,
    types: seq<string>,
    sprite: Option<string>,
    moves: seq<MoveRef>)

  ghost function StatNames(stats: seq<RawStat>): set<string>
  {
    set i | 0 <= i < |stats| :: stats[i].statName
  }

  /**
   * The `reduce` over `stats`: each entry writes its base value under its
   * name, so a name that occurs twice keeps the value of its last occurrence.
   */
  function FoldStats(stats: seq<RawStat>): (r: map<string, int>)
    ensures r.Keys == StatNames(stats)
  {
    if stats == [] then map[]
    else
      var init, last := stats[..|stats| - 1], stats[|stats| - 1];
      assert StatNames(stats) == StatNames(init) + {last.statName} by {
        assert forall i :: 0 <= i < |init| ==> init[i] == stats[i];
      }
      FoldStats(init)[last.statName := last.baseStat]
  }

  /** The value stored under a name is that of the name's last occurrence. */
  lemma {:induction false} FoldStatsLastWins(stats: seq<RawStat>, i: nat)
    requires i < |stats|
    requires forall j :: i < j < |stats| ==> stats[j].statName != stats[i].statName
    ensures stats[i].statName in FoldStats(stats)
    ensures FoldStats(stats)[stats[i].statName] == stats[i].baseStat
  {
    if i < |stats| - 1 {
      var init := stats[..|stats| - 1];
      FoldStatsLastWins(init, i);
    }
  }

  /** The `map` over `types`: one type name per entry, in source order. */
  function TypeNames(types: seq<RawType>): (r: seq<string>)
    ensures |r| == |types|
    ensures forall i :: 0 <= i < |types| ==> r[i] == types[i].typeName
  {
    if types == [] then [] else [types[0].typeName] + TypeNames(types[1..])
  }

  /** The `filter` test: some version group teaches the move at a level above 0. */
  predicate LearnedByLevel(m: RawMove)
  {
    exists k :: 0 <= k < |m.levelsLearnedAt| && m.levelsLearnedAt[k] > 0
  }

  /** The `filter` over `moves`, keeping source order. */
  function LearnedMoves(moves: seq<RawMove>): (r: seq<RawMove>)
    ensures |r| <= |moves|
    ensures forall k :: 0 <= k < |r| ==> r[k] in moves && LearnedByLevel(r[k])
  {
    if moves == [] then []
    else
      var init, last := LearnedMoves(moves[..|moves| - 1]), moves[|moves| - 1];
      if LearnedByLevel(last) then init + [last] else init
  }

  /** The positions in `moves` of the moves learned by level, in ascending order. */
  function LearnedPositions(moves: seq<RawMove>): seq<nat>
  {
    if moves == [] then []
    else
      var init := LearnedPositions(moves[..|moves| - 1]);
      if LearnedByLevel(moves[|moves| - 1]) then init + [|moves| - 1] else init
  }

  /**
   * LearnedPositions lists exactly the positions of the learned moves:
   * ascending, in range, each one learned, none left out.
   */
  lemma {:induction false} LearnedPositionsExact(moves: seq<RawMove>)
    ensures forall k :: 0 <= k < |LearnedPositions(moves)| ==>
      LearnedPositions(moves)[k] < |moves| && LearnedByLevel(moves[LearnedPositions(moves)[k]])
    ensures forall k, l :: 0 <= k < l < |LearnedPositions(moves)| ==>
      LearnedPositions(moves)[k] < LearnedPositions(moves)[l]
    ensures forall i :: 0 <= i < |moves| && LearnedByLevel(moves[i]) ==> i in LearnedPositions(moves)
  {
    if moves != [] {
      var init := moves[..|moves| - 1];
      LearnedPositionsExact(init);
      assert forall i :: 0 <= i < |init| ==> init[i] == moves[i];
    }
  }

  /** The filtered moves are the moves at the learned positions. */
  lemma {:induction false} LearnedMovesAtPositions(moves: seq<RawMove>)
    ensures |LearnedMoves(moves)| == |LearnedPositions(moves)|
    ensures forall k :: 0 <= k < |LearnedPositions(moves)| ==>
      LearnedPositions(moves)[k] < |moves| && LearnedMoves(moves)[k] == moves[LearnedPositions(moves)[k]]
  {
    if moves != [] {
      var init, last := moves[..|moves| - 1], moves[|moves| - 1];
      LearnedMovesAtPositions(init);
      var positions, learned := LearnedPositions(init), LearnedMoves(init);
      assert forall k :: 0 <= k < |positions| ==> learned[k] == moves[positions[k]];
      if LearnedByLevel(last) {
        assert LearnedPositions(moves) == positions + [|moves| - 1];
        assert LearnedMoves(moves) == learned + [last];
      }
    }
  }

  function Refs(moves: seq<RawMove>): (r: seq<MoveRef>)
    ensures |r| == |moves|
    ensures forall k :: 0 <= k < |moves| ==> r[k] == MoveRef(moves[k].moveName, moves[k].url)
  {
    if moves == [] then [] else [MoveRef(moves[0].moveName, moves[0].url)] + Refs(moves[1..])
  }

  function Min(a: nat, b: nat): nat { if a <= b then a else b }

  /** `simplifyMoves`: filter by level, keep the first four, reduce to name and url. */
  function SimplifyMoves(moves: seq<RawMove>): (r: seq<MoveRef>)
    ensures |r| <= MaxMoves
  {
    var learned := LearnedMoves(moves);
    Refs(learned[..Min(MaxMoves, |learned|)])
  }

  /**
   * SimplifyMoves yields the first min(4, n) of the n moves learned by level,
   * in source order, each carrying only that move's name and url.
   */
  lemma {:induction false} SimplifyMovesFirstLearned(moves: seq<RawMove>)
    ensures |SimplifyMoves(moves)| == Min(MaxMoves, |LearnedPositions(moves)|)
    ensures forall k :: 0 <= k < |SimplifyMoves(moves)| ==>
      LearnedPositions(moves)[k] < |moves| &&
      SimplifyMoves(moves)[k] == MoveRef(moves[LearnedPositions(moves)[k]].moveName, moves[LearnedPositions(moves)[k]].url)
  {
    LearnedMovesAtPositions(moves);
  }

  /** The projection of one fetched record into a combatant. */
  function ToCombatant(raw: RawPokemon): (c: Combatant)
    ensures c.id == raw.id && c.name == raw.name && c.sprite == raw.sprite
    ensures c.stats.Keys == StatNames(raw.stats)
    ensures |c.types| == |raw.types|
    ensures forall i :: 0 <= i < |raw.types| ==> c.types[i] == raw.types[i].typeName
    ensures |c.moves| <= MaxMoves
  {
    Combatant(raw.id, raw.name, FoldStats(raw.stats), TypeNames(raw.types), raw.sprite, SimplifyMoves(raw.moves))
  }

  /**
   * One request to the creature API for `id` followed by the projection;
   * `api` holds the records the API answers with, and an id it lacks stands
   * for a rejected request.
   */
  function FetchPokemon(id: int, api: map<int, RawPokemon>): (r: Option<Combatant>)
    requires MinPokemonId <= id <= MaxPokemonId
    ensures r.Some? <==> id in api
    ensures r.Some? ==> r.value.id == api[id].id && |r.value.moves| <= MaxMoves
  {
    if id in api then Some(ToCombatant(api[id])) else None
  }
}
