/** The "Thought Speed Test" server: the score of a solo test, the brain type read off
    the per-question details, and the multiplayer rooms (join, ready, finish, ranking). */
module BrainSpeed {
  import opened Wrappers
  import opened Text
  import opened Dicts
  import opened Reals
  import Sorting

  // ---------------------------------------------------------------------------
  // Scoring
  // ---------------------------------------------------------------------------

  /** Where `value` lies between `lo` and `hi`, clamped to [0, 1]; 0 for an empty range. */
  function Normalize(value: real, lo: real, hi: real): (r: real)
    ensures hi <= lo ==> r == 0.0
    ensures 0.0 <= r <= 1.0
    ensures lo < hi && value <= lo ==> r == 0.0
    ensures lo < hi && value >= hi ==> r == 1.0
    ensures lo < hi && lo <= value <= hi ==> r * (hi - lo) == value - lo
  {
    if hi <= lo then 0.0
    else
      var t := (value - lo) / (hi - lo);
      QuotientBounds(value - lo, hi - lo);
      if t < 0.0 then 0.0 else if t > 1.0 then 1.0 else t
  }

  lemma QuotientBounds(x: real, d: real)
    requires d > 0.0
    ensures (x / d < 0.0 <==> x < 0.0) && (x / d > 1.0 <==> x > d) && (x / d) * d == x
    ensures x == d ==> x / d == 1.0
  {
  }

  /** A larger value is never placed lower. */
  lemma NormalizeMonotonic(a: real, b: real, lo: real, hi: real)
    requires a <= b
    ensures Normalize(a, lo, hi) <= Normalize(b, lo, hi)
  {
    if lo < hi {
      assert (a - lo) / (hi - lo) <= (b - lo) / (hi - lo) by {
        assert (b - lo) / (hi - lo) - (a - lo) / (hi - lo) == (b - a) / (hi - lo);
      }
    }
  }

  const FastestMs: real := 120.0
  const SlowestMs: real := 1500.0

  /** compute_score: 80 points for accuracy, 20 for speed, where speed falls linearly
      from 120 ms to 1500 ms. */
  function ComputeScore(accuracy: real, avgReactionMs: real): (r: real)
    ensures 0.0 <= accuracy <= 1.0 ==> 0.0 <= r <= 100.0
    ensures avgReactionMs <= FastestMs ==> r == accuracy * 80.0 + 20.0
    ensures avgReactionMs >= SlowestMs ==> r == accuracy * 80.0
  {
    var speed := 1.0 - Normalize(avgReactionMs, FastestMs, SlowestMs);
    accuracy * 80.0 + speed * 20.0
  }

  /** A slower average reaction never raises the score, and a higher accuracy never
      lowers it. */
  lemma ComputeScoreMonotonic(acc1: real, acc2: real, ms1: real, ms2: real)
    requires acc1 <= acc2 && ms2 <= ms1
    ensures ComputeScore(acc1, ms1) <= ComputeScore(acc2, ms2)
  {
    NormalizeMonotonic(ms2, ms1, FastestMs, SlowestMs);
  }

  /** _variance: the population variance; 0 for an empty list. */
  function Variance(values: seq<real>): (r: real)
    ensures values == [] ==> r == 0.0
    ensures r >= 0.0
  {
    if values == [] then 0.0
    else SquaredDeviations(values, Sum(values) / |values| as real) / |values| as real
  }

  /** A list of equal values has no variance. */
  lemma VarianceConstant(values: seq<real>, c: real)
    requires forall i :: 0 <= i < |values| ==> values[i] == c
    ensures Variance(values) == 0.0
  {
    if values != [] {
      SumConstant(values, c);
      assert Sum(values) / |values| as real == c;
      DeviationsFromConstant(values, c);
    }
  }


  /** One entry of the `details` list of a submitted score; a missing key is None. */
  datatype Detail = Detail(accuracy: Option<real>, reactionMs: Option<real>)

  function AccuracyOf(d: Detail): real { d.accuracy.GetOr(0.0) }
  function ReactionOf(d: Detail): real { d.reactionMs.GetOr(800.0) }

  function Accuracies(ds: seq<Detail>): (r: seq<real>)
    ensures |r| == |ds| && forall i :: 0 <= i < |ds| ==> r[i] == AccuracyOf(ds[i])
  {
    if ds == [] then [] else [AccuracyOf(ds[0])] + Accuracies(ds[1..])
  }

  function Reactions(ds: seq<Detail>): (r: seq<real>)
    ensures |r| == |ds| && forall i :: 0 <= i < |ds| ==> r[i] == ReactionOf(ds[i])
  {
    if ds == [] then [] else [ReactionOf(ds[0])] + Reactions(ds[1..])
  }

  const FastThinker := "Hızlı Düşünür"
  const StrategicAnalyst := "Stratejik Analist"
  const CreativeSynthesizer := "Yaratıcı Sentezci"
  const BalancedMind := "Dengeli Zihin"
  const BrainTypes := [FastThinker, StrategicAnalyst, CreativeSynthesizer, BalancedMind]

  predicate FastPattern(ds: seq<Detail>)
    requires ds != []
  {
    Sum(Reactions(ds)) / |ds| as real < 320.0 && Sum(Accuracies(ds)) / |ds| as real > 0.7
  }

  predicate StrategicPattern(ds: seq<Detail>)
    requires ds != []
  {
    Sum(Accuracies(ds)) / |ds| as real > 0.85 && Variance(Reactions(ds)) < 12000.0
  }

  predicate CreativePattern(ds: seq<Detail>)
  {
    Variance(Reactions(ds)) > 70000.0
  }

  /** infer_brain_type: the rules are tried in the order fast, strategic, creative; an
      empty list, or one no rule matches, is balanced. */
  function InferBrainType(ds: seq<Detail>): (r: string)
    ensures r in BrainTypes
    ensures ds == [] ==> r == BalancedMind
    ensures ds != [] ==> (r == FastThinker <==> FastPattern(ds))
    ensures ds != [] ==> (r == StrategicAnalyst <==> !FastPattern(ds) && StrategicPattern(ds))
    ensures ds != [] ==> (r == CreativeSynthesizer <==>
              !FastPattern(ds) && !StrategicPattern(ds) && CreativePattern(ds))
  {
    if ds == [] then BalancedMind
    else if FastPattern(ds) then FastThinker
    else if StrategicPattern(ds) then StrategicAnalyst
    else if CreativePattern(ds) then CreativeSynthesizer
    else BalancedMind
  }

  /** With every reaction time the same, the answers are never "creative". */
  lemma SteadyIsNotCreative(ds: seq<Detail>, ms: real)
    requires forall i :: 0 <= i < |ds| ==> ReactionOf(ds[i]) == ms
    ensures InferBrainType(ds) != CreativeSynthesizer
  {
    VarianceConstant(Reactions(ds), ms);
  }

  // ---------------------------------------------------------------------------
  // Rooms
  // ---------------------------------------------------------------------------

  datatype Status = Waiting | Running | Finished

  /** A player record; `userId` is absent for a record made by the finish handler. */
  datatype Player = Player(userId: Option<int>, ready: bool, score: real, finished: bool,
                           avgReactionMs: Option<real>)

  datatype Room = Room(host: string, players: Dict<string, Player>, status: Status)

  const MaxPlayers: nat := 4
  const CodeAlphabet := "ABCDEFGHIJKLMNOPQRSTUVWXYZ0123456789"
  const CodeLength: nat := 6

  /** The room code of a request: (roomCode or "").upper(). */
  function CodeOf(raw: Option<string>): string
  {
    Upper(raw.GetOr(""))
  }

  /** The user name of a request, cut to 32 characters. */
  function NameOf(raw: string): (r: string)
    ensures |r| <= 32 && |r| <= |raw| && r == raw[..|r|]
  {
    Take(raw, 32)
  }

  /** The code spelled by six draws from the alphabet (random.choice). */
  function CodeFromDraws(draws: seq<nat>): (r: string)
    requires forall i :: 0 <= i < |draws| ==> draws[i] < |CodeAlphabet|
    ensures |r| == |draws| && forall i :: 0 <= i < |r| ==> r[i] in CodeAlphabet
  {
    seq(|draws|, i requires 0 <= i < |draws| => CodeAlphabet[draws[i]])
  }

  function ScoreOf(e: (string, Player)): real { e.1.score }

  function ReadyCount(players: seq<Player>): (r: nat)
    ensures r <= |players|
  {
    if players == [] then 0
    else (if players[0].ready then 1 else 0) + ReadyCount(players[1..])
  }

  /** all(p.finished for p in players if p.ready) */
  predicate AllReadyFinished(players: seq<Player>)
  {
    players == [] || ((!players[0].ready || players[0].finished) && AllReadyFinished(players[1..]))
  }

  /** The finish check holds exactly when every ready player has finished. */
  lemma {:induction false} AllReadyFinishedMeans(players: seq<Player>)
    ensures AllReadyFinished(players) <==>
            forall i :: 0 <= i < |players| && players[i].ready ==> players[i].finished
  {
    if players != [] {
      AllReadyFinishedMeans(players[1..]);
      assert forall i :: 1 <= i < |players| ==> players[i] == players[1..][i - 1];
    }
  }

  /** The players after `name` pressed ready: marked ready if present, unchanged if not. */
  function MarkReady(players: Dict<string, Player>, name: string): (r: Dict<string, Player>)
    ensures Keys(r) == Keys(players)
    ensures forall other :: other != name ==> Get(r, other) == Get(players, other)
    ensures Get(players, name).Some? ==> Get(r, name) == Some(Get(players, name).value.(ready := true))
  {
    match Get(players, name)
    case Some(p) =>
      assert forall other :: (Get(Put(players, name, p.(ready := true)), other)
        == if other == name then Some(p.(ready := true)) else Get(players, other)) by {
        forall other { GetPut(players, name, p.(ready := true), other); }
      }
      Put(players, name, p.(ready := true))
    case None => players
  }

  /** The players after `name` finished: its record (a ready one when missing) carries
      the final score, the reaction time and the finished flag. */
  function MarkFinished(players: Dict<string, Player>, name: string, finalScore: real, reactionMs: real)
    : (r: Dict<string, Player>)
    ensures name in Keys(r)
    ensures forall other :: other != name ==> Get(r, other) == Get(players, other)
    ensures Get(r, name).value.score == finalScore && Get(r, name).value.finished
    ensures Get(r, name).value.avgReactionMs == Some(reactionMs)
    ensures Get(players, name).None? ==> Get(r, name).value.ready
    ensures Get(players, name).Some? ==> Get(r, name).value.ready == Get(players, name).value.ready
    ensures UniqueKeys(players) ==> UniqueKeys(r)
  {
    var before := Get(players, name).GetOr(Player(None, true, 0.0, false, None));
    var after := before.(score := finalScore, avgReactionMs := Some(reactionMs), finished := true);
    assert UniqueKeys(players) ==> UniqueKeys(Put(players, name, after)) by {
      if UniqueKeys(players) { PutUnique(players, name, after); }
    }
    assert forall other :: (Get(Put(players, name, after), other)
      == if other == name then Some(after) else Get(players, other)) by {
      forall other { GetPut(players, name, after, other); }
    }
    Put(players, name, after)
  }

  /** The rooms every handler shares, and the match each running room belongs to. */
  class Rooms {
    var rooms: map<string, Room>
    var activeMatches: map<string, nat>

    /** Every room's players are keyed by distinct names. */
    ghost predicate Valid()
      reads this
    {
      forall code :: code in rooms ==> UniqueKeys(rooms[code].players)
    }

    constructor()
      ensures rooms == map[] && activeMatches == map[]
      ensures Valid()
    {
      rooms := map[];
      activeMatches := map[];
    }

    /** _gen_room_code: the first drawn code that is not already a room. */
    method GenRoomCode(candidates: seq<seq<nat>>) returns (r: Option<string>)
      requires forall c, i :: c in candidates && 0 <= i < |c| ==> c[i] < |CodeAlphabet|
      requires forall c :: c in candidates ==> |c| == CodeLength
      ensures r.Some? ==> |r.value| == CodeLength && r.value !in rooms
      ensures r.Some? ==> forall i :: 0 <= i < |r.value| ==> r.value[i] in CodeAlphabet
      ensures r.Some? ==> exists k :: (0 <= k < |candidates| && r.value == CodeFromDraws(candidates[k])
                          && forall j :: 0 <= j < k ==> CodeFromDraws(candidates[j]) in rooms)
      ensures r.None? ==> forall j :: 0 <= j < |candidates| ==> CodeFromDraws(candidates[j]) in rooms
    {
      var k := 0;
      while k < |candidates|
        invariant 0 <= k <= |candidates|
        invariant forall j :: 0 <= j < k ==> CodeFromDraws(candidates[j]) in rooms
      {
        assert candidates[k] in candidates;
        var code := CodeFromDraws(candidates[k]);
        if code !in rooms {
          return Some(code);
        }
        k := k + 1;
      }
      return None;
    }

    /** create_room with a code that is not in use: the host is the only player. */
    method CreateRoom(code: string, rawName: string, userId: int)
      requires code !in rooms
      requires Valid()
      modifies this`rooms
      ensures rooms == old(rooms)[code := Room(NameOf(rawName),
                [(NameOf(rawName), Player(Some(userId), false, 0.0, false, None))], Waiting)]
      ensures Valid()
    {
      var name := NameOf(rawName);
      rooms := rooms[code := Room(name, [(name, Player(Some(userId), false, 0.0, false, None))], Waiting)];
    }

    /** join_room_http: an unknown code is refused, then a full room refuses a new name;
        otherwise the player is (re)entered as not ready with score 0. */
    method JoinRoomHttp(rawCode: Option<string>, rawName: string, userId: int)
      returns (r: Result<string>)
      requires Valid()
      modifies this`rooms
      ensures var code, name := CodeOf(rawCode), NameOf(rawName);
        if code !in old(rooms) then r == Err("Room not found") && rooms == old(rooms)
        else if |old(rooms)[code].players| >= MaxPlayers && name !in Keys(old(rooms)[code].players)
        then r == Err("Room full") && rooms == old(rooms)
        else r == Ok(code) && rooms == old(rooms)[code := old(rooms)[code].(players :=
               Put(old(rooms)[code].players, name, Player(Some(userId), false, 0.0, false, None)))]
      ensures Valid()
    {
      var code, name := CodeOf(rawCode), NameOf(rawName);
      if code !in rooms {
        return Err("Room not found");
      }
      var room := rooms[code];
      if |room.players| >= MaxPlayers && name !in Keys(room.players) {
        return Err("Room full");
      }
      PutUnique(room.players, name, Player(Some(userId), false, 0.0, false, None));
      rooms := rooms[code := room.(players := Put(room.players, name, Player(Some(userId), false, 0.0, false, None)))];
      r := Ok(code);
    }

    /** start_match: the room is running and belongs to the new match. */
    method StartMatch(code: string, matchId: nat)
      requires Valid()
      modifies this`rooms, this`activeMatches
      ensures code in old(rooms) ==> (rooms == old(rooms)[code := old(rooms)[code].(status := Running)]
                                    && activeMatches == old(activeMatches)[code := matchId])
      ensures code !in old(rooms) ==> rooms == old(rooms) && activeMatches == old(activeMatches)
      ensures Valid()
    {
      if code in rooms {
        rooms := rooms[code := rooms[code].(status := Running)];
        activeMatches := activeMatches[code := matchId];
      }
    }

    /** on_player_ready: the player (when in the room) is marked ready, and once at least
        two players are ready the match starts (`matchId` is the new match's row id). */
    method OnPlayerReady(rawCode: Option<string>, rawName: string, matchId: nat)
      returns (r: Result<bool>)
      requires Valid()
      modifies this`rooms, this`activeMatches
      ensures var code, name := CodeOf(rawCode), NameOf(rawName);
        if code !in old(rooms) then
          r == Err("Room not found") && rooms == old(rooms) && activeMatches == old(activeMatches)
        else
          var room := old(rooms)[code];
          var players := MarkReady(room.players, name);
          var started := ReadyCount(Values(players)) >= 2;
          r == Ok(started)
          && rooms == old(rooms)[code := room.(players := players,
                                               status := if started then Running else room.status)]
          && activeMatches == if started then old(activeMatches)[code := matchId] else old(activeMatches)
      ensures Valid()
    {
      var code, name := CodeOf(rawCode), NameOf(rawName);
      if code !in rooms {
        return Err("Room not found");
      }
      var room := rooms[code];
      var players := MarkReady(room.players, name);
      assert UniqueKeys(players) by { UniqueByKeys(room.players, players); }
      rooms := rooms[code := room.(players := players)];
      var started := ReadyCount(Values(players)) >= 2;
      if started {
        StartMatch(code, matchId);
      }
      r := Ok(started);
    }

    /** finalize_match: without the room or an active match nothing happens; otherwise the
        players ranked by score, highest first (ties keep their join order), and the room
        finished. */
    method FinalizeMatch(code: string) returns (ranking: Option<seq<(string, Player)>>)
      requires Valid()
      modifies this`rooms
      ensures code !in old(rooms) || code !in activeMatches ==> ranking == None && rooms == old(rooms)
      ensures code in old(rooms) && code in activeMatches ==>
                ranking == Some(Sorting.SortDesc(old(rooms)[code].players, ScoreOf))
                && rooms == old(rooms)[code := old(rooms)[code].(status := Finished)]
      ensures Valid()
    {
      if code !in rooms || code !in activeMatches {
        return None;
      }
      var room := rooms[code];
      ranking := Some(Sorting.SortDesc(room.players, ScoreOf));
      rooms := rooms[code := room.(status := Finished)];
    }

    /** The room's player records replaced. */
    method SetPlayers(code: string, players: Dict<string, Player>)
      requires Valid() && code in rooms && UniqueKeys(players)
      modifies this`rooms
      ensures rooms == old(rooms)[code := old(rooms)[code].(players := players)]
      ensures Valid()
    {
      rooms := rooms[code := rooms[code].(players := players)];
    }

    /** on_finish_match: the player's record (created ready when missing) gets the final
        score, the reaction time and the finished flag; when every ready player has
        finished, the match is finalized and its ranking returned. */
    method OnFinishMatch(rawCode: Option<string>, rawName: string, finalScore: real, reactionMs: real)
      returns (r: Result<Option<seq<(string, Player)>>>)
      requires Valid()
      modifies this`rooms
      ensures var code := CodeOf(rawCode);
        code !in old(rooms) ==> r == Err("Room not found") && rooms == old(rooms)
      ensures var code := CodeOf(rawCode);
        code in old(rooms) ==>
          var players := MarkFinished(old(rooms)[code].players, NameOf(rawName), finalScore, reactionMs);
          r == Ok(FinishRanking(players, code in activeMatches))
          && rooms == old(rooms)[code := FinishRoom(old(rooms)[code], players, code in activeMatches)]
      ensures Valid()
    {
      var code, name := CodeOf(rawCode), NameOf(rawName);
      if code !in rooms {
        return Err("Room not found");
      }
      var room := rooms[code];
      var players := MarkFinished(room.players, name, finalScore, reactionMs);
      SetPlayers(code, players);
      ghost var updated := room.(players := players);
      var ranking := CloseIfDone(code);
      assert updated.(players := players) == updated;
      UpdateTwice(old(rooms), code, updated, FinishRoom(updated, players, code in activeMatches));
      assert FinishRoom(updated, players, code in activeMatches) == FinishRoom(room, players, code in activeMatches);
      r := Ok(ranking);
    }

    /** The end of on_finish_match: the match is finalized when every ready player of
        the room has finished. */
    method CloseIfDone(code: string) returns (ranking: Option<seq<(string, Player)>>)
      requires Valid() && code in rooms
      modifies this`rooms
      ensures ranking == FinishRanking(old(rooms)[code].players, code in activeMatches)
      ensures rooms == old(rooms)[code := FinishRoom(old(rooms)[code], old(rooms)[code].players, code in activeMatches)]
      ensures Valid()
    {
      if AllReadyFinished(Values(rooms[code].players)) {
        ranking := FinalizeMatch(code);
      } else {
        ranking := None;
      }
    }
  }

  lemma UpdateTwice<K, V>(m: map<K, V>, k: K, a: V, b: V)
    ensures m[k := a][k := b] == m[k := b]
  {
  }

  /** The room after a finish: the record updated, and the room finished when every
      ready player is done and a match is active. */
  function FinishRoom(room: Room, players: Dict<string, Player>, active: bool): Room
  {
    if AllReadyFinished(Values(players)) && active then room.(players := players, status := Finished)
    else room.(players := players)
  }

  /** The ranking reported by a finish, when the match is finalized. */
  function FinishRanking(players: Dict<string, Player>, active: bool): Option<seq<(string, Player)>>
  {
    if AllReadyFinished(Values(players)) && active then Some(Sorting.SortDesc(players, ScoreOf))
    else None
  }

  /** A join over HTTP never takes a room past four players unless it already had more
      (a room fills past four only through the socket join, which has no cap). */
  lemma JoinKeepsCap(players: Dict<string, Player>, name: string, p: Player)
    requires !(|players| >= MaxPlayers && name !in Keys(players))
    ensures |Put(players, name, p)| <= MaxPlayers || |Put(players, name, p)| == |players|
  {
    assert |Keys(Put(players, name, p))| == |Put(players, name, p)|;
  }

  /** After a join the player is present, not ready and with score 0, and no other
      player's record changed. */
  lemma JoinRecord(players: Dict<string, Player>, name: string, userId: int, other: string)
    ensures Get(Put(players, name, Player(Some(userId), false, 0.0, false, None)), name)
            == Some(Player(Some(userId), false, 0.0, false, None))
    ensures other != name ==>
      Get(Put(players, name, Player(Some(userId), false, 0.0, false, None)), other) == Get(players, other)
  {
    GetPut(players, name, Player(Some(userId), false, 0.0, false, None), name);
    GetPut(players, name, Player(Some(userId), false, 0.0, false, None), other);
  }

  /** The ranking holds the same players, sorted by score, highest first, and the winner
      (its first entry) has the top score. */
  lemma RankingProperties(players: Dict<string, Player>, e: (string, Player))
    requires e in players
    ensures var ranking := Sorting.SortDesc(players, ScoreOf);
      multiset(ranking) == multiset(players)
      && (forall i, j :: 0 <= i < j < |ranking| ==> ranking[i].1.score >= ranking[j].1.score)
      && ranking[0].1.score >= e.1.score
  {
    Sorting.SortDescSorted(players, ScoreOf);
    Sorting.SortDescFirstIsMax(players, ScoreOf, e);
    var ranking := Sorting.SortDesc(players, ScoreOf);
    forall i, j | 0 <= i < j < |ranking| ensures ranking[i].1.score >= ranking[j].1.score {
      assert ScoreOf(ranking[i]) >= ScoreOf(ranking[j]);
    }
  }
}
