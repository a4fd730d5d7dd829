/** The "Mind Reader" game server: rooms of up to four players plus any number of
    spectators, the thought data each player streams in, the group score of a round
    computed over every pair of players, and removal on disconnect. */
module MindReader {
  import opened Wrappers
  import opened Text
  import opened Dicts
  import opened Reals
  import Json

  datatype Player = Player(name: string, emotion: seq<real>, pupil: real, timing: Option<real>, score: real)

  datatype Room = Room(players: Dict<string, Player>, spectators: set<string>, state: string)

  const MaxPlayers: nat := 4
  const NameLength: nat := 24

  /** {"players": {}, "spectators": set(), "state": "lobby"} */
  function NewRoom(): Room
  {
    Room([], {}, "lobby")
  }

  /** The record of a player who has just joined. */
  function NewPlayer(name: string): Player
  {
    Player(name, [0.33, 0.33, 0.34], 0.5, None, 0.0)
  }

  /** A join to a room: None when a "player" finds four players already there;
      "spectator" adds the sid to the spectators; any other role (re)places the sid's
      player record. */
  function JoinRoom(room: Room, sid: string, name: string, role: string): Option<Room>
  {
    if role == "player" && |room.players| >= MaxPlayers then None
    else if role == "spectator" then Some(room.(spectators := room.spectators + {sid}))
    else Some(room.(players := Put(room.players, sid, NewPlayer(name))))
  }

  /** A "player" join never takes a room past four players, and a spectator join never
      fails and never touches the players. */
  lemma JoinRoomCap(room: Room, sid: string, name: string)
    requires |room.players| <= MaxPlayers
    ensures var r := JoinRoom(room, sid, name, "player");
      r.Some? ==> |r.value.players| <= MaxPlayers && Get(r.value.players, sid) == Some(NewPlayer(name))
    ensures var r := JoinRoom(room, sid, name, "spectator");
      r == Some(room.(spectators := room.spectators + {sid}))
  {
    var r := JoinRoom(room, sid, name, "player");
    if r.Some? {
      GetPut(room.players, sid, NewPlayer(name), sid);
    }
  }

  /** Only the role "player" is capped: a full room still takes a sid that joins with
      another role, as a player. */
  lemma OtherRoleUncapped(room: Room, sid: string, name: string)
    requires |room.players| >= MaxPlayers && sid !in Keys(room.players)
    ensures var r := JoinRoom(room, sid, name, "guest");
      r.Some? && |r.value.players| == |room.players| + 1
  {
  }

  /** A joining player leaves every other player's record as it was. */
  lemma JoinKeepsOthers(room: Room, sid: string, name: string, role: string, other: string)
    requires other != sid
    ensures var r := JoinRoom(room, sid, name, role);
      r.Some? ==> Get(r.value.players, other) == Get(room.players, other)
  {
    GetPut(room.players, sid, NewPlayer(name), other);
  }

  /** What float() makes of a field of the message: the field was not sent, or it
      converted to a number, or the conversion raised (null, a list, an object or a
      non-numeric string). */
  datatype Sent = Absent | Number(x: real) | Failed

  /** The player record after thought_data, and whether the handler raised midway. */
  datatype Outcome = Outcome(player: Player, raised: bool)

  /** thought_data for a player, three assignments in order: the emotion (when sent),
      then float() of the pupil (the old pupil when not sent), then float() of the
      timing (the clock when not sent). A conversion that raises stops the handler, and
      the assignments made before it stay. */
  function ThoughtUpdate(p: Player, emotion: Option<seq<real>>, pupil: Sent, timing: Sent, now: real): (r: Outcome)
    ensures r.player.name == p.name && r.player.score == p.score
    ensures r.raised <==> pupil.Failed? || timing.Failed?
    ensures r.player.emotion == (if emotion.Some? then emotion.value else p.emotion)
    ensures r.player.pupil == (if pupil.Number? then pupil.x else p.pupil)
    ensures pupil.Failed? || timing.Failed? ==> r.player.timing == p.timing
    ensures !pupil.Failed? && timing.Number? ==> r.player.timing == Some(timing.x)
    ensures !pupil.Failed? && timing.Absent? ==> r.player.timing == Some(now)
  {
    var p1 := p.(emotion := emotion.GetOr(p.emotion));
    match pupil
    case Failed => Outcome(p1, true)
    case Number(x) => TimingStep(p1.(pupil := x), timing, now)
    case Absent => TimingStep(p1, timing, now)
  }

  /** The last assignment of thought_data. */
  function TimingStep(p: Player, timing: Sent, now: real): Outcome
  {
    match timing
    case Failed => Outcome(p, true)
    case Number(t) => Outcome(p.(timing := Some(t)), false)
    case Absent => Outcome(p.(timing := Some(now)), false)
  }

  /** A message whose pupil does not convert still replaces the emotion, and leaves the
      pupil and the timing as they were. */
  lemma PartialThoughtUpdate(p: Player, emotion: seq<real>, timing: Sent, now: real)
    ensures var r := ThoughtUpdate(p, Some(emotion), Failed, timing, now);
      r.raised && r.player == p.(emotion := emotion)
  {
  }

  // ---------------------------------------------------------------------------
  // Round scoring
  // ---------------------------------------------------------------------------

  /** The sum of the products of deviations over the pairs zip(a, b) forms. */
  function ZipDeviations(a: seq<real>, b: seq<real>, ma: real, mb: real): real
  {
    if a == [] || b == [] then 0.0 else (a[0] - ma) * (b[0] - mb) + ZipDeviations(a[1..], b[1..], ma, mb)
  }

  /** corr: Pearson's correlation of the two emotion vectors, 0 when either has no
      spread, clamped to [-1, 1]. The square root is a parameter. */
  function Corr(a: seq<real>, b: seq<real>, sqrt: real -> real): (r: real)
    requires a != [] && b != []
    ensures -1.0 <= r <= 1.0
    ensures sqrt(SquaredDeviations(a, Sum(a) / |a| as real)) == 0.0 ==> r == 0.0
    ensures sqrt(SquaredDeviations(b, Sum(b) / |b| as real)) == 0.0 ==> r == 0.0
  {
    var ma := Sum(a) / |a| as real;
    var mb := Sum(b) / |b| as real;
    var num := ZipDeviations(a, b, ma, mb);
    var denA := sqrt(SquaredDeviations(a, ma));
    var denB := sqrt(SquaredDeviations(b, mb));
    if denA == 0.0 || denB == 0.0 then 0.0 else Clamp(num / (denA * denB), -1.0, 1.0)
  }

  /** A player whose emotions are all equal correlates with nobody, given that the
      square root of 0 is 0. */
  lemma CorrConstant(a: seq<real>, b: seq<real>, c: real, sqrt: real -> real)
    requires a != [] && b != [] && sqrt(0.0) == 0.0
    requires forall i :: 0 <= i < |a| ==> a[i] == c
    ensures Corr(a, b, sqrt) == 0.0
  {
    SumConstant(a, c);
    assert Sum(a) / |a| as real == c;
    DeviationsFromConstant(a, c);
  }

  /** `p["timing"] or t_max`: a missing timing, and also a timing of exactly 0, reads
      as the latest timing. */
  function TimingOr(t: Option<real>, tMax: real): real
  {
    if t.Some? && t.value != 0.0 then t.value else tMax
  }

  /** The latest timing of the players that have one. */
  function MaxTiming(ps: seq<Player>): (r: Option<real>)
    ensures r.None? <==> forall i :: 0 <= i < |ps| ==> ps[i].timing.None?
    ensures r.Some? ==> forall i :: 0 <= i < |ps| && ps[i].timing.Some? ==> ps[i].timing.value <= r.value
  {
    if ps == [] then None
    else
      var rest := MaxTiming(ps[1..]);
      assert forall i :: 1 <= i < |ps| ==> ps[i] == ps[1..][i - 1];
      if ps[0].timing.None? then rest
      else if rest.None? then ps[0].timing
      else Some(Max(ps[0].timing.value, rest.value))
  }

  /** t_max, with the clock standing in when no player has a timing yet. */
  function LatestTiming(ps: seq<Player>, now: real): real
  {
    MaxTiming(ps).GetOr(now)
  }

  predicate HasEmotions(ps: seq<Player>)
  {
    forall i :: 0 <= i < |ps| ==> ps[i].emotion != []
  }

  /** The score of one pair: 60% emotional correlation, 20% pupil sync, 20% timing sync,
      each part within [0, 1]. An empty emotion list makes corr divide by zero; the
      round handler stops before that, and the model scores such a pair 0. */
  function PairScore(p1: Player, p2: Player, tMax: real, sqrt: real -> real): (r: real)
    ensures 0.0 <= r <= 1.0
  {
    if p1.emotion == [] || p2.emotion == [] then 0.0
    else
      var emotionC := (Corr(p1.emotion, p2.emotion, sqrt) + 1.0) / 2.0;
      var pupilSync := 1.0 - Min(1.0, Abs(p1.pupil - p2.pupil));
      var dt := Abs(TimingOr(p1.timing, tMax) - TimingOr(p2.timing, tMax));
      var timingSync := 1.0 - Min(1.0, dt / 5.0);
      emotionC * 0.6 + pupilSync * 0.2 + timingSync * 0.2
  }

  /** The pair score with t_max and the square root fixed. */
  function Scorer(tMax: real, sqrt: real -> real): (Player, Player) -> real
  {
    (p1: Player, p2: Player) => PairScore(p1, p2, tMax, sqrt)
  }

  /** The pairs (i, j) for i < j < m, in loop order. */
  function Row(i: nat, m: nat): (r: seq<(nat, nat)>)
    ensures |r| == if m <= i + 1 then 0 else m - i - 1
    ensures forall k :: 0 <= k < |r| ==> r[k] == (i, i + 1 + k)
  {
    if m <= i + 1 then [] else Row(i, m - 1) + [(i, m - 1)]
  }

  /** All pairs visited by the nested loops before the outer index reaches i. */
  function PairsBelow(i: nat, n: nat): seq<(nat, nat)>
  {
    if i == 0 then [] else PairsBelow(i - 1, n) + Row(i - 1, n)
  }

  /** Every pair listed has i < j < n, and its first component is below the outer index. */
  lemma {:induction false} PairsBelowRange(i: nat, n: nat)
    ensures forall k :: 0 <= k < |PairsBelow(i, n)| ==>
      PairsBelow(i, n)[k].0 < i && PairsBelow(i, n)[k].0 < PairsBelow(i, n)[k].1 < n
  {
    if i > 0 {
      PairsBelowRange(i - 1, n);
      var prev := PairsBelow(i - 1, n);
      var row := Row(i - 1, n);
      var all: seq<(nat, nat)> := prev + row;
      forall k | 0 <= k < |all| ensures all[k].0 < i && all[k].0 < all[k].1 < n {
        if k >= |prev| {
          assert all[k] == row[k - |prev|];
        }
      }
    }
  }

  /** Every pair a < b < n with a below the outer index is listed. */
  lemma {:induction false} PairsBelowComplete(i: nat, n: nat, a: nat, b: nat)
    requires a < i && a < b < n
    ensures (a, b) in PairsBelow(i, n)
  {
    var prev := PairsBelow(i - 1, n);
    var row := Row(i - 1, n);
    if a < i - 1 {
      PairsBelowComplete(i - 1, n, a, b);
    } else {
      var all: seq<(nat, nat)> := prev + row;
      assert all[|prev| + (b - a - 1)] == row[b - a - 1] == (a, b);
    }
  }

  /** No pair is listed twice. */
  lemma {:induction false} PairsBelowDistinct(i: nat, n: nat)
    ensures forall k, l :: 0 <= k < l < |PairsBelow(i, n)| ==> PairsBelow(i, n)[k] != PairsBelow(i, n)[l]
  {
    if i > 0 {
      PairsBelowDistinct(i - 1, n);
      PairsBelowRange(i - 1, n);
      var prev := PairsBelow(i - 1, n);
      var row := Row(i - 1, n);
      var all: seq<(nat, nat)> := prev + row;
      forall k, l | 0 <= k < l < |all| ensures all[k] != all[l] {
        if k >= |prev| {
          assert all[k] == row[k - |prev|] && all[l] == row[l - |prev|];
        } else if l >= |prev| {
          assert all[k] == prev[k] && all[l] == row[l - |prev|];
        } else {
          assert all[k] == prev[k] && all[l] == prev[l];
        }
      }
    }
  }

  /** The number of pairs: n(n - 1) / 2 once the outer loop has run to the end. */
  lemma {:induction false} PairsBelowCount(i: nat, n: nat)
    requires i <= n
    ensures 2 * |PairsBelow(i, n)| == i * (2 * n - i - 1)
  {
    if i > 0 {
      PairsBelowCount(i - 1, n);
      var p := |PairsBelow(i - 1, n)|;
      assert |PairsBelow(i, n)| == p + (n - i);
      CountStep(i, n, p);
    }
  }

  /** The arithmetic of one more row: adding the n - i pairs of row i - 1. */
  lemma CountStep(i: int, n: int, p: int)
    requires 2 * p == (i - 1) * (2 * n - i)
    ensures 2 * (p + (n - i)) == i * (2 * n - i - 1)
  {
    assert (i - 1) * (2 * n - i) == i * (2 * n - i) - (2 * n - i);
    assert i * (2 * n - i) == i * (2 * n - i - 1) + i;
  }

  /** The scores of the pairs (i, j) for i < j < m, in loop order. */
  function RowScores<P>(ps: seq<P>, i: nat, m: nat, f: (P, P) -> real): (r: seq<real>)
    requires i < m <= |ps|
    ensures |r| == m - i - 1
    decreases m
  {
    if m == i + 1 then [] else RowScores(ps, i, m - 1, f) + [f(ps[i], ps[m - 1])]
  }

  /** The scores computed before the outer index reaches i. */
  function ScoresBelow<P>(ps: seq<P>, i: nat, f: (P, P) -> real): (r: seq<real>)
    requires i <= |ps|
    ensures |r| == |PairsBelow(i, |ps|)|
  {
    if i == 0 then [] else ScoresBelow(ps, i - 1, f) + RowScores(ps, i - 1, |ps|, f)
  }

  /** Score k is the score of pair k. */
  lemma {:induction false} ScoresMatchPairs<P>(ps: seq<P>, i: nat, f: (P, P) -> real)
    requires i <= |ps|
    ensures forall k :: 0 <= k < |PairsBelow(i, |ps|)| ==>
      PairsBelow(i, |ps|)[k].0 < PairsBelow(i, |ps|)[k].1 < |ps|
      && ScoresBelow(ps, i, f)[k] == f(ps[PairsBelow(i, |ps|)[k].0], ps[PairsBelow(i, |ps|)[k].1])
  {
    if i > 0 {
      ScoresMatchPairs(ps, i - 1, f);
      RowScoresMatch(ps, i - 1, |ps|, f);
      var row := RowScores(ps, i - 1, |ps|, f);
      var rowPairs := Row(i - 1, |ps|);
      var below := ScoresBelow(ps, i - 1, f);
      var pairs := PairsBelow(i - 1, |ps|);
      assert ScoresBelow(ps, i, f) == below + row;
      assert PairsBelow(i, |ps|) == pairs + rowPairs;
      assert forall k :: 0 <= k < |rowPairs| ==>
        rowPairs[k].0 < rowPairs[k].1 < |ps| && row[k] == f(ps[rowPairs[k].0], ps[rowPairs[k].1]);
      MatchAppend(ps, f, below, row, pairs, rowPairs);
    }
  }

  /** Scores that match their pairs, joined, still match. */
  lemma MatchAppend<P>(ps: seq<P>, f: (P, P) -> real, a: seq<real>, b: seq<real>,
                       p: seq<(nat, nat)>, q: seq<(nat, nat)>)
    requires |a| == |p| && |b| == |q|
    requires forall k :: 0 <= k < |p| ==> p[k].0 < p[k].1 < |ps| && a[k] == f(ps[p[k].0], ps[p[k].1])
    requires forall k :: 0 <= k < |q| ==> q[k].0 < q[k].1 < |ps| && b[k] == f(ps[q[k].0], ps[q[k].1])
    ensures forall k :: 0 <= k < |p + q| ==>
      (p + q)[k].0 < (p + q)[k].1 < |ps| && (a + b)[k] == f(ps[(p + q)[k].0], ps[(p + q)[k].1])
  {
    forall k | 0 <= k < |p + q|
      ensures (p + q)[k].0 < (p + q)[k].1 < |ps| && (a + b)[k] == f(ps[(p + q)[k].0], ps[(p + q)[k].1])
    {
      if k < |p| {
        assert (p + q)[k] == p[k] && (a + b)[k] == a[k];
      } else {
        assert (p + q)[k] == q[k - |p|] && (a + b)[k] == b[k - |p|];
      }
    }
  }

  lemma {:induction false} RowScoresMatch<P>(ps: seq<P>, i: nat, m: nat, f: (P, P) -> real)
    requires i < m <= |ps|
    ensures forall k :: 0 <= k < m - i - 1 ==> RowScores(ps, i, m, f)[k] == f(ps[i], ps[i + 1 + k])
    decreases m
  {
    if m > i + 1 {
      RowScoresMatch(ps, i, m - 1, f);
    }
  }

  /** The nested loops of submit_round: one score per pair (i, j) with i < j, in order. */
  method PairScores<P>(ps: seq<P>, f: (P, P) -> real) returns (scores: seq<real>)
    ensures scores == ScoresBelow(ps, |ps|, f)
  {
    var n := |ps|;
    scores := [];
    var i := 0;
    while i < n
      invariant 0 <= i <= n
      invariant scores == ScoresBelow(ps, i, f)
    {
      scores := AppendRow(ps, i, f, scores);
      i := i + 1;
    }
  }

  /** The inner loop of the pair scoring: the scores of (i, j) for every j > i appended
      in order. */
  method AppendRow<P>(ps: seq<P>, i: nat, f: (P, P) -> real, below: seq<real>) returns (scores: seq<real>)
    requires i < |ps|
    ensures scores == below + RowScores(ps, i, |ps|, f)
  {
    var j := i + 1;
    scores := below;
    assert below + RowScores(ps, i, j, f) == below;
    while j < |ps|
      invariant i + 1 <= j <= |ps|
      invariant scores == below + RowScores(ps, i, j, f)
    {
      ghost var row := RowScores(ps, i, j, f);
      assert RowScores(ps, i, j + 1, f) == row + [f(ps[i], ps[j])];
      assert below + row + [f(ps[i], ps[j])] == below + (row + [f(ps[i], ps[j])]);
      scores := scores + [f(ps[i], ps[j])];
      j := j + 1;
    }
  }

  /** The group score of a round: the mean pair score as a percentage. */
  function GroupScore(ps: seq<Player>, now: real, sqrt: real -> real): (g: real)
    requires |ps| >= 2
    ensures 0.0 <= g <= 100.0
  {
    var f := Scorer(LatestTiming(ps, now), sqrt);
    var scores := ScoresBelow(ps, |ps|, f);
    RoundScoresBounded(ps, LatestTiming(ps, now), sqrt);
    MeanBounds(scores);
    Sum(scores) / |scores| as real * 100.0
  }

  /** A round has at least one pair, and every pair score lies in [0, 1]. */
  lemma RoundScoresBounded(ps: seq<Player>, tMax: real, sqrt: real -> real)
    requires |ps| >= 2
    ensures var scores := ScoresBelow(ps, |ps|, Scorer(tMax, sqrt));
      |scores| > 0 && forall k :: 0 <= k < |scores| ==> 0.0 <= scores[k] <= 1.0
  {
    PairsBelowComplete(|ps|, |ps|, 0, 1);
    ScoresMatchPairs(ps, |ps|, Scorer(tMax, sqrt));
  }

  /** The mean of a non-empty list of values in [0, 1] lies in [0, 1]. */
  lemma MeanBounds(scores: seq<real>)
    requires |scores| > 0 && forall k :: 0 <= k < |scores| ==> 0.0 <= scores[k] <= 1.0
    ensures 0.0 <= Sum(scores) / |scores| as real <= 1.0
  {
    SumBounds(scores, 0.0, 1.0);
    QuotientSign(Sum(scores), |scores| as real);
  }

  /** The computation of the group score: the pair loop, then the mean as a percentage. */
  method RoundScore(ps: seq<Player>, now: real, sqrt: real -> real) returns (g: real)
    requires |ps| >= 2
    ensures g == GroupScore(ps, now, sqrt)
  {
    var scores := PairScores(ps, Scorer(LatestTiming(ps, now), sqrt));
    g := Sum(scores) / |scores| as real * 100.0;
  }

  /** Every player's score set to the group score. */
  function WithScore(players: Dict<string, Player>, g: real): (r: Dict<string, Player>)
    ensures |r| == |players|
    ensures forall k :: 0 <= k < |r| ==> r[k] == (players[k].0, players[k].1.(score := g))
  {
    seq(|players|, k requires 0 <= k < |players| => (players[k].0, players[k].1.(score := g)))
  }

  /** The players after the first n of them were given score g; the others as they were. */
  function ScoredUpTo(players: Dict<string, Player>, g: real, n: nat): (r: Dict<string, Player>)
    requires n <= |players|
    ensures |r| == |players|
    ensures forall k :: 0 <= k < n ==> r[k] == (players[k].0, players[k].1.(score := g))
    ensures forall k :: n <= k < |r| ==> r[k] == players[k]
  {
    WithScore(players[..n], g) + players[n..]
  }

  /** Scoring all of the players is WithScore. */
  lemma ScoredAll(players: Dict<string, Player>, g: real)
    ensures ScoredUpTo(players, g, |players|) == WithScore(players, g)
  {
    var all := ScoredUpTo(players, g, |players|);
    var w := WithScore(players, g);
    forall k | 0 <= k < |all| ensures all[k] == w[k] {
      assert all[k] == (players[k].0, players[k].1.(score := g));
    }
  }

  /** Scoring any number of the players keeps the sids in their order. */
  lemma ScoredKeys(players: Dict<string, Player>, g: real, n: nat)
    requires n <= |players|
    ensures Keys(ScoredUpTo(players, g, n)) == Keys(players)
  {
    var r := ScoredUpTo(players, g, n);
    var kr, kp := Keys(r), Keys(players);
    forall k | 0 <= k < |kr| ensures kr[k] == kp[k] {
      assert kr[k] == r[k].0 && kp[k] == players[k].0;
    }
  }

  /** What the scores table takes in its category column: a value sqlite3 can bind that is
      not null (the column is TEXT NOT NULL). */
  predicate Storable(category: Json.Json)
  {
    Json.Bindable(category) && !category.JNull?
  }

  /** The assignment loop over the players, each assignment followed by the INSERT of
      that player's row. When the row is refused the INSERT raises, so the loop stops
      right after the first assignment. */
  method AssignScores(players: Dict<string, Player>, g: real, stored: bool) returns (r: Dict<string, Player>)
    ensures r == ScoredUpTo(players, g, if stored || players == [] then |players| else 1)
  {
    r := players;
    var k := 0;
    while k < |r| && (stored || k == 0)
      invariant 0 <= k <= |r| == |players|
      invariant !stored ==> k <= 1
      invariant forall m :: 0 <= m < k ==> r[m] == (players[m].0, players[m].1.(score := g))
      invariant forall m :: k <= m < |r| ==> r[m] == players[m]
    {
      r := r[k := (r[k].0, r[k].1.(score := g))];
      k := k + 1;
    }
  }

  /** Disconnecting removes the sid from a room's players and spectators. */
  function Leave(room: Room, sid: string): (r: Room)
    ensures sid !in Keys(r.players) && sid !in r.spectators
    ensures r.state == room.state && r.spectators == room.spectators - {sid}
  {
    room.(players := Remove(room.players, sid), spectators := room.spectators - {sid})
  }

  /** Every other member keeps its record. */
  lemma LeaveKeepsOthers(room: Room, sid: string, other: string)
    requires other != sid
    ensures Get(Leave(room, sid).players, other) == Get(room.players, other)
    ensures other in room.spectators <==> other in Leave(room, sid).spectators
  {
    GetRemove(room.players, sid, other);
  }

  /** The module-level `rooms` dict. */
  class Registry {
    var rooms: map<string, Room>

    ghost predicate Valid()
      reads this
    {
      forall code :: code in rooms ==> UniqueKeys(rooms[code].players)
    }

    constructor ()
      ensures Valid() && rooms == map[]
    {
      rooms := map[];
    }

    /** create_room: a fresh room under a code the caller drew. */
    method CreateRoom(code: string)
      requires Valid()
      modifies this`rooms
      ensures Valid() && rooms == old(rooms)[code := NewRoom()]
    {
      rooms := rooms[code := NewRoom()];
    }

    /** on_join: the code upper-cased, the name cut to 24 characters, the role "player"
        unless given. An unknown code gets a fresh lobby room first, even when the join
        is then refused. */
    method OnJoin(rawCode: Option<string>, rawName: Option<string>, role: Option<string>, sid: string)
        returns (r: Result<string>)
      requires Valid()
      modifies this`rooms
      ensures Valid()
      ensures var code := Upper(rawCode.GetOr(""));
        var room := if code in old(rooms) then old(rooms)[code] else NewRoom();
        var joined := JoinRoom(room, sid, Take(rawName.GetOr("Anon"), NameLength), role.GetOr("player"));
        code in rooms
        && (joined.None? ==> r == Err("Room full. Join as spectator.") && rooms == old(rooms)[code := room])
        && (joined.Some? ==> r == Ok(code) && rooms == old(rooms)[code := joined.value])
    {
      var code := Upper(rawCode.GetOr(""));
      var name := Take(rawName.GetOr("Anon"), NameLength);
      OpenRoom(code);
      ghost var room := rooms[code];
      r := JoinOpenRoom(code, sid, name, role.GetOr("player"));
      ghost var joined := JoinRoom(room, sid, name, role.GetOr("player"));
      if joined.Some? {
        assert old(rooms)[code := room][code := joined.value] == old(rooms)[code := joined.value];
      }
    }

    /** The room under `code`, created as a fresh lobby when missing. */
    method OpenRoom(code: string)
      requires Valid()
      modifies this`rooms
      ensures Valid() && code in rooms
      ensures rooms == old(rooms)[code := if code in old(rooms) then old(rooms)[code] else NewRoom()]
    {
      if code !in rooms {
        rooms := rooms[code := NewRoom()];
      }
    }

    /** The join itself, once the room exists. */
    method JoinOpenRoom(code: string, sid: string, name: string, role: string) returns (r: Result<string>)
      requires Valid() && code in rooms
      modifies this`rooms
      ensures Valid()
      ensures var joined := JoinRoom(old(rooms)[code], sid, name, role);
        && (joined.None? ==> r == Err("Room full. Join as spectator.") && rooms == old(rooms))
        && (joined.Some? ==> r == Ok(code) && rooms == old(rooms)[code := joined.value])
    {
      var room := rooms[code];
      var joined := JoinRoom(room, sid, name, role);
      if joined.None? {
        return Err("Room full. Join as spectator.");
      }
      PutUnique(room.players, sid, NewPlayer(name));
      rooms := rooms[code := joined.value];
      r := Ok(code);
    }

    /** on_thought_data: only a player of the named room is updated; anything else
        changes nothing. The record is updated in place, so the assignments made before
        a failed float() stay, and the handler reports that it raised. */
    method OnThoughtData(code: Option<string>, sid: string, emotion: Option<seq<real>>, pupil: Sent,
                         timing: Sent, now: real) returns (raised: bool)
      requires Valid()
      modifies this`rooms
      ensures Valid()
      ensures (code.None? || code.value !in old(rooms) || Get(old(rooms)[code.value].players, sid).None?)
        ==> rooms == old(rooms) && !raised
      ensures code.Some? && code.value in old(rooms) && Get(old(rooms)[code.value].players, sid).Some? ==>
        var room := old(rooms)[code.value];
        var r := ThoughtUpdate(Get(room.players, sid).value, emotion, pupil, timing, now);
        raised == r.raised
        && rooms == old(rooms)[code.value := room.(players := Put(room.players, sid, r.player))]
    {
      if code.None? || code.value !in rooms {
        return false;
      }
      var room := rooms[code.value];
      var player := Get(room.players, sid);
      if player.None? {
        return false;
      }
      var r := ThoughtUpdate(player.value, emotion, pupil, timing, now);
      PutUnique(room.players, sid, r.player);
      rooms := rooms[code.value := room.(players := Put(room.players, sid, r.player))];
      raised := r.raised;
    }

    /** on_submit_round with category = data.get("category", "genel"): nothing with
        fewer than two players (or an unknown room). Otherwise the group score over all
        pairs goes to the players one by one, each followed by the INSERT of its row. A
        player with an empty emotion list makes corr divide by zero, so the handler
        raises before anything changes; a category the scores table refuses makes the
        first INSERT raise, after only the first player was given the score. The group
        score is returned only when the handler reaches round_result. */
    method OnSubmitRound(code: Option<string>, category: Json.Json, now: real, sqrt: real -> real)
      returns (groupScore: Option<real>, raised: bool)
      requires Valid()
      modifies this`rooms
      ensures Valid()
      ensures var entered := code.Some? && code.value in old(rooms) && |old(rooms)[code.value].players| >= 2;
        && (groupScore.Some? <==>
              entered && HasEmotions(Values(old(rooms)[code.value].players)) && Storable(category))
        && (raised <==>
              entered && (!HasEmotions(Values(old(rooms)[code.value].players)) || !Storable(category)))
        && (!entered || !HasEmotions(Values(old(rooms)[code.value].players)) ==> rooms == old(rooms))
      ensures code.Some? && code.value in old(rooms) && |old(rooms)[code.value].players| >= 2
              && HasEmotions(Values(old(rooms)[code.value].players)) ==>
        var room := old(rooms)[code.value];
        var g := GroupScore(Values(room.players), now, sqrt);
        0.0 <= g <= 100.0
        && (groupScore.Some? ==> groupScore.value == g)
        && rooms == old(rooms)[code.value :=
             room.(players := ScoredUpTo(room.players, g, if Storable(category) then |room.players| else 1))]
    {
      if code.None? || code.value !in rooms {
        return None, false;
      }
      var room := rooms[code.value];
      if |room.players| < 2 {
        return None, false;
      }
      var ps := Values(room.players);
      if !HasEmotions(ps) {
        return None, true;
      }
      var g := RoundScore(ps, now, sqrt);
      var stored := Storable(category);
      var players := AssignScores(room.players, g, stored);
      ScoredKeys(room.players, g, if stored then |room.players| else 1);
      UniqueByKeys(room.players, players);
      rooms := rooms[code.value := room.(players := players)];
      if stored {
        groupScore, raised := Some(g), false;
      } else {
        groupScore, raised := None, true;
      }
    }

    /** on_disconnect: the sid leaves the players and the spectators of every room. */
    method OnDisconnect(sid: string)
      requires Valid()
      modifies this`rooms
      ensures Valid()
      ensures rooms.Keys == old(rooms).Keys
      ensures forall code :: code in rooms ==> rooms[code] == Leave(old(rooms)[code], sid)
    {
      var pending := rooms.Keys;
      while pending != {}
        invariant pending <= rooms.Keys && rooms.Keys == old(rooms).Keys
        invariant Valid()
        invariant forall code :: code in rooms && code !in pending ==> rooms[code] == Leave(old(rooms)[code], sid)
        invariant forall code :: code in pending ==> rooms[code] == old(rooms)[code]
        decreases pending
      {
        var code :| code in pending;
        LeaveRoom(code, sid);
        pending := pending - {code};
      }
    }

    /** One room of the disconnect loop: the sid dropped from its players and
        spectators. */
    method LeaveRoom(code: string, sid: string)
      requires Valid() && code in rooms
      modifies this`rooms
      ensures Valid()
      ensures rooms == old(rooms)[code := Leave(old(rooms)[code], sid)]
    {
      RemoveUnique(rooms[code].players, sid);
      rooms := rooms[code := Leave(rooms[code], sid)];
    }
  }

  /** A round gives every player of the room the same score. */
  lemma SameScoreForAll(players: Dict<string, Player>, g: real)
    ensures forall k, l :: 0 <= k < l < |WithScore(players, g)| ==>
      WithScore(players, g)[k].1.score == WithScore(players, g)[l].1.score == g
    ensures Keys(WithScore(players, g)) == Keys(players)
  {
    var r := WithScore(players, g);
    assert forall k :: 0 <= k < |r| ==> Keys(r)[k] == r[k].0 == players[k].0 == Keys(players)[k];
  }
}
