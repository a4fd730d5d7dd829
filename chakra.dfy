/** The aura scanner's client-side chakra panel: each of the seven chakras, in a fixed
    order, with its colour, its score from the server's map (50 when missing or null)
    and its state. */
module ChakraPanel {
  import opened Wrappers

  const ChakraMeta: seq<(string, string)> := [
    ("Kök", "#ff4d5a"),
    ("Sakral", "#ff9a44"),
    ("Solar", "#f9d55b"),
    ("Kalp", "#37e6a1"),
    ("Boğaz", "#45b2ff"),
    ("Üçüncü Göz", "#5261ff"),
    ("Taç", "#a874ff")
  ]

  const Unbalanced := "Dengesiz"
  const Flowing := "Akışta"
  const DefaultScore: real := 50.0
  const BalanceThreshold: real := 55.0

  datatype ChakraStatus = ChakraStatus(name: string, color: string, score: real, state: string)

  /** chakra[name] ?? 50: an absent key and a null value both read as 50. */
  function ScoreOf(chakra: map<string, Option<real>>, name: string): (r: real)
    ensures name !in chakra || chakra[name].None? ==> r == DefaultScore
    ensures name in chakra && chakra[name].Some? ==> r == chakra[name].value
  {
    if name in chakra && chakra[name].Some? then chakra[name].value else DefaultScore
  }

  function Status(chakra: map<string, Option<real>>, meta: (string, string)): (s: ChakraStatus)
    ensures s.name == meta.0 && s.color == meta.1 && s.score == ScoreOf(chakra, meta.0)
    ensures s.state == Unbalanced <==> s.score < BalanceThreshold
    ensures s.state == Flowing <==> s.score >= BalanceThreshold
  {
    var score := ScoreOf(chakra, meta.0);
    ChakraStatus(meta.0, meta.1, score, if score < BalanceThreshold then Unbalanced else Flowing)
  }

  /** chakraStatusMap over a metadata table (ChakraMeta): one status per entry, in order. */
  function ChakraStatusMap(chakra: map<string, Option<real>>, meta: seq<(string, string)>): (r: seq<ChakraStatus>)
    ensures |r| == |meta|
    ensures forall i :: 0 <= i < |meta| ==> r[i] == Status(chakra, meta[i])
  {
    if meta == [] then [] else [Status(chakra, meta[0])] + ChakraStatusMap(chakra, meta[1..])
  }

  /** Only the keys named in the table matter: two score maps that agree on those give
      the same panel. */
  lemma {:induction false} OnlyChakraKeysMatter(c1: map<string, Option<real>>, c2: map<string, Option<real>>,
                                                meta: seq<(string, string)>)
    requires forall m :: m in meta ==> (m.0 in c1 <==> m.0 in c2) && (m.0 in c1 ==> c1[m.0] == c2[m.0])
    ensures ChakraStatusMap(c1, meta) == ChakraStatusMap(c2, meta)
  {
    if meta != [] {
      assert meta[0] in meta;
      OnlyChakraKeysMatter(c1, c2, meta[1..]);
    }
  }

  /** The panel for the empty map: every chakra at 50, which reads as unbalanced. */
  lemma EmptyMapUnbalanced(meta: seq<(string, string)>)
    ensures forall s :: s in ChakraStatusMap(map[], meta) ==> s.score == DefaultScore && s.state == Unbalanced
  {
    var r := ChakraStatusMap(map[], meta);
    forall s | s in r ensures s.score == DefaultScore && s.state == Unbalanced {
      var i :| 0 <= i < |r| && r[i] == s;
      assert s == Status(map[], meta[i]);
    }
  }
}
