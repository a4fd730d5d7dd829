/** The age picker of the "talk to yourself at another age" page: the ages offered and
    the label shown for the chosen one. */
module AgePicker {
  import TimeTravel

  /** The ages offered in the picker. */
  const Ages := [5, 10, 15, 20, 30, 40, 60, 75]

  /** The age selected when the page opens. */
  const DefaultAge := 30

  const Labels := ["👶 Masum & oyunbaz", "🧒 Asi & duygusal", "👨 Kariyer odaklı", "🧓 Bilge & nostaljik",
                   "🌌 Zamansal mentor"]

  /** The upper (inclusive) bounds of the first four bands. */
  const BandEnds: seq<real> := [6.0, 16.0, 35.0, 65.0]

  predicate Ascending(ends: seq<real>)
  {
    forall i, j :: 0 <= i < j < |ends| ==> ends[i] <= ends[j]
  }

  /** The band an age falls in: how many band ends lie strictly below it. With
      ascending ends this is the position of the first end the age does not exceed
      (|ends| when it exceeds them all). */
  function Band(ends: seq<real>, age: real): (k: nat)
    ensures k <= |ends|
    ensures Ascending(ends) ==>
      && (forall i :: 0 <= i < k ==> ends[i] < age)
      && (forall i :: k <= i < |ends| ==> age <= ends[i])
  {
    if ends == [] then 0
    else
      var rest := Band(ends[1..], age);
      assert Ascending(ends) ==> Ascending(ends[1..]) && forall i :: 1 <= i < |ends| ==> ends[0] <= ends[i];
      assert forall i :: 1 <= i < |ends| ==> ends[i] == ends[1..][i - 1];
      (if ends[0] < age then 1 else 0) + rest
  }

  /** describePersona: the first band whose end the age does not exceed, else the last,
      so every age gets exactly one of the five labels. */
  function DescribePersona(age: real): (shown: string)
    ensures shown in Labels
    ensures shown == Labels[Band(BandEnds, age)]
  {
    BandOfEnds(age);
    if age <= 6.0 then Labels[0]
    else if age <= 16.0 then Labels[1]
    else if age <= 35.0 then Labels[2]
    else if age <= 65.0 then Labels[3]
    else Labels[4]
  }

  lemma BandOfEnds(age: real)
    ensures Band(BandEnds, age) == if age <= 6.0 then 0 else if age <= 16.0 then 1 else if age <= 35.0 then 2
                                   else if age <= 65.0 then 3 else 4
  {
    var e1, e2, e3 := BandEnds[1..], BandEnds[2..], BandEnds[3..];
    assert e1[1..] == e2 && e2[1..] == e3 && e3[1..] == [];
    assert Band(e3, age) == if age <= 65.0 then 0 else 1;
    assert Band(e2, age) == if age <= 35.0 then 0 else if age <= 65.0 then 1 else 2;
    assert Band(e1, age) == if age <= 16.0 then 0 else if age <= 35.0 then 1 else if age <= 65.0 then 2 else 3;
  }

  /** The band index never decreases as the age increases. */
  lemma {:induction false} BandMonotonic(ends: seq<real>, a: real, b: real)
    requires a <= b
    ensures Band(ends, a) <= Band(ends, b)
  {
    if ends != [] {
      BandMonotonic(ends[1..], a, b);
    }
  }

  /** The offered ages are eight, strictly ascending, include the default, and reach
      every band: each of the five labels is shown for at least one offered age. */
  lemma AgesCoverLabels()
    ensures |Ages| == 8
    ensures forall i, j :: 0 <= i < j < |Ages| ==> Ages[i] < Ages[j]
    ensures DefaultAge in Ages
    ensures forall k :: 0 <= k < |Labels| ==>
      exists i :: 0 <= i < |Ages| && DescribePersona(Ages[i] as real) == Labels[k]
  {
    var shownAt := [0, 1, 3, 5, 7];
    forall k | 0 <= k < |Labels|
      ensures exists i :: 0 <= i < |Ages| && DescribePersona(Ages[i] as real) == Labels[k]
    {
      var i := shownAt[k];
      BandOfEnds(Ages[i] as real);
      assert DescribePersona(Ages[i] as real) == Labels[k];
    }
  }

  /** The picker's bands and the server's bands differ: at 38 the page shows the
      fourth label while the server still answers with its third (career) persona. */
  lemma BandsDisagree()
    ensures Band(BandEnds, 38.0) == 3
    ensures 38 !in TimeTravel.Personas && TimeTravel.BandIndex(TimeTravel.BandStarts, 38) == 2
  {
  }
}
