/** The scent recommender's camera scan: the `#rrggbb` colour encoder, the mood and
    object guesses from the average colour of a frame, and the strided sampling of the
    frame's pixels. The frame is the canvas's RGBA byte array; the colour-palette
    extractor is a parameter (None when it throws). */
module Camera {
  import opened Wrappers
  import opened Text
  import opened Reals
  import ScentAi

  type byte = x: int | 0 <= x < 256

  // ---------------------------------------------------------------- colours

  const HexDigitChars := "0123456789abcdef"

  function HexDigit(d: nat): (c: char)
    requires d < 16
    ensures ScentAi.IsHexLower(c)
  {
    HexDigitChars[d]
  }

  /** n.toString(16) for n >= 0: lower-case hex digits, most significant first. */
  function HexString(n: nat): (r: string)
    ensures r != [] && forall i :: 0 <= i < |r| ==> ScentAi.IsHexLower(r[i])
    ensures n < 16 ==> |r| == 1
    ensures 16 <= n < 256 ==> |r| == 2
  {
    if n < 16 then [HexDigit(n)] else HexString(n / 16) + [HexDigit(n % 16)]
  }

  /** Number.prototype.toString(16), negative numbers with a leading minus. */
  function ToHex(x: int): (r: string)
    ensures r != []
  {
    if x < 0 then "-" + HexString(-x) else HexString(x)
  }

  /** padStart(2, '0') */
  function Pad2(s: string): (r: string)
    ensures |s| >= 2 ==> r == s
    ensures |s| < 2 ==> |r| == 2 && r[2 - |s|..] == s
  {
    if |s| >= 2 then s else seq(2 - |s|, _ => '0') + s
  }

  /** rgbToHex: '#' and two lower-case hex digits per channel when every channel is a
      byte. */
  function RgbToHex(r: int, g: int, b: int): (hex: string)
    ensures 0 <= r < 256 && 0 <= g < 256 && 0 <= b < 256 ==>
              |hex| == 7 && hex[0] == '#' && forall i :: 1 <= i < 7 ==> ScentAi.IsHexLower(hex[i])
  {
    var hex := "#" + Pad2(ToHex(r)) + Pad2(ToHex(g)) + Pad2(ToHex(b));
    if 0 <= r < 256 && 0 <= g < 256 && 0 <= b < 256 then
      ChannelHex(r);
      ChannelHex(g);
      ChannelHex(b);
      HexJoin(Pad2(ToHex(r)), Pad2(ToHex(g)), Pad2(ToHex(b)));
      hex
    else hex
  }

  /** A byte becomes two lower-case hex digits. */
  lemma ChannelHex(x: int)
    requires 0 <= x < 256
    ensures |Pad2(ToHex(x))| == 2 && forall i :: 0 <= i < 2 ==> ScentAi.IsHexLower(Pad2(ToHex(x))[i])
  {
    var h := ToHex(x);
    assert h == HexString(x);
    if |h| < 2 {
      assert Pad2(h) == "0" + h;
    }
  }

  /** '#' followed by three pairs of lower-case hex digits. */
  lemma HexJoin(a: string, b: string, c: string)
    requires |a| == 2 && |b| == 2 && |c| == 2
    requires forall i :: 0 <= i < 2 ==> ScentAi.IsHexLower(a[i]) && ScentAi.IsHexLower(b[i]) && ScentAi.IsHexLower(c[i])
    ensures var hex := "#" + a + b + c;
            |hex| == 7 && hex[0] == '#' && forall i :: 1 <= i < 7 ==> ScentAi.IsHexLower(hex[i])
  {
    var hex := "#" + a + b + c;
    forall i | 1 <= i < 7 ensures ScentAi.IsHexLower(hex[i]) {
      if i < 3 { assert hex[i] == a[i - 1]; }
      else if i < 5 { assert hex[i] == b[i - 3]; }
      else { assert hex[i] == c[i - 5]; }
    }
  }

  /** The value of a hex digit. */
  function DigitValue(c: char): (v: nat)
    ensures v < 16
  {
    if '0' <= c <= '9' then c as int - '0' as int
    else if 'a' <= c <= 'f' then c as int - 'a' as int + 10
    else 0
  }

  /** The value of two hex digits. */
  function PairValue(s: string): nat
    requires |s| == 2
  {
    DigitValue(s[0]) * 16 + DigitValue(s[1])
  }

  /** Reads a `#rrggbb` colour back into its channels. */
  function ParseHex(hex: string): (rgb: (nat, nat, nat))
    requires |hex| == 7
  {
    (PairValue(hex[1..3]), PairValue(hex[3..5]), PairValue(hex[5..7]))
  }

  lemma DigitRoundTrip(d: nat)
    requires d < 16
    ensures DigitValue(HexDigit(d)) == d
  {
    assert HexDigitChars[d] as int == if d < 10 then '0' as int + d else 'a' as int + d - 10;
  }

  lemma ChannelRoundTrip(n: byte)
    ensures |Pad2(ToHex(n))| == 2 && PairValue(Pad2(ToHex(n))) == n
  {
    if n < 16 {
      DigitRoundTrip(n);
      assert Pad2(ToHex(n)) == ['0', HexDigit(n)];
    } else {
      DigitRoundTrip(n / 16);
      DigitRoundTrip(n % 16);
      assert ToHex(n) == HexString(n) == HexString(n / 16) + [HexDigit(n % 16)];
      assert HexString(n / 16) == [HexDigit(n / 16)];
      assert Pad2(ToHex(n)) == [HexDigit(n / 16), HexDigit(n % 16)];
    }
  }

  /** Decoding an encoded colour gives the channels back. */
  lemma RgbRoundTrip(r: byte, g: byte, b: byte)
    ensures |RgbToHex(r, g, b)| == 7 && ParseHex(RgbToHex(r, g, b)) == (r, g, b)
  {
    var pr, pg, pb := Pad2(ToHex(r)), Pad2(ToHex(g)), Pad2(ToHex(b));
    ChannelRoundTrip(r);
    ChannelRoundTrip(g);
    ChannelRoundTrip(b);
    assert RgbToHex(r, g, b) == "#" + pr + pg + pb;
    HexSlices(pr, pg, pb);
  }

  /** The three pairs of a colour sit at 1..3, 3..5 and 5..7. */
  lemma HexSlices(a: string, b: string, c: string)
    requires |a| == 2 && |b| == 2 && |c| == 2
    ensures var hex := "#" + a + b + c;
            |hex| == 7 && hex[1..3] == a && hex[3..5] == b && hex[5..7] == c
  {
  }

  // ---------------------------------------------------------------- mood and objects

  const Cozy := "cozy"
  const Energetic := "energetic"
  const Professional := "professional"
  const Romantic := "romantic"

  /** detectMood: the rules are tried in order and the first that applies wins. */
  function DetectMood(brightness: real, saturation: real): (mood: string)
    ensures mood == Cozy <==> brightness < 90.0
    ensures mood == Energetic <==> brightness >= 90.0 && brightness > 150.0 && saturation > 45.0
    ensures mood == Professional <==> brightness >= 90.0 && !(brightness > 150.0 && saturation > 45.0)
                                      && saturation < 30.0
    ensures mood == Romantic <==> brightness >= 90.0 && !(brightness > 150.0 && saturation > 45.0)
                                  && saturation >= 30.0
  {
    if brightness < 90.0 then Cozy
    else if brightness > 150.0 && saturation > 45.0 then Energetic
    else if saturation < 30.0 then Professional
    else Romantic
  }

  /** Every mood the camera reports has its own rule on the server, so none falls back
      to the cozy rule. */
  lemma CameraMoodsKnown(brightness: real, saturation: real)
    ensures DetectMood(brightness, saturation) in ScentAi.MoodRules
  {
  }

  const Wood := "wood"
  const Metal := "metal"
  const Fabric := "fabric"
  const Plant := "plant"

  function ObjectRank(o: string): nat
  {
    if o == Wood then 0 else if o == Metal then 1 else if o == Fabric then 2 else 3
  }

  predicate Grey(r: int, g: int, b: int)
  {
    -15 < r - g < 15 && -15 < g - b < 15
  }

  /** The objects detectObjects reports for the averages r, g, b: at least one; wood,
      metal and plant exactly when their channel is the strict maximum; fabric exactly
      for a near-grey colour or a tie for the maximum; in the order wood, metal, fabric,
      plant. Membership and order fix the list. */
  predicate Detected(objects: seq<string>, r: int, g: int, b: int)
  {
    && objects != []
    && (Wood in objects <==> r > g && r > b)
    && (Metal in objects <==> b > r && b > g)
    && (Plant in objects <==> g > r && g > b)
    && (Fabric in objects <==> Grey(r, g, b) || (r == g >= b || r == b >= g || g == b >= r))
    && Ranked(objects)
  }

  predicate IsObject(o: string)
  {
    o == Wood || o == Metal || o == Fabric || o == Plant
  }

  /** Known objects in strictly ascending rank. */
  predicate Ranked(objects: seq<string>)
  {
    && (forall o :: o in objects ==> IsObject(o))
    && (forall i, j :: 0 <= i < j < |objects| ==> ObjectRank(objects[i]) < ObjectRank(objects[j]))
  }

  /** Two ranked lists with the same members are the same list. */
  lemma {:induction false} RankedUnique(a: seq<string>, b: seq<string>)
    requires Ranked(a) && Ranked(b)
    requires forall o :: o in a <==> o in b
    ensures a == b
  {
    HeadIn(b);
    if a != [] {
      assert a[0] in b;
      SameHead(a, b);
      SameTail(a, b);
      RankedUnique(a[1..], b[1..]);
      assert a == [a[0]] + a[1..] && b == [b[0]] + b[1..];
    }
  }

  /** The first element of a ranked list has the least rank, so two non-empty ranked
      lists with the same members start alike. */
  lemma SameHead(a: seq<string>, b: seq<string>)
    requires Ranked(a) && Ranked(b) && a != [] && b != []
    requires forall o :: o in a <==> o in b
    ensures a[0] == b[0]
  {
    assert b[0] in a && a[0] in b;
    var i :| 0 <= i < |a| && a[i] == b[0];
    var j :| 0 <= j < |b| && b[j] == a[0];
    assert ObjectRank(a[0]) <= ObjectRank(a[i]) && ObjectRank(b[0]) <= ObjectRank(b[j]);
  }

  /** After a common first element, the rest of the two lists have the same members. */
  lemma SameTail(a: seq<string>, b: seq<string>)
    requires Ranked(a) && Ranked(b) && a != [] && b != [] && a[0] == b[0]
    requires forall o :: o in a <==> o in b
    ensures Ranked(a[1..]) && Ranked(b[1..])
    ensures forall o :: o in a[1..] <==> o in b[1..]
  {
    TailWithin(a, b);
    TailWithin(b, a);
  }

  /** Every member of the rest of a ranked list differs from its head, so it lies in the
      rest of any list with the same head that holds it. */
  lemma TailWithin(a: seq<string>, b: seq<string>)
    requires Ranked(a) && a != [] && b != [] && a[0] == b[0]
    requires forall o :: o in a ==> o in b
    ensures Ranked(a[1..])
    ensures forall o :: o in a[1..] ==> o in b[1..]
  {
    forall o | o in a[1..] ensures o in b[1..] {
      var k :| 1 <= k < |a| && a[k] == o;
      assert ObjectRank(a[0]) < ObjectRank(a[k]);
      assert o in b;
      var m :| 0 <= m < |b| && b[m] == o;
      assert m != 0 && b[1..][m - 1] == o;
    }
  }

  lemma HeadIn<T>(s: seq<T>)
    ensures s != [] ==> s[0] in s
  {
  }

  /** The detected objects are determined by the averages. */
  lemma DetectedUnique(a: seq<string>, b: seq<string>, r: int, g: int, b': int)
    requires Detected(a, r, g, b') && Detected(b, r, g, b')
    ensures a == b
  {
    RankedUnique(a, b);
  }

  /** detectObjects: wood, metal and plant each need their channel to be the strict
      maximum, fabric a near-grey colour; with none of them, fabric alone. */
  method DetectObjects(r: int, g: int, b: int) returns (objects: seq<string>)
    ensures Detected(objects, r, g, b)
    ensures !(Wood in objects && Metal in objects) && !(Wood in objects && Plant in objects)
            && !(Metal in objects && Plant in objects)
    ensures forall o :: o in objects ==> o in ScentAi.ObjectRules
  {
    objects := [];
    if r > g && r > b {
      objects := objects + [Wood];
    }
    if b > r && b > g {
      objects := objects + [Metal];
    }
    if Grey(r, g, b) {
      objects := objects + [Fabric];
    }
    if g > r && g > b {
      objects := objects + [Plant];
    }
    if objects == [] {
      objects := [Fabric];
    }
  }

  // ---------------------------------------------------------------- scanning

  const Stride: nat := 100

  /** The number of pixels the loop samples: ceil(len / 100). */
  function Samples(len: nat): nat
  {
    (len + Stride - 1) / Stride
  }

  /** The k-th sampled pixel lies wholly inside the frame. */
  lemma SampleInFrame(len: nat, k: nat)
    requires len % 4 == 0 && k < Samples(len)
    ensures k * Stride + 3 < len
  {
    var n := (len + 99) / 100;
    assert Stride == 100 && n == Samples(len);
    assert 100 * n <= len + 99;
    assert 100 * (k + 1) <= 100 * n;
    var q := len / 4;
    assert len == 4 * q;
    assert 25 * k < q;
    assert k * Stride == 100 * k;
  }

  /** The sum of one channel over the first k sampled pixels, pixel j being the one at
      byte j * 100. */
  function ChannelSum(data: seq<byte>, offset: nat, k: nat): int
    requires offset < 4 && |data| % 4 == 0 && k <= Samples(|data|)
  {
    if k == 0 then 0
    else
      SampleInFrame(|data|, k - 1);
      ChannelSum(data, offset, k - 1) + data[(k - 1) * Stride + offset]
  }

  lemma {:induction false} ChannelSumBounds(data: seq<byte>, offset: nat, k: nat)
    requires offset < 4 && |data| % 4 == 0 && k <= Samples(|data|)
    ensures 0 <= ChannelSum(data, offset, k) <= 255 * k
  {
    if k > 0 {
      ChannelSumBounds(data, offset, k - 1);
      SampleInFrame(|data|, k - 1);
      var at := (k - 1) * Stride + offset;
      assert ChannelSum(data, offset, k) == ChannelSum(data, offset, k - 1) + data[at] as int;
      assert 255 * k == 255 * (k - 1) + 255;
    }
  }

  /** The sampling loop of scanRoom: the three channel sums over the bytes at 0, 100,
      200, ... and the number of pixels it visited. */
  method SampleFrame(data: seq<byte>) returns (r: int, g: int, b: int, visited: nat)
    requires |data| % 4 == 0
    ensures visited == Samples(|data|)
    ensures r == ChannelSum(data, 0, visited) && g == ChannelSum(data, 1, visited)
            && b == ChannelSum(data, 2, visited)
  {
    r, g, b, visited := 0, 0, 0, 0;
    var i := 0;
    while i < |data|
      invariant i == visited * Stride && visited <= Samples(|data|)
      invariant r == ChannelSum(data, 0, visited) && g == ChannelSum(data, 1, visited)
                && b == ChannelSum(data, 2, visited)
      decreases |data| - i
    {
      assert visited < Samples(|data|);
      SampleInFrame(|data|, visited);
      r := r + data[i];
      g := g + data[i + 1];
      b := b + data[i + 2];
      visited := visited + 1;
      i := i + Stride;
    }
  }

  /** Math.round: the nearest integer, halves rounded up. */
  function JsRound(x: real): int
  {
    (x + 0.5).Floor
  }

  datatype Rgb = Rgb(r: int, g: int, b: int)

  /** The averages as scanRoom computes them: each sum divided by floor(len / 100),
      which is not the number of sampled pixels when the length is not a multiple of
      100, and is zero (so the average is not a finite number) below 100 bytes. */
  function AveragesAsWritten(data: seq<byte>): (avg: Option<Rgb>)
    requires |data| % 4 == 0
    ensures avg.None? <==> |data| < Stride
  {
    var sampleCount := |data| / Stride;
    var n := Samples(|data|);
    if sampleCount == 0 then None
    else Some(Rgb(JsRound(ChannelSum(data, 0, n) as real / sampleCount as real),
                  JsRound(ChannelSum(data, 1, n) as real / sampleCount as real),
                  JsRound(ChannelSum(data, 2, n) as real / sampleCount as real)))
  }

  /** A 26-pixel grey frame is sampled at pixels 0 and 25 but divided by one sample: its
      average red comes out as 400, beyond any channel value. */
  lemma AveragesOvershoot()
    ensures var frame := seq(104, i => if i % 4 == 3 then 255 else 200);
      && |frame| % 4 == 0
      && AveragesAsWritten(frame) == Some(Rgb(400, 400, 400))
  {
    var frame: seq<byte> := seq(104, i => if i % 4 == 3 then 255 else 200);
    assert Samples(104) == 2;
    assert ChannelSum(frame, 0, 2) == ChannelSum(frame, 0, 1) + frame[100] == 400;
    assert ChannelSum(frame, 1, 2) == ChannelSum(frame, 1, 1) + frame[101] == 400;
    assert ChannelSum(frame, 2, 2) == ChannelSum(frame, 2, 1) + frame[102] == 400;
    assert JsRound(400.0) == 400;
  }

  /** When the frame length is a whole number of strides, the sampled pixels and the
      divisor agree, and the corrected averages are the ones the page computes. */
  lemma AveragesAgree(data: seq<byte>)
    requires |data| % 4 == 0 && |data| % 100 == 0 && |data| >= 100
    ensures Averages(data) == AveragesAsWritten(data)
  {
    var m := |data| / 100;
    assert |data| == 100 * m;
    assert Samples(|data|) == m;
  }

  /** The averages over the pixels actually sampled: ceil(len / 100) of them; an empty
      frame has none. Every average is a channel value. */
  function Averages(data: seq<byte>): (avg: Option<Rgb>)
    requires |data| % 4 == 0
    ensures avg.None? <==> data == []
    ensures avg.Some? ==> 0 <= avg.value.r <= 255 && 0 <= avg.value.g <= 255 && 0 <= avg.value.b <= 255
  {
    var n := Samples(|data|);
    if n == 0 then None
    else
      ChannelSumBounds(data, 0, n);
      ChannelSumBounds(data, 1, n);
      ChannelSumBounds(data, 2, n);
      Some(Rgb(AverageOf(ChannelSum(data, 0, n), n), AverageOf(ChannelSum(data, 1, n), n),
               AverageOf(ChannelSum(data, 2, n), n)))
  }

  /** Math.round(sum / n) for a sum of n bytes is itself a byte. */
  function AverageOf(sum: int, n: nat): (avg: int)
    requires n > 0 && 0 <= sum <= 255 * n
    ensures 0 <= avg <= 255
  {
    var q := sum as real / n as real;
    assert 0.0 <= q <= 255.0 by {
      assert sum as real <= 255.0 * n as real;
      assert q * n as real == sum as real;
    }
    JsRound(q)
  }

  predicate ByteColor(c: (int, int, int))
  {
    0 <= c.0 < 256 && 0 <= c.1 < 256 && 0 <= c.2 < 256
  }

  /** What a scan reports. */
  datatype Scan = Scan(palette: seq<string>, mood: string, objects: seq<string>, lighting: string)

  const FallbackColors := ["#64748b", "#334155", "#0f172a", "#a78bfa"]

  /** The palette: the extractor's five colours, or when it throws, the average colour
      followed by four fixed colours. */
  function Palette(extracted: Option<seq<(int, int, int)>>, avg: Rgb): (p: seq<string>)
    ensures extracted.None? ==> |p| == 5 && p[0] == RgbToHex(avg.r, avg.g, avg.b) && p[1..] == FallbackColors
    ensures extracted.Some? ==> |p| == |extracted.value|
    ensures extracted.Some? ==> forall i :: 0 <= i < |p| && ByteColor(extracted.value[i]) ==> |p[i]| == 7 && p[i][0] == '#'
  {
    match extracted
    case Some(colors) => seq(|colors|, i requires 0 <= i < |colors| => RgbToHex(colors[i].0, colors[i].1, colors[i].2))
    case None => [RgbToHex(avg.r, avg.g, avg.b)] + FallbackColors
  }

  /** Three of the four fallback colours are cool, so a frame whose palette could not
      be extracted always reads as a cool palette on the server. */
  lemma FallbackPaletteIsCool(avg: Rgb)
    ensures ScentAi.InferProfile(Palette(None, avg)) == ScentAi.Cool
  {
    FallbackColorsCool(RgbToHex(avg.r, avg.g, avg.b));
  }

  /** A colour whose first digit is below c is not warm. */
  lemma NotWarm(c: string)
    requires |c| >= 2 && ('0' <= c[1] <= '9' || c[1] == 'a' || c[1] == 'b')
    ensures !ScentAi.WarmColor(c)
  {
    assert c[..2][1] == c[1];
  }

  lemma FallbackColorsCool(first: string)
    ensures ScentAi.InferProfile([first] + FallbackColors) == ScentAi.Cool
  {
    var s1 := [first];
    var s2 := s1 + ["#64748b"];
    var s3 := s2 + ["#334155"];
    var s4 := s3 + ["#0f172a"];
    var s5 := s4 + ["#a78bfa"];
    assert s5 == [first] + FallbackColors;
    assert s2[..1] == s1 && s3[..2] == s2 && s4[..3] == s3 && s5[..4] == s4;
    assert ScentAi.CoolColor("#64748b") && ScentAi.CoolColor("#334155") && ScentAi.CoolColor("#0f172a");
    NotWarm("#a78bfa");
    NotWarm("#64748b");
    NotWarm("#334155");
    NotWarm("#0f172a");
    assert ScentAi.Hits(s1, true) <= 1;
    assert ScentAi.Hits(s2, true) == ScentAi.Hits(s1, true);
    assert ScentAi.Hits(s3, true) == ScentAi.Hits(s2, true);
    assert ScentAi.Hits(s4, true) == ScentAi.Hits(s3, true);
    assert ScentAi.Hits(s5, true) == ScentAi.Hits(s4, true);
    assert ScentAi.Hits(s2, false) == ScentAi.Hits(s1, false) + 1;
    assert ScentAi.Hits(s3, false) == ScentAi.Hits(s2, false) + 1;
    assert ScentAi.Hits(s4, false) == ScentAi.Hits(s3, false) + 1;
    assert ScentAi.Hits(s5, false) == ScentAi.Hits(s4, false);
  }

  /** The scan of a frame, with each average taken over the pixels the loop actually
      sampled (None for an empty frame): the mood from the brightness and saturation,
      the objects, the palette and the lighting. */
  method ScanRoom(data: seq<byte>, extracted: Option<seq<(int, int, int)>>) returns (scan: Option<Scan>)
    requires |data| % 4 == 0
    ensures scan.None? <==> data == []
    ensures scan.Some? ==> Fits(scan.value, Averages(data).value, extracted)
  {
    var avg := SampleAverages(data);
    if avg.None? {
      return None;
    }
    var s := ScanOf(avg.value, extracted);
    scan := Some(s);
  }

  /** The loop's sums turned into averages: the sampled averages of the frame. */
  method SampleAverages(data: seq<byte>) returns (avg: Option<Rgb>)
    requires |data| % 4 == 0
    ensures avg == Averages(data)
  {
    var r, g, b, visited := SampleFrame(data);
    if visited == 0 {
      return None;
    }
    ChannelSumBounds(data, 0, visited);
    ChannelSumBounds(data, 1, visited);
    ChannelSumBounds(data, 2, visited);
    avg := Some(Rgb(AverageOf(r, visited), AverageOf(g, visited), AverageOf(b, visited)));
  }

  /** What a scan says about averages of channel values: the mood from the brightness
      (the mean of the three) and the saturation (the largest minus the smallest), which
      lies in [0, 255]; the objects detected for the averages; the palette; and "bright"
      lighting exactly above a brightness of 130. */
  predicate Fits(scan: Scan, avg: Rgb, extracted: Option<seq<(int, int, int)>>)
  {
    && 0 <= Saturation(avg) <= 255
    && scan.mood == DetectMood(Brightness(avg), Saturation(avg) as real)
    && Detected(scan.objects, avg.r, avg.g, avg.b)
    && scan.palette == Palette(extracted, avg)
    && (scan.lighting == "bright" <==> Brightness(avg) > 130.0)
  }

  /** (avgR + avgG + avgB) / 3 */
  function Brightness(avg: Rgb): real
  {
    (avg.r + avg.g + avg.b) as real / 3.0
  }

  /** Math.max(avgR, avgG, avgB) - Math.min(avgR, avgG, avgB), in [0, 255] for channel
      values. */
  function Saturation(avg: Rgb): (s: int)
    ensures 0 <= avg.r <= 255 && 0 <= avg.g <= 255 && 0 <= avg.b <= 255 ==> 0 <= s <= 255
  {
    Max3(avg.r, avg.g, avg.b) - Min3(avg.r, avg.g, avg.b)
  }

  /** brightness > 130 ? 'bright' : 'dim' */
  function Lighting(brightness: real): (l: string)
    ensures l == "bright" <==> brightness > 130.0
  {
    if brightness > 130.0 then "bright" else "dim"
  }

  /** The scan of averages of channel values. */
  method ScanOf(avg: Rgb, extracted: Option<seq<(int, int, int)>>) returns (scan: Scan)
    requires 0 <= avg.r <= 255 && 0 <= avg.g <= 255 && 0 <= avg.b <= 255
    ensures Fits(scan, avg, extracted)
  {
    var objects := DetectObjects(avg.r, avg.g, avg.b);
    scan := Scan(Palette(extracted, avg), DetectMood(Brightness(avg), Saturation(avg) as real), objects,
                 Lighting(Brightness(avg)));
  }

  function Max3(a: int, b: int, c: int): (m: int)
    ensures m >= a && m >= b && m >= c && (m == a || m == b || m == c)
  {
    if a >= b && a >= c then a else if b >= c then b else c
  }

  function Min3(a: int, b: int, c: int): (m: int)
    ensures m <= a && m <= b && m <= c && (m == a || m == b || m == c)
  {
    if a <= b && a <= c then a else if b <= c then b else c
  }
}
