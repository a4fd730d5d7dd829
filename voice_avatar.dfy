/** The avatar customizer's catalogue and request checks: the 55 generated catalogue
    entries, the style and name filters of the listing, the trending list, and the
    required-field checks of the customization and marketplace uploads. The random
    trending scores are parameters; of the database inserts only the values that make them
    fail are modelled. */
module VoiceAvatar {
  import opened Wrappers
  import opened Text
  import Json
  import Sorting

  const Styles := ["realistic", "anime", "cartoon", "meme", "cyberpunk", "fantasy", "scifi"]

  const CatalogSize: nat := 55

  const AstronautModel := "https://modelviewer.dev/shared-assets/models/Astronaut.glb"
  const RobotModel := "https://modelviewer.dev/shared-assets/models/RobotExpressive.glb"
  const CartoonModel := "https://modelviewer.dev/shared-assets/models/CartoonLowPoly.glb"

  datatype Avatar = Avatar(id: nat, name: string, style: string, thumbnail: string, modelUrl: string,
                           trendingScore: int)

  /** f"{n:02d}": the decimal digits of n, padded with a zero to two places. */
  function TwoDigits(n: nat): (r: string)
    ensures |r| >= 2 && forall i :: 0 <= i < |r| ==> IsDigit(r[i])
  {
    if n < 10 then "0" + NatToDecimal(n) else NatToDecimal(n)
  }

  /** Different numbers get different two-digit labels. */
  lemma TwoDigitsInjective(m: nat, n: nat)
    requires TwoDigits(m) == TwoDigits(n)
    ensures m == n
  {
    if m < 10 && n < 10 {
      assert NatToDecimal(m) == TwoDigits(m)[1..];
      assert NatToDecimal(n) == TwoDigits(n)[1..];
      DecimalInjective(m, n);
    } else if m >= 10 && n >= 10 {
      DecimalInjective(m, n);
    }
  }

  function ModelUrl(id: nat): string
  {
    if id % 3 == 0 then AstronautModel else if id % 3 == 1 then RobotModel else CartoonModel
  }

  function MakeAvatar(id: nat, score: int): Avatar
  {
    Avatar(id, "Avatar " + TwoDigits(id), Styles[id % |Styles|],
           "https://picsum.photos/seed/avatar" + NatToDecimal(id) + "/240/320", ModelUrl(id), score)
  }

  /** AVATAR_CATALOG: ids 1 to 55 in order, the style cycling through the seven styles
      by id, the model chosen by id mod 3, and the trending score the drawn one (each
      draw is random.randint(10, 100)). */
  function Catalog(scores: seq<int>): (catalog: seq<Avatar>)
    requires |scores| == CatalogSize
    requires forall i :: 0 <= i < |scores| ==> 10 <= scores[i] <= 100
    ensures |catalog| == CatalogSize
    ensures forall i :: 0 <= i < |catalog| ==> var a := catalog[i];
              && a.id == i + 1 && a.style == Styles[a.id % 7] && a.style in Styles
              && a.modelUrl in {AstronautModel, RobotModel, CartoonModel}
              && (a.modelUrl == AstronautModel <==> a.id % 3 == 0)
              && 10 <= a.trendingScore <= 100
  {
    seq(CatalogSize, i requires 0 <= i < CatalogSize => MakeAvatar(i + 1, scores[i]))
  }

  /** The catalogue entries have pairwise different ids and names. */
  lemma CatalogUnique(scores: seq<int>, i: nat, j: nat)
    requires |scores| == CatalogSize
    requires forall k :: 0 <= k < |scores| ==> 10 <= scores[k] <= 100
    requires i < j < CatalogSize
    ensures Catalog(scores)[i].id != Catalog(scores)[j].id
    ensures Catalog(scores)[i].name != Catalog(scores)[j].name
  {
    assert Catalog(scores)[i] == MakeAvatar(i + 1, scores[i]);
    assert Catalog(scores)[j] == MakeAvatar(j + 1, scores[j]);
    LabelsDiffer(i + 1, j + 1);
  }

  /** Different ids give different avatar names. */
  lemma LabelsDiffer(m: nat, n: nat)
    requires m != n
    ensures "Avatar " + TwoDigits(m) != "Avatar " + TwoDigits(n)
  {
    var a, b := "Avatar " + TwoDigits(m), "Avatar " + TwoDigits(n);
    if a == b {
      assert a[7..] == TwoDigits(m);
      assert b[7..] == TwoDigits(n);
      TwoDigitsInjective(m, n);
    }
  }

  // ---------------------------------------------------------------- listing

  predicate NameMatches(a: Avatar, query: string) { Contains(Lower(a.name), query) }

  /** r is s with some of its elements left out, the others in their order. */
  predicate Subsequence<T(==)>(r: seq<T>, s: seq<T>)
    decreases |s|
  {
    r == [] || (s != [] && ((r[0] == s[0] && Subsequence(r[1..], s[1..])) || Subsequence(r, s[1..])))
  }

  lemma {:induction false} SubsequenceRefl<T>(s: seq<T>)
    ensures Subsequence(s, s)
    decreases |s|
  {
    if s != [] {
      SubsequenceRefl(s[1..]);
    }
  }

  lemma {:induction false} SubsequenceTrans<T>(a: seq<T>, b: seq<T>, c: seq<T>)
    requires Subsequence(a, b) && Subsequence(b, c)
    ensures Subsequence(a, c)
    decreases |c|
  {
    if a != [] {
      if b[0] == c[0] && Subsequence(b[1..], c[1..]) {
        if a[0] == b[0] && Subsequence(a[1..], b[1..]) {
          SubsequenceTrans(a[1..], b[1..], c[1..]);
        } else {
          SubsequenceTrans(a, b[1..], c[1..]);
        }
      } else {
        SubsequenceTrans(a, b, c[1..]);
      }
    }
  }

  /** One step of a comprehension: keeping or dropping the first item in front of the
      selection from the others. */
  lemma SelectStep<T>(items: seq<T>, tail: seq<T>, keep: bool, r: seq<T>)
    requires items != [] && Subsequence(tail, items[1..])
    requires r == (if keep then [items[0]] else []) + tail
    ensures Subsequence(r, items)
    ensures forall a :: multiset(r)[a] == (if keep && a == items[0] then 1 else 0) + multiset(tail)[a]
    ensures forall a :: multiset(items)[a] == (if a == items[0] then 1 else 0) + multiset(items[1..])[a]
  {
    assert items == [items[0]] + items[1..];
    if keep {
      assert r[0] == items[0] && r[1..] == tail;
      assert Subsequence(r[1..], items[1..]);
    } else {
      assert r == tail;
    }
  }

  /** [item for item in items if item["style"] == style]: the items of that style, each
      as often as in items and in their order. */
  function KeepStyle(items: seq<Avatar>, style: string): (r: seq<Avatar>)
    ensures Subsequence(r, items)
    ensures forall a :: multiset(r)[a] == if a.style == style then multiset(items)[a] else 0
    ensures forall a :: a in r <==> a in items && a.style == style
  {
    if items == [] then []
    else
      var tail := KeepStyle(items[1..], style);
      var r := (if items[0].style == style then [items[0]] else []) + tail;
      SelectStep(items, tail, items[0].style == style, r);
      r
  }

  /** [item for item in items if query in item["name"].lower()]: the items whose
      lower-cased name contains the query, each as often as in items and in their order. */
  function KeepName(items: seq<Avatar>, query: string): (r: seq<Avatar>)
    ensures Subsequence(r, items)
    ensures forall a :: multiset(r)[a] == if NameMatches(a, query) then multiset(items)[a] else 0
    ensures forall a :: a in r <==> a in items && NameMatches(a, query)
  {
    if items == [] then []
    else
      var tail := KeepName(items[1..], query);
      var r := (if NameMatches(items[0], query) then [items[0]] else []) + tail;
      SelectStep(items, tail, NameMatches(items[0], query), r);
      r
  }

  /** The two filters commute: filtering by style then by name gives the same list, in
      the same order, as filtering by name then by style. */
  lemma {:induction false} FiltersCommute(items: seq<Avatar>, style: string, query: string)
    ensures KeepName(KeepStyle(items, style), query) == KeepStyle(KeepName(items, query), style)
  {
    if items != [] {
      FiltersCommute(items[1..], style, query);
      var x, rest := items[0], items[1..];
      var single := if x.style == style && NameMatches(x, query) then [x] else [];
      if x.style == style {
        assert KeepStyle(items, style) == [x] + KeepStyle(rest, style);
        assert KeepName([x] + KeepStyle(rest, style), query) == single + KeepName(KeepStyle(rest, style), query);
      } else {
        assert KeepStyle(items, style) == KeepStyle(rest, style);
      }
      if NameMatches(x, query) {
        assert KeepName(items, query) == [x] + KeepName(rest, query);
        assert KeepStyle([x] + KeepName(rest, query), style) == single + KeepStyle(KeepName(rest, query), style);
      } else {
        assert KeepName(items, query) == KeepName(rest, query);
      }
    }
  }

  datatype Listing = Listing(avatars: seq<Avatar>, count: nat)

  /** The cleaned query: request.args.get("q", "").lower().strip(). */
  function Query(q: Option<string>): string
  {
    Strip(Lower(q.GetOr("")))
  }

  /** Whether api_avatars keeps an avatar: the style, when one is given, is the
      avatar's, and the cleaned query, when not empty, is part of its lower-cased name. */
  predicate Selected(a: Avatar, style: Option<string>, q: Option<string>)
  {
    && (style.Some? && style.value != [] ==> a.style == style.value)
    && (Query(q) != [] ==> NameMatches(a, Query(q)))
  }

  /** api_avatars: the catalogue entries that pass the style and query filters, each
      once and in catalogue order, and their number as the count. */
  function ListAvatars(catalog: seq<Avatar>, style: Option<string>, q: Option<string>): (r: Listing)
    ensures r.count == |r.avatars| <= |catalog|
    ensures Subsequence(r.avatars, catalog)
    ensures forall a :: multiset(r.avatars)[a] == if Selected(a, style, q) then multiset(catalog)[a] else 0
    ensures forall a :: a in r.avatars <==> a in catalog && Selected(a, style, q)
  {
    var query := Query(q);
    var byStyle := if style.Some? && style.value != [] then KeepStyle(catalog, style.value) else catalog;
    var results := if query != [] then KeepName(byStyle, query) else byStyle;
    SubsequenceRefl(catalog);
    SubsequenceRefl(byStyle);
    SubsequenceTrans(results, byStyle, catalog);
    SubsequenceLength(results, catalog);
    Listing(results, |results|)
  }

  lemma {:induction false} SubsequenceLength<T>(r: seq<T>, s: seq<T>)
    requires Subsequence(r, s)
    ensures |r| <= |s|
    decreases |s|
  {
    if r != [] {
      if r[0] == s[0] && Subsequence(r[1..], s[1..]) {
        SubsequenceLength(r[1..], s[1..]);
      } else {
        SubsequenceLength(r, s[1..]);
      }
    }
  }

  // ---------------------------------------------------------------- trending

  const TrendingSize: nat := 12

  function TrendingKey(a: Avatar): real { a.trendingScore as real }

  /** api_trending: the twelve highest-scoring entries, highest first; every entry
      left out scores no more than every entry shown. */
  function Trending(catalog: seq<Avatar>): (r: seq<Avatar>)
    ensures |r| == if |catalog| < TrendingSize then |catalog| else TrendingSize
    ensures Sorting.SortedDesc(r, TrendingKey)
    ensures multiset(r) <= multiset(catalog)
    ensures forall x, y :: x in r && y in multiset(catalog) - multiset(r) ==> x.trendingScore >= y.trendingScore
  {
    var sorted := Sorting.SortDesc(catalog, TrendingKey);
    Sorting.SortDescSorted(catalog, TrendingKey);
    var r := Take(sorted, TrendingSize);
    Sorting.PrefixIsTop(sorted, TrendingKey, |r|);
    r
  }

  // ---------------------------------------------------------------- uploads

  const RequiredFields := ["avatar_id", "hair_type", "hair_color", "eye_shape", "eye_color", "outfit",
                           "outfit_color", "morph_smile", "morph_brow", "voice_preset"]

  /** The required fields absent from the payload, in the order of the list. */
  function Missing(required: seq<string>, p: Json.Payload): (r: seq<string>)
    ensures |r| <= |required|
    ensures forall f :: f in r <==> f in required && f !in p
  {
    if required == [] then []
    else (if required[0] !in p then [required[0]] else []) + Missing(required[1..], p)
  }

  /** The position of an element in a sequence. */
  function IndexIn(s: seq<string>, x: string): (k: nat)
    requires x in s
    ensures k < |s| && s[k] == x
  {
    if s[0] == x then 0 else 1 + IndexIn(s[1..], x)
  }

  predicate Distinct(s: seq<string>) { forall a, b :: 0 <= a < b < |s| ==> s[a] != s[b] }

  /** Missing fields are listed in the order of the required list. */
  lemma {:induction false} MissingInOrder(required: seq<string>, p: Json.Payload, i: nat, j: nat)
    requires Distinct(required)
    requires i < j < |Missing(required, p)|
    ensures IndexIn(required, Missing(required, p)[i]) < IndexIn(required, Missing(required, p)[j])
  {
    var m := Missing(required, p);
    var rest := Missing(required[1..], p);
    DistinctTail(required);
    if required[0] !in p {
      assert m == [required[0]] + rest;
      if i > 0 {
        MissingInOrder(required[1..], p, i - 1, j - 1);
      }
    } else {
      assert m == rest;
      MissingInOrder(required[1..], p, i, j);
    }
  }

  lemma DistinctTail(s: seq<string>)
    requires Distinct(s) && s != []
    ensures Distinct(s[1..]) && s[0] !in s[1..]
  {
    forall a, b | 0 <= a < b < |s[1..]| ensures s[1..][a] != s[1..][b] {
      assert s[1..][a] == s[a + 1] && s[1..][b] == s[b + 1];
    }
  }

  /** The customization row: the ten values, in the order of the required list. */
  function Values(required: seq<string>, p: Json.Payload): (r: seq<Json.Json>)
    requires forall f :: f in required ==> f in p
    ensures |r| == |required| && forall i :: 0 <= i < |required| ==> r[i] == p[required[i]]
  {
    seq(|required|, i requires 0 <= i < |required| => p[required[i]])
  }

  const ServerError := "Internal Server Error"

  /** A value the customizations table accepts: bindable and not null, as every column
      is NOT NULL. */
  predicate Insertable(v: Json.Json)
  {
    Json.Bindable(v) && !v.JNull?
  }

  /** api_customize: refused, naming the missing fields, when any of the ten is absent;
      otherwise the row to insert, which fails when a value is null, a list, an object
      or an integer beyond 64 bits. */
  function Customize(p: Json.Payload): (r: Result<seq<Json.Json>>)
    ensures (exists f :: f in RequiredFields && f !in p) ==>
              r == Err("missing fields: " + Join(Missing(RequiredFields, p), ", "))
    ensures r.Ok? <==> forall f :: f in RequiredFields ==> f in p && Insertable(p[f])
    ensures r.Ok? ==> |r.value| == 10 && r.value[0] == p["avatar_id"] && r.value[9] == p["voice_preset"]
  {
    var missing := Missing(RequiredFields, p);
    if missing != [] then
      assert missing[0] in missing;
      Err("missing fields: " + Join(missing, ", "))
    else
      assert forall f :: f in RequiredFields ==> f in p;
      var row := Values(RequiredFields, p);
      ValuesInsertable(RequiredFields, p);
      assert RequiredFields[0] == "avatar_id" && RequiredFields[9] == "voice_preset";
      if exists i :: 0 <= i < |row| && !Insertable(row[i]) then Err(ServerError)
      else Ok(row)
  }

  /** Every value of the row can be stored exactly when every required field's value
      can. */
  lemma ValuesInsertable(required: seq<string>, p: Json.Payload)
    requires forall f :: f in required ==> f in p
    ensures (exists i :: 0 <= i < |required| && !Insertable(Values(required, p)[i]))
            <==> exists f :: f in required && !Insertable(p[f])
  {
    var row := Values(required, p);
    if exists f :: f in required && !Insertable(p[f]) {
      var f :| f in required && !Insertable(p[f]);
      var i :| 0 <= i < |required| && required[i] == f;
      assert !Insertable(row[i]);
    }
  }

  const UploadFields := ["name", "model_url", "creator"]

  datatype Upload = Upload(name: Json.Json, modelUrl: Json.Json, creator: Json.Json)

  /** The first upload field that is absent or falsy, if any. */
  function FirstFalsy(keys: seq<string>, p: Json.Payload): (r: Option<nat>)
    ensures r.Some? ==> r.value < |keys| && !Json.Truthy(Json.Get(p, keys[r.value], Json.JNull))
                        && forall k :: 0 <= k < r.value ==> Json.Truthy(Json.Get(p, keys[k], Json.JNull))
    ensures r.None? ==> forall k :: 0 <= k < |keys| ==> Json.Truthy(Json.Get(p, keys[k], Json.JNull))
  {
    if keys == [] then None
    else if !Json.Truthy(Json.Get(p, keys[0], Json.JNull)) then Some(0)
    else match FirstFalsy(keys[1..], p)
      case None => None
      case Some(k) => Some(k + 1)
  }

  /** api_marketplace_upload: name, model_url and creator are checked in that order and
      the first that is missing or empty is named in the refusal; a value that is a
      non-empty list or object, or an integer beyond 64 bits, passes the check but cannot
      be stored and raises. */
  function MarketplaceUpload(p: Json.Payload): (r: Result<Upload>)
    ensures (exists k :: 0 <= k < 3 && !Json.Truthy(Json.Get(p, UploadFields[k], Json.JNull))) ==>
              exists k :: 0 <= k < 3 && r == Err(UploadFields[k] + " required")
                          && !Json.Truthy(Json.Get(p, UploadFields[k], Json.JNull))
                          && forall j :: 0 <= j < k ==> Json.Truthy(Json.Get(p, UploadFields[j], Json.JNull))
    ensures r.Ok? <==> forall k :: 0 <= k < 3 ==> UploadFields[k] in p && Json.Truthy(p[UploadFields[k]])
                                                  && Json.Bindable(p[UploadFields[k]])
    ensures r.Ok? ==> r.value == Upload(p["name"], p["model_url"], p["creator"])
  {
    match FirstFalsy(UploadFields, p)
    case Some(k) => Err(UploadFields[k] + " required")
    case None =>
      assert Json.Truthy(Json.Get(p, UploadFields[0], Json.JNull));
      assert Json.Truthy(Json.Get(p, UploadFields[1], Json.JNull));
      assert Json.Truthy(Json.Get(p, UploadFields[2], Json.JNull));
      if !Json.Bindable(p["name"]) || !Json.Bindable(p["model_url"]) || !Json.Bindable(p["creator"]) then
        Err(ServerError)
      else
        Ok(Upload(p["name"], p["model_url"], p["creator"]))
  }
}
