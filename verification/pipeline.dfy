/** `getDataSocial` and the loop of `loadChartData` that turns the active
    dataset into map points. */
module Pipeline {
  import opened Wrappers
  import opened JsNumber
  import opened Records
  import opened Colours
  import opened Scoring

  /** The nine provincial capitals kept when the province-only flag is on. */
  const Provinces: seq<string> :=
    ["Catania", "Agrigento", "Trapani", "Enna", "Ragusa", "Caltanissetta", "Siracusa", "Palermo", "Messina"]

  /** One marker on the map. `value` is the population and sizes the marker. */
  datatype Point = Point(id: string, name: string, value: Num, color: Colour, latitude: real, longitude: real)

  /** `getDataSocial`: the dataset of the platform a key names; `None` (JavaScript's
      `null`) for any other key. */
  function GetDataSocial(data: Datasets, social: string): (d: Option<seq<Record>>)
    ensures d.None? <==> PlatformOf(social).None?
    ensures social == "fb" ==> d == Some(data.fb)
    ensures social == "ig" ==> d == Some(data.ig)
    ensures social == "tw" ==> d == Some(data.tw)
    ensures social == "yt" ==> d == Some(data.yt)
  {
    match PlatformOf(social)
    case Some(Facebook) => Some(data.fb)
    case Some(Instagram) => Some(data.ig)
    case Some(Twitter) => Some(data.tw)
    case Some(YouTube) => Some(data.yt)
    case None => None
  }

  /** Whether a row survives the filter: always with the flag off, and with
      it on only when its name is in the allow-list `province`. */
  predicate Keep(prov: bool, province: seq<string>, r: Record) {
    !prov || r.nomeComune in province
  }

  /** The rows that survive the filter, in their original order. */
  function Survivors(rows: seq<Record>, prov: bool, province: seq<string>): (kept: seq<Record>)
    ensures |kept| <= |rows|
    ensures forall x :: x in kept ==> x in rows && Keep(prov, province, x)
    ensures !prov ==> kept == rows
  {
    if |rows| == 0 then []
    else
      var last := rows[|rows| - 1];
      Survivors(rows[..|rows| - 1], prov, province) + (if Keep(prov, province, last) then [last] else [])
  }

  /** Filtering distributes over concatenation, so it keeps the rows' order. */
  lemma {:induction false} SurvivorsAppend(a: seq<Record>, b: seq<Record>, prov: bool, province: seq<string>)
    ensures Survivors(a + b, prov, province) == Survivors(a, prov, province) + Survivors(b, prov, province)
    decreases |b|
  {
    if |b| == 0 {
      assert a + b == a;
    } else {
      var b' := b[..|b| - 1];
      assert (a + b)[..|a + b| - 1] == a + b';
      SurvivorsAppend(a, b', prov, province);
    }
  }

  /** Filtering keeps every copy of a row that passes and none of one that
      does not. */
  lemma {:induction false} SurvivorsCount(rows: seq<Record>, prov: bool, province: seq<string>, x: Record)
    ensures multiset(Survivors(rows, prov, province))[x] ==
      if Keep(prov, province, x) then multiset(rows)[x] else 0
  {
    if |rows| > 0 {
      var init := rows[..|rows| - 1];
      SurvivorsCount(init, prov, province, x);
      assert rows == init + [rows[|rows| - 1]];
    }
  }

  /** No row that passes the filter is lost. */
  lemma {:induction false} SurvivorsComplete(rows: seq<Record>, prov: bool, province: seq<string>, x: Record)
    requires x in rows && Keep(prov, province, x)
    ensures x in Survivors(rows, prov, province)
  {
    SurvivorsCount(rows, prov, province, x);
  }

  /** One more row either joins the survivors at the end or is dropped. */
  lemma SurvivorsStep(rows: seq<Record>, i: nat, prov: bool, province: seq<string>)
    requires i < |rows|
    ensures Survivors(rows[..i + 1], prov, province) ==
      Survivors(rows[..i], prov, province) + (if Keep(prov, province, rows[i]) then [rows[i]] else [])
  {
    assert rows[..i + 1][..i] == rows[..i];
  }

  /** The marker built for one row. */
  function ToPoint(r: Record, social: string, freq: map<string, int>): Point {
    Point(r.prov + "-" + r.comune, r.nomeComune, r.residenti,
          GetColor(GetValue(r, social, freq), social), r.latitudine, r.longitudine)
  }

  /** The markers `build` makes of a sequence of rows, one per row, in order. */
  function Points(rows: seq<Record>, build: Record -> Point): seq<Point> {
    if |rows| == 0 then [] else [build(rows[0])] + Points(rows[1..], build)
  }

  /** Markers are built row by row: the markers of two stretches of rows
      are the markers of the first followed by those of the second. */
  lemma {:induction false} PointsAppend(a: seq<Record>, b: seq<Record>, build: Record -> Point)
    ensures Points(a + b, build) == Points(a, build) + Points(b, build)
  {
    if |a| == 0 {
      assert a + b == b;
    } else {
      assert (a + b)[1..] == a[1..] + b;
      PointsAppend(a[1..], b, build);
    }
  }

  /** Marker k is the marker of row k. */
  lemma {:induction false} PointsAt(rows: seq<Record>, build: Record -> Point)
    ensures |Points(rows, build)| == |rows|
    ensures forall k :: 0 <= k < |rows| ==> Points(rows, build)[k] == build(rows[k])
  {
    if |rows| > 0 {
      PointsAt(rows[1..], build);
    }
  }

  /** One more row adds its marker at the end if it survives the filter,
      and nothing otherwise. */
  lemma ShapeStep(rows: seq<Record>, i: nat, prov: bool, province: seq<string>, build: Record -> Point)
    requires i < |rows|
    ensures Keep(prov, province, rows[i]) ==>
      Points(Survivors(rows[..i + 1], prov, province), build) ==
      Points(Survivors(rows[..i], prov, province), build) + [build(rows[i])]
    ensures !Keep(prov, province, rows[i]) ==>
      Points(Survivors(rows[..i + 1], prov, province), build) ==
      Points(Survivors(rows[..i], prov, province), build)
  {
    SurvivorsStep(rows, i, prov, province);
    var before := Survivors(rows[..i], prov, province);
    if Keep(prov, province, rows[i]) {
      PointsAppend(before, [rows[i]], build);
      assert [rows[i]][1..] == [];
      assert Points([rows[i]], build) == [build(rows[i])];
    } else {
      assert before + [] == before;
    }
  }

  /** The loop of `loadChartData`: the marker `build` makes of each row that
      passes the filter, in order. */
  method ShapeRows(rows: seq<Record>, prov: bool, province: seq<string>, build: Record -> Point)
    returns (points: seq<Point>)
    ensures points == Points(Survivors(rows, prov, province), build)
  {
    points := [];
    var i := 0;
    while i < |rows|
      invariant 0 <= i <= |rows|
      invariant points == Points(Survivors(rows[..i], prov, province), build)
    {
      var r := rows[i];
      ShapeStep(rows, i, prov, province, build);
      if Keep(prov, province, r) {
        points := points + [build(r)];
      }
      i := i + 1;
    }
    assert rows[..i] == rows;
  }

  /** Every marker is named after a row of the dataset that passed the filter. */
  lemma NamesFromSurvivors(points: seq<Point>, rows: seq<Record>, prov: bool,
                           province: seq<string>, build: Record -> Point)
    requires points == Points(Survivors(rows, prov, province), build)
    requires forall x :: build(x).name == x.nomeComune
    ensures forall p :: p in points ==> exists x :: x in rows && Keep(prov, province, x) && p.name == x.nomeComune
  {
    var kept := Survivors(rows, prov, province);
    PointsAt(kept, build);
    forall p | p in points
      ensures exists x :: x in rows && Keep(prov, province, x) && p.name == x.nomeComune
    {
      var k :| 0 <= k < |points| && points[k] == p;
      assert kept[k] in kept;
    }
  }

  /** What a marker carries: the identifier `Prov.-Comune`, the display
      name, the population as its value, the colour of the row's score and
      the row's coordinates. */
  lemma MarkerFields(points: seq<Point>, kept: seq<Record>, social: string, freq: map<string, int>)
    requires |points| == |kept|
    requires forall k :: 0 <= k < |kept| ==> points[k] == ToPoint(kept[k], social, freq)
    ensures forall k :: 0 <= k < |kept| ==>
      && points[k].id == kept[k].prov + "-" + kept[k].comune
      && points[k].name == kept[k].nomeComune
      && points[k].value == kept[k].residenti
      && points[k].color == GetColor(GetValue(kept[k], social, freq), social)
      && points[k].latitude == kept[k].latitudine
      && points[k].longitude == kept[k].longitudine
  {
  }

  /** The filter-and-shape pass of `loadChartData` under the active key
      `social` and province-only flag `prov`, with the nine capitals as the
      allow-list. An unknown key yields `None`: `loadChartData` iterates over
      the `null` dataset and throws. */
  method LoadChartData(data: Datasets, social: string, prov: bool, freq: map<string, int>)
    returns (mapData: Option<seq<Point>>)
    ensures mapData.None? <==> PlatformOf(social).None?
    ensures mapData.Some? ==>
      var kept := Survivors(GetDataSocial(data, social).value, prov, Provinces);
      && |mapData.value| == |kept|
      && forall k :: 0 <= k < |kept| ==>
        && mapData.value[k].id == kept[k].prov + "-" + kept[k].comune
        && mapData.value[k].name == kept[k].nomeComune
        && mapData.value[k].value == kept[k].residenti
        && mapData.value[k].color == GetColor(GetValue(kept[k], social, freq), social)
        && mapData.value[k].latitude == kept[k].latitudine
        && mapData.value[k].longitude == kept[k].longitudine
    ensures mapData.Some? && !prov ==>
      var rows := GetDataSocial(data, social).value;
      |mapData.value| == |rows| && forall k :: 0 <= k < |rows| ==> mapData.value[k] == ToPoint(rows[k], social, freq)
    ensures mapData.Some? && prov ==> forall p :: p in mapData.value ==> p.name in Provinces
    ensures mapData.Some? ==> forall p :: p in mapData.value ==>
      exists x :: x in GetDataSocial(data, social).value && p.name == x.nomeComune
  {
    var socialData := GetDataSocial(data, social);
    if socialData.None? {
      return None;
    }
    var build := (r: Record) => ToPoint(r, social, freq);
    var points := ShapeRows(socialData.value, prov, Provinces, build);
    var kept := Survivors(socialData.value, prov, Provinces);
    PointsAt(kept, build);
    MarkerFields(points, kept, social, freq);
    NamesFromSurvivors(points, socialData.value, prov, Provinces, build);
    mapData := Some(points);
  }
}
