/** The weather adapter: the fixed table of supported countries, the summary
    path used by the chat orchestrator (which degrades to sentinel strings and
    never raises) and the per-day series path (which raises for an unknown
    country). The HTTP fetch of the weather archive is an oracle from the
    request to the decoded payload; the current date is a parameter. */
module WeatherService {
  import opened Wrappers
  import opened PyJson
  import opened WeatherModels

  predicate IsLowerCase(s: string) {
    forall i :: 0 <= i < |s| ==> !('A' <= s[i] <= 'Z')
  }

  /** Table keys are lower-case names. */
  type CountryName = s: string | IsLowerCase(s)

  datatype Coord = Coord(lat: real, lon: real, timezone: string)

  datatype Country = Country(name: CountryName, coord: Coord)

  // The table, in the order it is written, in blocks of seven entries.
  const Block1: seq<Country> := [
    Country("afghanistan", Coord(34.5553, 69.2075, "Asia/Kabul")),
    Country("albania", Coord(41.3275, 19.8187, "Europe/Tirane")),
    Country("algeria", Coord(36.7372, 3.0863, "Africa/Algiers")),
    Country("argentina", Coord(-34.6037, -58.3816, "America/Argentina/Buenos_Aires")),
    Country("australia", Coord(-35.2809, 149.1300, "Australia/Canberra")),
    Country("bangladesh", Coord(23.8103, 90.4125, "Asia/Dhaka")),
    Country("brazil", Coord(-15.8267, -47.9218, "America/Sao_Paulo"))
  ]

  const Block2: seq<Country> := [
    Country("canada", Coord(45.4215, -75.6972, "America/Toronto")),
    Country("chad", Coord(12.1348, 15.0557, "Africa/Ndjamena")),
    Country("chile", Coord(-33.4489, -70.6693, "America/Santiago")),
    Country("china", Coord(39.9042, 116.4074, "Asia/Shanghai")),
    Country("colombia", Coord(4.7110, -74.0721, "America/Bogota")),
    Country("egypt", Coord(30.0444, 31.2357, "Africa/Cairo")),
    Country("france", Coord(48.8566, 2.3522, "Europe/Paris"))
  ]

  const Block3: seq<Country> := [
    Country("germany", Coord(52.5200, 13.4050, "Europe/Berlin")),
    Country("ghana", Coord(5.6037, -0.1870, "Africa/Accra")),
    Country("greece", Coord(37.9838, 23.7275, "Europe/Athens")),
    Country("india", Coord(28.6139, 77.2090, "Asia/Kolkata")),
    Country("indonesia", Coord(-6.2088, 106.8456, "Asia/Jakarta")),
    Country("iran", Coord(35.6892, 51.3890, "Asia/Tehran")),
    Country("iraq", Coord(33.3152, 44.3661, "Asia/Baghdad"))
  ]

  const Block4: seq<Country> := [
    Country("italy", Coord(41.9028, 12.4964, "Europe/Rome")),
    Country("japan", Coord(35.6762, 139.6503, "Asia/Tokyo")),
    Country("kenya", Coord(-1.2921, 36.8219, "Africa/Nairobi")),
    Country("mexico", Coord(19.4326, -99.1332, "America/Mexico_City")),
    Country("morocco", Coord(33.9716, -6.8498, "Africa/Casablanca")),
    Country("nigeria", Coord(9.0765, 7.3986, "Africa/Lagos")),
    Country("norway", Coord(59.9139, 10.7522, "Europe/Oslo"))
  ]

  const Block5: seq<Country> := [
    Country("pakistan", Coord(33.6844, 73.0479, "Asia/Karachi")),
    Country("peru", Coord(-12.0464, -77.0428, "America/Lima")),
    Country("philippines", Coord(14.5995, 120.9842, "Asia/Manila")),
    Country("poland", Coord(52.2297, 21.0122, "Europe/Warsaw")),
    Country("portugal", Coord(38.7223, -9.1393, "Europe/Lisbon")),
    Country("russia", Coord(55.7558, 37.6173, "Europe/Moscow")),
    Country("saudi arabia", Coord(24.7136, 46.6753, "Asia/Riyadh"))
  ]

  const Block6: seq<Country> := [
    Country("south africa", Coord(-25.7479, 28.2293, "Africa/Johannesburg")),
    Country("south korea", Coord(37.5665, 126.9780, "Asia/Seoul")),
    Country("spain", Coord(40.4168, -3.7038, "Europe/Madrid")),
    Country("sudan", Coord(15.5007, 32.5599, "Africa/Khartoum")),
    Country("sweden", Coord(59.3293, 18.0686, "Europe/Stockholm")),
    Country("thailand", Coord(13.7563, 100.5018, "Asia/Bangkok")),
    Country("tunisia", Coord(36.8065, 10.1815, "Africa/Tunis"))
  ]

  const Block7: seq<Country> := [
    Country("turkey", Coord(39.9334, 32.8597, "Europe/Istanbul")),
    Country("uganda", Coord(0.3476, 32.5825, "Africa/Kampala")),
    Country("ukraine", Coord(50.4501, 30.5234, "Europe/Kyiv")),
    Country("united kingdom", Coord(51.5074, -0.1278, "Europe/London")),
    Country("united states", Coord(38.9072, -77.0369, "America/New_York")),
    Country("vietnam", Coord(21.0278, 105.8342, "Asia/Ho_Chi_Minh")),
    Country("zambia", Coord(-15.3875, 28.3228, "Africa/Lusaka"))
  ]

  const CountryTable: seq<Country> := Block1 + Block2 + Block3 + Block4 + Block5 + Block6 + Block7

  /** The dict a display of `entries` builds: a later entry with the same key
      replaces the value of an earlier one. */
  function DictOf(entries: seq<Country>): (r: map<string, Coord>)
    ensures |r| <= |entries|
    ensures entries != [] ==> var last := entries[|entries| - 1]; last.name in r && r[last.name] == last.coord
  {
    if entries == [] then map[]
    else
      var last := entries[|entries| - 1];
      DictOf(entries[..|entries| - 1])[last.name := last.coord]
  }

  const CountryCoords: map<string, Coord> := DictOf(CountryTable)

  /** A key is in the dict exactly when some entry carries it. */
  lemma {:induction false} DictOfKeys(entries: seq<Country>, key: string)
    ensures key in DictOf(entries) <==> exists i :: 0 <= i < |entries| && entries[i].name == key
  {
    if entries != [] {
      var n := |entries| - 1;
      var init := entries[..n];
      DictOfKeys(init, key);
      if entries[n].name != key {
        if key in DictOf(entries) {
          assert key in DictOf(init);
          var i :| 0 <= i < |init| && init[i].name == key;
          assert entries[i] == init[i];
        }
        if exists i :: 0 <= i < |entries| && entries[i].name == key {
          var i :| 0 <= i < |entries| && entries[i].name == key;
          assert init[i] == entries[i];
        }
      }
    }
  }

  /** A key in the dict maps to the coordinates of the last entry carrying
      it: the later entry wins. */
  lemma {:induction false} DictOfLast(entries: seq<Country>, key: string)
    requires key in DictOf(entries)
    ensures exists i :: 0 <= i < |entries| && entries[i].name == key && DictOf(entries)[key] == entries[i].coord
                        && (forall j :: i < j < |entries| ==> entries[j].name != key)
  {
    var n := |entries| - 1;
    var init := entries[..n];
    if entries[n].name == key {
      assert DictOf(entries)[key] == entries[n].coord;
    } else {
      assert key in DictOf(init) && DictOf(entries)[key] == DictOf(init)[key];
      DictOfLast(init, key);
      var i :| 0 <= i < |init| && init[i].name == key && DictOf(init)[key] == init[i].coord
        && forall j :: i < j < |init| ==> init[j].name != key;
      assert entries[i] == init[i];
      forall j | i < j < |entries| ensures entries[j].name != key {
        if j < n {
          assert entries[j] == init[j];
        }
      }
    }
  }

  /** Strict lexicographic order of strings, by character code. */
  predicate NameBefore(a: string, b: string) {
    b != [] && (a == [] || a[0] < b[0] || (a[0] == b[0] && NameBefore(a[1..], b[1..])))
  }

  lemma {:induction false} NameBeforeTransitive(a: string, b: string, c: string)
    requires NameBefore(a, b) && NameBefore(b, c)
    ensures NameBefore(a, c)
  {
    if a != [] && a[0] == b[0] && b[0] == c[0] {
      NameBeforeTransitive(a[1..], b[1..], c[1..]);
    }
  }

  lemma {:induction false} NameBeforeIrreflexive(a: string)
    ensures !NameBefore(a, a)
  {
    if a != [] {
      NameBeforeIrreflexive(a[1..]);
    }
  }

  /** Each entry's name comes before the next one's. */
  predicate NamesAscending(entries: seq<Country>) {
    forall i :: 0 <= i < |entries| - 1 ==> NameBefore(entries[i].name, entries[i + 1].name)
  }

  /** Two strings that agree below `k` and differ at `k`, the first one
      lower there, are in order. */
  lemma {:induction false} NameBeforeAt(a: string, b: string, k: nat)
    requires k < |b| && (k == |a| || (k < |a| && a[k] < b[k]))
    requires k <= |a| && a[..k] == b[..k]
    ensures NameBefore(a, b)
  {
    if k > 0 {
      assert a[1..][..k - 1] == a[..k][1..] && b[1..][..k - 1] == b[..k][1..];
      NameBeforeAt(a[1..], b[1..], k - 1);
    }
  }

  // Each block of the table is in alphabetical order: every neighbouring pair
  // is ordered at the first position where the two names differ.
  lemma Block1Ascending()
    ensures NamesAscending(Block1)
  {
    forall i | 0 <= i < |Block1| - 1 ensures NameBefore(Block1[i].name, Block1[i + 1].name) {
      if i == 0 { NameBeforeAt(Block1[0].name, Block1[1].name, 1); }
      else if i == 1 { NameBeforeAt(Block1[1].name, Block1[2].name, 2); }
      else if i == 2 { NameBeforeAt(Block1[2].name, Block1[3].name, 1); }
      else if i == 3 { NameBeforeAt(Block1[3].name, Block1[4].name, 1); }
      else if i == 4 { NameBeforeAt(Block1[4].name, Block1[5].name, 0); }
      else { NameBeforeAt(Block1[5].name, Block1[6].name, 1); }
    }
  }

  lemma Block2Ascending()
    ensures NamesAscending(Block2)
  {
    forall i | 0 <= i < |Block2| - 1 ensures NameBefore(Block2[i].name, Block2[i + 1].name) {
      if i == 0 { NameBeforeAt(Block2[0].name, Block2[1].name, 1); }
      else if i == 1 { NameBeforeAt(Block2[1].name, Block2[2].name, 2); }
      else if i == 2 { NameBeforeAt(Block2[2].name, Block2[3].name, 3); }
      else if i == 3 { NameBeforeAt(Block2[3].name, Block2[4].name, 1); }
      else if i == 4 { NameBeforeAt(Block2[4].name, Block2[5].name, 0); }
      else { NameBeforeAt(Block2[5].name, Block2[6].name, 0); }
    }
  }

  lemma Block3Ascending()
    ensures NamesAscending(Block3)
  {
    forall i | 0 <= i < |Block3| - 1 ensures NameBefore(Block3[i].name, Block3[i + 1].name) {
      if i == 0 { NameBeforeAt(Block3[0].name, Block3[1].name, 1); }
      else if i == 1 { NameBeforeAt(Block3[1].name, Block3[2].name, 1); }
      else if i == 2 { NameBeforeAt(Block3[2].name, Block3[3].name, 0); }
      else if i == 3 { NameBeforeAt(Block3[3].name, Block3[4].name, 3); }
      else if i == 4 { NameBeforeAt(Block3[4].name, Block3[5].name, 1); }
      else { NameBeforeAt(Block3[5].name, Block3[6].name, 3); }
    }
  }

  lemma Block4Ascending()
    ensures NamesAscending(Block4)
  {
    forall i | 0 <= i < |Block4| - 1 ensures NameBefore(Block4[i].name, Block4[i + 1].name) {
      if i == 0 { NameBeforeAt(Block4[0].name, Block4[1].name, 0); }
      else if i == 1 { NameBeforeAt(Block4[1].name, Block4[2].name, 0); }
      else if i == 2 { NameBeforeAt(Block4[2].name, Block4[3].name, 0); }
      else if i == 3 { NameBeforeAt(Block4[3].name, Block4[4].name, 1); }
      else if i == 4 { NameBeforeAt(Block4[4].name, Block4[5].name, 0); }
      else { NameBeforeAt(Block4[5].name, Block4[6].name, 1); }
    }
  }

  lemma Block5Ascending()
    ensures NamesAscending(Block5)
  {
    forall i | 0 <= i < |Block5| - 1 ensures NameBefore(Block5[i].name, Block5[i + 1].name) {
      if i == 0 { NameBeforeAt(Block5[0].name, Block5[1].name, 1); }
      else if i == 1 { NameBeforeAt(Block5[1].name, Block5[2].name, 1); }
      else if i == 2 { NameBeforeAt(Block5[2].name, Block5[3].name, 1); }
      else if i == 3 { NameBeforeAt(Block5[3].name, Block5[4].name, 2); }
      else if i == 4 { NameBeforeAt(Block5[4].name, Block5[5].name, 0); }
      else { NameBeforeAt(Block5[5].name, Block5[6].name, 0); }
    }
  }

  lemma Block6Ascending()
    ensures NamesAscending(Block6)
  {
    forall i | 0 <= i < |Block6| - 1 ensures NameBefore(Block6[i].name, Block6[i + 1].name) {
      if i == 0 { NameBeforeAt(Block6[0].name, Block6[1].name, 6); }
      else if i == 1 { NameBeforeAt(Block6[1].name, Block6[2].name, 1); }
      else if i == 2 { NameBeforeAt(Block6[2].name, Block6[3].name, 1); }
      else if i == 3 { NameBeforeAt(Block6[3].name, Block6[4].name, 1); }
      else if i == 4 { NameBeforeAt(Block6[4].name, Block6[5].name, 0); }
      else { NameBeforeAt(Block6[5].name, Block6[6].name, 1); }
    }
  }

  lemma Block7Ascending()
    ensures NamesAscending(Block7)
  {
    forall i | 0 <= i < |Block7| - 1 ensures NameBefore(Block7[i].name, Block7[i + 1].name) {
      if i == 0 { NameBeforeAt(Block7[0].name, Block7[1].name, 0); }
      else if i == 1 { NameBeforeAt(Block7[1].name, Block7[2].name, 1); }
      else if i == 2 { NameBeforeAt(Block7[2].name, Block7[3].name, 1); }
      else if i == 3 { NameBeforeAt(Block7[3].name, Block7[4].name, 7); }
      else if i == 4 { NameBeforeAt(Block7[4].name, Block7[5].name, 0); }
      else { NameBeforeAt(Block7[5].name, Block7[6].name, 0); }
    }
  }

  /** Two ascending runs, the first ending before the second begins, make
      an ascending run. */
  lemma AscendingAppend(a: seq<Country>, b: seq<Country>)
    requires a != [] && b != [] && NamesAscending(a) && NamesAscending(b)
    requires NameBefore(a[|a| - 1].name, b[0].name)
    ensures NamesAscending(a + b)
  {
    forall i | 0 <= i < |a + b| - 1 ensures NameBefore((a + b)[i].name, (a + b)[i + 1].name) {
      if i >= |a| {
        assert (a + b)[i] == b[i - |a|] && (a + b)[i + 1] == b[i - |a| + 1];
      }
    }
  }

  /** In an ascending run every name comes before every later one, so no
      name occurs twice. */
  lemma {:induction false} AscendingDistinct(entries: seq<Country>, i: nat, j: nat)
    requires NamesAscending(entries) && i < j < |entries|
    ensures NameBefore(entries[i].name, entries[j].name)
    ensures entries[i].name != entries[j].name
    decreases j - i
  {
    if i + 1 < j {
      AscendingDistinct(entries, i + 1, j);
      NameBeforeTransitive(entries[i].name, entries[i + 1].name, entries[j].name);
    }
    if entries[i].name == entries[j].name {
      NameBeforeIrreflexive(entries[i].name);
    }
  }

  /** A dict display over pairwise distinct names has one key per entry. */
  lemma {:induction false} DictOfSize(entries: seq<Country>)
    requires forall i, j :: 0 <= i < j < |entries| ==> entries[i].name != entries[j].name
    ensures |DictOf(entries)| == |entries|
  {
    if entries != [] {
      var n := |entries| - 1;
      var init := entries[..n];
      DictOfSize(init);
      DictOfKeys(init, entries[n].name);
      assert entries[n].name !in DictOf(init);
    }
  }

  lemma TableAscending()
    ensures NamesAscending(CountryTable)
  {
    Block1Ascending(); Block2Ascending(); Block3Ascending(); Block4Ascending();
    Block5Ascending(); Block6Ascending(); Block7Ascending();
    AscendingAppend(Block1, Block2);
    AscendingAppend(Block1 + Block2, Block3);
    AscendingAppend(Block1 + Block2 + Block3, Block4);
    AscendingAppend(Block1 + Block2 + Block3 + Block4, Block5);
    AscendingAppend(Block1 + Block2 + Block3 + Block4 + Block5, Block6);
    AscendingAppend(Block1 + Block2 + Block3 + Block4 + Block5 + Block6, Block7);
  }

  /** The table's 49 names are pairwise distinct, so the dict holds 49 keys:
      no entry is shadowed by a later one. */
  lemma FortyNineCountries()
    ensures forall i, j :: 0 <= i < j < |CountryTable| ==> CountryTable[i].name != CountryTable[j].name
    ensures |CountryCoords| == 49
  {
    TableAscending();
    forall i, j | 0 <= i < j < |CountryTable| ensures CountryTable[i].name != CountryTable[j].name {
      AscendingDistinct(CountryTable, i, j);
    }
    DictOfSize(CountryTable);
  }

  /** The table has 49 entries, every supported key is a lower-case name, and a
      key with an upper-case letter is never supported: the lookup is an exact,
      case-sensitive match. */
  lemma SupportedKeysAreLowerCase(key: string)
    ensures |CountryTable| == 49
    ensures key in CountryCoords ==> IsLowerCase(key)
    ensures (exists i :: 0 <= i < |key| && 'A' <= key[i] <= 'Z') ==> key !in CountryCoords
  {
    DictOfKeys(CountryTable, key);
  }

  /** `"france"` is supported; `"France"` is not. */
  lemma FranceIsCaseSensitive()
    ensures "france" in CountryCoords
    ensures "France" !in CountryCoords
  {
    assert CountryTable[13].name == "france";
    DictOfKeys(CountryTable, "france");
    SupportedKeysAreLowerCase("France");
    assert "France"[0] == 'F';
  }

  // ---------------------------------------------------------------------------
  // The archive request

  /** Both paths ask the archive for the same period, starting on this date. */
  const ArchiveStartDate := "2020-01-01"

  const MaxField := "temperature_2m_max"
  const MinField := "temperature_2m_min"
  const HumidityField := "relative_humidity_2m_mean"

  /** The four column names of the payload are distinct keys. */
  lemma ColumnNamesDistinct()
    ensures "time" != MaxField && "time" != MinField && "time" != HumidityField
    ensures MaxField != MinField && MaxField != HumidityField && MinField != HumidityField
  {
    assert MaxField[16] != MinField[16];
  }

  /** The query string of the archive URL, field by field. */
  datatype ArchiveQuery = ArchiveQuery(
    latitude: real, longitude: real, startDate: string, endDate: string,
    daily: seq<string>, timezone: string)

  /** What `requests.get`, `raise_for_status` and `response.json()` end in:
      the decoded body; a body that is not JSON, whose `JSONDecodeError` is a
      `ValueError` carrying `message`; or a failure of the request or of its
      status check. */
  datatype FetchOutcome = Fetched(payload: Json) | NotJson(message: string) | FetchFailed

  /** The request both paths send for a country's coordinates, `today` being
      the current date as `YYYY-MM-DD`. */
  function ArchiveRequest(c: Coord, today: string): (q: ArchiveQuery)
    ensures q.startDate == ArchiveStartDate && q.endDate == today
    ensures q.latitude == c.lat && q.longitude == c.lon && q.timezone == c.timezone
    ensures q.daily == [MaxField, MinField, HumidityField]
  {
    ArchiveQuery(c.lat, c.lon, ArchiveStartDate, today, [MaxField, MinField, HumidityField], c.timezone)
  }

  // ---------------------------------------------------------------------------
  // Averages

  /** `sum(xs)`: left to right from 0; anything but a number raises. */
  function Sum(xs: seq<Json>): (r: Result<real, PyError>)
    ensures r.Success? <==> forall i :: 0 <= i < |xs| ==> xs[i].JNum?
  {
    if xs == [] then Success(0.0)
    else if !xs[0].JNum? then Failure(TypeError)
    else
      var rest :- Sum(xs[1..]);
      Success(xs[0].num + rest)
  }

  /** `sum(xs) / len(xs) if xs else None` */
  function Mean(xs: seq<Json>): (r: Result<Option<real>, PyError>)
    ensures r == Success(None) <==> xs == []
    ensures r.Success? <==> forall i :: 0 <= i < |xs| ==> xs[i].JNum?
  {
    if xs == [] then Success(None)
    else
      var total :- Sum(xs);
      Success(Some(total / |xs| as real))
  }

  /** The three averages the summary reports; each is `None` when its field has
      no sample. */
  datatype Averages = Averages(avgMaxTemp: Option<real>, avgMinTemp: Option<real>, avgHumidity: Option<real>)

  // ---------------------------------------------------------------------------
  // The summary digest as written: `data["daily"]` iterated as a list of days

  /** `[day[field] for day in days if day[field] is not None]`, left to right. */
  function NonNullFields(days: seq<Json>, field: string): (r: Result<seq<Json>, PyError>)
    ensures r.Success? <==> forall i :: 0 <= i < |days| ==> days[i].JObj? && field in days[i].fields
    ensures r.Success? ==> |r.value| <= |days| && forall k :: 0 <= k < |r.value| ==> !r.value[k].JNull?
  {
    if days == [] then Success([])
    else
      var x :- GetKey(days[0], field);
      var rest :- NonNullFields(days[1..], field);
      Success(if x.JNull? then rest else [x] + rest)
  }

  /** The same comprehension over `daily` whatever its shape. Iterating a dict
      yields its keys and iterating a string its characters; both are strings,
      and indexing a string with a string raises `TypeError`. Numbers and
      `null` are not iterable. */
  function SamplesAsWritten(daily: Json, field: string): (r: Result<seq<Json>, PyError>)
    ensures !daily.JArr? ==> (r.Success? <==> daily == JObj(map[]) || daily == JStr(""))
    ensures !daily.JArr? && r.Success? ==> r.value == []
    ensures r.Success? ==> forall k :: 0 <= k < |r.value| ==> !r.value[k].JNull?
  {
    match daily
    case JArr(days) => NonNullFields(days, field)
    case JObj(m) => if m == map[] then Success([]) else Failure(TypeError)
    case JStr(s) => if s == "" then Success([]) else Failure(TypeError)
    case _ => Failure(TypeError)
  }

  /** The summary digest as written: `data["daily"]`, the three comprehensions
      and the three averages, stopping at the first exception. */
  function DigestAsWritten(data: Json): (r: Result<Averages, PyError>)
    ensures !(data.JObj? && "daily" in data.fields) ==> r == Failure(if data.JObj? then KeyError else TypeError)
    ensures data.JObj? && "daily" in data.fields && data.fields["daily"].JObj? && data.fields["daily"].fields != map[] ==>
      r == Failure(TypeError)
    ensures r.Success? ==>
      var daily := data.fields["daily"];
      && SamplesAsWritten(daily, MaxField).Success?
      && SamplesAsWritten(daily, MinField).Success?
      && SamplesAsWritten(daily, HumidityField).Success?
      && (r.value.avgMaxTemp.None? <==> SamplesAsWritten(daily, MaxField).value == [])
      && (r.value.avgMinTemp.None? <==> SamplesAsWritten(daily, MinField).value == [])
      && (r.value.avgHumidity.None? <==> SamplesAsWritten(daily, HumidityField).value == [])
  {
    var daily :- GetKey(data, "daily");
    var highs :- SamplesAsWritten(daily, MaxField);
    var lows :- SamplesAsWritten(daily, MinField);
    var hums :- SamplesAsWritten(daily, HumidityField);
    var a :- Mean(highs);
    var b :- Mean(lows);
    var c :- Mean(hums);
    Success(Averages(a, b, c))
  }

  /** A day as the summary as written reads it: a dict holding `field` as a
      number or null. */
  predicate DayHasField(day: Json, field: string) {
    day.JObj? && field in day.fields && (day.fields[field].JNum? || day.fields[field].JNull?)
  }

  /** A payload in the shape the summary as written expects: `daily` is a list
      of days, each holding the three fields as a number or null. */
  predicate WellFormedDays(data: Json) {
    data.JObj? && "daily" in data.fields && data.fields["daily"].JArr?
    && forall i :: 0 <= i < |data.fields["daily"].items| ==>
         var day := data.fields["daily"].items[i];
         DayHasField(day, MaxField) && DayHasField(day, MinField) && DayHasField(day, HumidityField)
  }

  /** `day[field]` on a day that holds it. */
  function FieldOf(day: Json, field: string): Json
    requires DayHasField(day, field)
  {
    day.fields[field]
  }

  function Days(data: Json): seq<Json>
    requires WellFormedDays(data)
  {
    data.fields["daily"].items
  }

  /** The entries of `field` across the days, in order. */
  function FieldColumn(days: seq<Json>, field: string): seq<Json>
    requires forall i :: 0 <= i < |days| ==> DayHasField(days[i], field)
  {
    seq(|days|, i requires 0 <= i < |days| => FieldOf(days[i], field))
  }

  /** Over days that all hold the field, the comprehension raises nothing and
      keeps the field's non-null entries in order. */
  lemma {:induction false} NonNullFieldsColumn(days: seq<Json>, field: string)
    requires forall i :: 0 <= i < |days| ==> DayHasField(days[i], field)
    ensures NonNullFields(days, field) == Success(NonNull(FieldColumn(days, field)))
  {
    if days != [] {
      assert forall i :: 0 <= i < |days[1..]| ==> days[1..][i] == days[i + 1];
      NonNullFieldsColumn(days[1..], field);
      var col := FieldColumn(days, field);
      assert col[0] == days[0].fields[field];
      assert col[1..] == FieldColumn(days[1..], field);
    }
  }

  /** On a list of well-formed days the digest as written succeeds, and each
      average is `None` exactly when its own field is null on every day,
      independently of the other two. */
  lemma DigestAsWrittenFieldRule(data: Json)
    requires WellFormedDays(data)
    ensures DigestAsWritten(data).Success?
    ensures DigestAsWritten(data).value.avgMaxTemp.None? <==>
      forall i :: 0 <= i < |Days(data)| ==> Days(data)[i].fields[MaxField].JNull?
    ensures DigestAsWritten(data).value.avgMinTemp.None? <==>
      forall i :: 0 <= i < |Days(data)| ==> Days(data)[i].fields[MinField].JNull?
    ensures DigestAsWritten(data).value.avgHumidity.None? <==>
      forall i :: 0 <= i < |Days(data)| ==> Days(data)[i].fields[HumidityField].JNull?
  {
    var days := Days(data);
    FieldRule(days, MaxField);
    FieldRule(days, MinField);
    FieldRule(days, HumidityField);
  }

  /** One field of the rule above: its samples are numbers, and there are none
      exactly when it is null on every day. */
  lemma FieldRule(days: seq<Json>, field: string)
    requires forall i :: 0 <= i < |days| ==> DayHasField(days[i], field)
    ensures NonNullFields(days, field).Success?
    ensures Mean(NonNullFields(days, field).value).Success?
    ensures Mean(NonNullFields(days, field).value).value.None? <==>
      forall i :: 0 <= i < |days| ==> FieldOf(days[i], field).JNull?
  {
    var col := FieldColumn(days, field);
    NonNullFieldsColumn(days, field);
    NonNullNumbers(col);
    NonNullEmpty(col);
  }

  // ---------------------------------------------------------------------------
  // The summary digest corrected: `data["daily"]` read as parallel columns

  /** The non-null entries of a column, in order. */
  function NonNull(xs: seq<Json>): (r: seq<Json>)
    ensures |r| <= |xs|
    ensures forall i :: 0 <= i < |r| ==> !r[i].JNull?
  {
    if xs == [] then []
    else if xs[0].JNull? then NonNull(xs[1..])
    else [xs[0]] + NonNull(xs[1..])
  }

  /** A column has no sample exactly when every entry is null. */
  lemma {:induction false} NonNullEmpty(xs: seq<Json>)
    ensures NonNull(xs) == [] <==> forall i :: 0 <= i < |xs| ==> xs[i].JNull?
  {
    if xs != [] {
      NonNullEmpty(xs[1..]);
      if xs[0].JNull? {
        forall i | 1 <= i < |xs| ensures xs[i] == xs[1..][i - 1] { }
      }
    }
  }

  /** A column of numbers and nulls has only numbers among its samples. */
  lemma {:induction false} NonNullNumbers(xs: seq<Json>)
    requires forall i :: 0 <= i < |xs| ==> xs[i].JNum? || xs[i].JNull?
    ensures forall i :: 0 <= i < |NonNull(xs)| ==> NonNull(xs)[i].JNum?
  {
    if xs != [] {
      NonNullNumbers(xs[1..]);
    }
  }

  /** `[v for v in daily[field] if v is not None]`, the column required to be a list. */
  function ColumnSamples(daily: Json, field: string): Result<seq<Json>, PyError>
  {
    var col :- GetKey(daily, field);
    if col.JArr? then Success(NonNull(col.items)) else Failure(TypeError)
  }

  function Digest(data: Json): Result<Averages, PyError>
  {
    var daily :- GetKey(data, "daily");
    var highs :- ColumnSamples(daily, MaxField);
    var lows :- ColumnSamples(daily, MinField);
    var hums :- ColumnSamples(daily, HumidityField);
    var a :- Mean(highs);
    var b :- Mean(lows);
    var c :- Mean(hums);
    Success(Averages(a, b, c))
  }

  /** A payload whose `daily` dict holds the three columns as lists of numbers
      and nulls. */
  predicate WellFormedColumns(data: Json) {
    data.JObj? && "daily" in data.fields && data.fields["daily"].JObj?
    && (forall f | f in {MaxField, MinField, HumidityField} ::
          f in data.fields["daily"].fields && data.fields["daily"].fields[f].JArr?
          && forall i :: 0 <= i < |data.fields["daily"].fields[f].items| ==>
               data.fields["daily"].fields[f].items[i].JNum? || data.fields["daily"].fields[f].items[i].JNull?)
  }

  function Column(data: Json, field: string): seq<Json>
    requires WellFormedColumns(data) && field in {MaxField, MinField, HumidityField}
  {
    data.fields["daily"].fields[field].items
  }

  predicate AllNull(xs: seq<Json>) {
    forall i :: 0 <= i < |xs| ==> xs[i].JNull?
  }

  /** On a well-formed payload the corrected digest always succeeds, and each
      average is `None` exactly when its own column holds only nulls,
      independently of the other two. */
  lemma DigestFieldRule(data: Json)
    requires WellFormedColumns(data)
    ensures Digest(data).Success?
    ensures Digest(data).value.avgMaxTemp.None? <==> AllNull(Column(data, MaxField))
    ensures Digest(data).value.avgMinTemp.None? <==> AllNull(Column(data, MinField))
    ensures Digest(data).value.avgHumidity.None? <==> AllNull(Column(data, HumidityField))
  {
    var highs, lows, hums := Column(data, MaxField), Column(data, MinField), Column(data, HumidityField);
    NonNullNumbers(highs);
    NonNullNumbers(lows);
    NonNullNumbers(hums);
    NonNullEmpty(highs);
    NonNullEmpty(lows);
    NonNullEmpty(hums);
  }

  // ---------------------------------------------------------------------------
  // The series: one dict per index of `daily["time"]`

  /** Record `i`: the `i`-th element of the time column and of each of the
      three measurement columns, read in that order. */
  function RecordAt(daily: Json, i: nat): (r: Result<Json, PyError>)
    ensures r.Success? ==> r.value.JObj? && r.value.fields.Keys == FieldNames
  {
    var times :- GetKey(daily, "time");
    var date :- GetIndex(times, i);
    var highs :- GetKey(daily, MaxField);
    var high :- GetIndex(highs, i);
    var lows :- GetKey(daily, MinField);
    var low :- GetIndex(lows, i);
    var hums :- GetKey(daily, HumidityField);
    var hum :- GetIndex(hums, i);
    Success(JObj(map["Date" := date, "MaxTemp" := high, "MinTemp" := low, "Humidity" := hum]))
  }

  /** A dict with exactly the `WeatherDay` field names as keys. */
  predicate IsRecord(v: Json) {
    v.JObj? && v.fields.Keys == FieldNames
  }

  /** The comprehension over `range(i, n)`, stopping at the first exception. */
  function RecordsFrom(daily: Json, i: nat, n: nat): (r: Result<seq<Json>, PyError>)
    ensures r.Success? && i <= n ==> |r.value| == n - i
    decreases n - i
  {
    if i >= n then Success([])
    else
      var r :- RecordAt(daily, i);
      var rest :- RecordsFrom(daily, i + 1, n);
      Success([r] + rest)
  }

  /** The series comprehension over `range(len(data["daily"]["time"]))`. A
      series that is read has one record per entry of the time column, each
      with exactly the `WeatherDay` field names as keys. */
  function SeriesOf(data: Json): (r: Result<seq<Json>, PyError>)
    ensures r.Success? ==>
      && data.JObj? && "daily" in data.fields
      && data.fields["daily"].JObj? && "time" in data.fields["daily"].fields
      && Len(data.fields["daily"].fields["time"]).Success?
      && |r.value| == Len(data.fields["daily"].fields["time"]).value
    ensures r.Success? ==> forall k :: 0 <= k < |r.value| ==> IsRecord(r.value[k])
  {
    var daily :- GetKey(data, "daily");
    var times :- GetKey(daily, "time");
    var n :- Len(times);
    RecordsFromKeys(daily, n);
    RecordsFrom(daily, 0, n)
  }

  /** Every record of a complete comprehension is a `WeatherDay` dict. */
  lemma RecordsFromKeys(daily: Json, n: nat)
    ensures var rs := RecordsFrom(daily, 0, n);
      rs.Success? ==> forall k :: 0 <= k < |rs.value| ==> IsRecord(rs.value[k])
  {
    RecordsFromSpec(daily, 0, n);
    var rs := RecordsFrom(daily, 0, n);
    forall k | rs.Success? && 0 <= k < |rs.value| ensures IsRecord(rs.value[k]) {
      assert rs.value[k - 0] == RecordAt(daily, k).value;
    }
  }

  /** The records from `i` on exist exactly when every index in `[i, n)`
      yields one. */
  lemma {:induction false} RecordsFromSuccess(daily: Json, i: nat, n: nat)
    requires i <= n
    ensures RecordsFrom(daily, i, n).Success? <==> forall j :: i <= j < n ==> RecordAt(daily, j).Success?
    decreases n - i
  {
    if i < n {
      RecordsFromSuccess(daily, i + 1, n);
      var all, first, rest := RecordsFrom(daily, i, n), RecordAt(daily, i), RecordsFrom(daily, i + 1, n);
      if first.Failure? {
        assert all.Failure?;
      } else if rest.Failure? {
        assert all.Failure?;
        var j :| i + 1 <= j < n && RecordAt(daily, j).Failure?;
      } else {
        assert all.Success?;
      }
    }
  }

  /** The records from `i` on exist exactly when every index in `[i, n)` yields
      one, and then the list holds record `j` at position `j - i`. */
  lemma {:induction false} RecordsFromSpec(daily: Json, i: nat, n: nat)
    requires i <= n
    ensures RecordsFrom(daily, i, n).Success? <==> forall j :: i <= j < n ==> RecordAt(daily, j).Success?
    ensures RecordsFrom(daily, i, n).Success? ==>
      |RecordsFrom(daily, i, n).value| == n - i
      && forall j :: i <= j < n ==> RecordsFrom(daily, i, n).value[j - i] == RecordAt(daily, j).value
    decreases n - i
  {
    RecordsFromSuccess(daily, i, n);
    var all := RecordsFrom(daily, i, n);
    if i < n && all.Success? {
      RecordsFromSpec(daily, i + 1, n);
      var first, rest := RecordAt(daily, i), RecordsFrom(daily, i + 1, n);
      assert all.value == [first.value] + rest.value;
      forall j | i <= j < n ensures all.value[j - i] == RecordAt(daily, j).value {
        if j > i {
          assert all.value[j - i] == rest.value[j - (i + 1)];
        }
      }
    }
  }

  /** The series of a payload whose four columns are lists, the three
      measurement lists at least as long as `time`: one record per date, in
      order, record `i` holding the `i`-th element of each list under the
      `WeatherDay` field names. */
  lemma SeriesZip(data: Json)
    requires data.JObj? && "daily" in data.fields
    requires var daily := data.fields["daily"];
      daily.JObj? && (forall f | f in {"time", MaxField, MinField, HumidityField} :: f in daily.fields && daily.fields[f].JArr?)
      && |daily.fields[MaxField].items| >= |daily.fields["time"].items|
      && |daily.fields[MinField].items| >= |daily.fields["time"].items|
      && |daily.fields[HumidityField].items| >= |daily.fields["time"].items|
    ensures var cols := data.fields["daily"].fields;
      SeriesOf(data).Success?
      && |SeriesOf(data).value| == |cols["time"].items|
      && forall i :: 0 <= i < |cols["time"].items| ==>
           SeriesOf(data).value[i] == JObj(map["Date" := cols["time"].items[i],
                                               "MaxTemp" := cols[MaxField].items[i],
                                               "MinTemp" := cols[MinField].items[i],
                                               "Humidity" := cols[HumidityField].items[i]])
  {
    var daily := data.fields["daily"];
    var n := |daily.fields["time"].items|;
    assert "time" in {"time", MaxField, MinField, HumidityField};
    assert MaxField in {"time", MaxField, MinField, HumidityField};
    assert MinField in {"time", MaxField, MinField, HumidityField};
    assert HumidityField in {"time", MaxField, MinField, HumidityField};
    RecordsFromSpec(daily, 0, n);
    forall i | 0 <= i < n
      ensures RecordAt(daily, i) == Success(JObj(map["Date" := daily.fields["time"].items[i],
                                               "MaxTemp" := daily.fields[MaxField].items[i],
                                               "MinTemp" := daily.fields[MinField].items[i],
                                               "Humidity" := daily.fields[HumidityField].items[i]]))
    {
    }
  }

  // ---------------------------------------------------------------------------
  // The service

  /** What the summary path ends in. */
  datatype SummaryOutcome = NotSupported | Unavailable | Available(averages: Averages)

  const CountryNotSupported := "Country not supported"
  const WeatherDataUnavailable := "Weather data unavailable"

  /** `json.dumps` of an optional float; the digits of a float are the
      `showReal` oracle's. */
  function JsonNumber(x: Option<real>, showReal: real -> string): string {
    match x
    case None => "null"
    case Some(v) => showReal(v)
  }

  /** The string the summary path returns for an outcome: a sentinel, or the
      averages dict rendered by `json.dumps`. */
  function SummaryText(o: SummaryOutcome, showReal: real -> string): (r: string)
    ensures o.NotSupported? <==> r == CountryNotSupported
    ensures o.Unavailable? <==> r == WeatherDataUnavailable
    ensures r != ""
  {
    match o
    case NotSupported => CountryNotSupported
    case Unavailable => WeatherDataUnavailable
    case Available(a) =>
      var text := "{\"avg_max_temp\": " + JsonNumber(a.avgMaxTemp, showReal)
        + ", \"avg_min_temp\": " + JsonNumber(a.avgMinTemp, showReal)
        + ", \"avg_humidity\": " + JsonNumber(a.avgHumidity, showReal) + "}";
      assert text[0] == '{' != CountryNotSupported[0] && text[0] != WeatherDataUnavailable[0];
      text
  }

  /** How the series path fails. */
  datatype SeriesError =
    | ValueError(message: string)  // the country is not in the table, or the body is not JSON
    | FetchError                   // the request or its status check raised
    | PayloadError(error: PyError) // reading the decoded payload raised

  /** The weather service over its two external readings: the archive fetch and
      Python's rendering of a float. */
  datatype WeatherService = WeatherService(fetch: ArchiveQuery -> FetchOutcome, showReal: real -> string)
  {
    /** The summary path as written, digesting the payload as a list of days. */
    function SummaryAsWritten(country: string, today: string): (o: SummaryOutcome)
      ensures o.NotSupported? <==> country !in CountryCoords
      ensures o.Available? <==>
        country in CountryCoords
        && var got := fetch(ArchiveRequest(CountryCoords[country], today));
           got.Fetched? && DigestAsWritten(got.payload).Success?
      ensures o.Available? ==>
        o.averages == DigestAsWritten(fetch(ArchiveRequest(CountryCoords[country], today)).payload).value
    {
      if country !in CountryCoords then NotSupported
      else match fetch(ArchiveRequest(CountryCoords[country], today))
        case FetchFailed => Unavailable
        case NotJson(_) => Unavailable
        case Fetched(data) =>
          match DigestAsWritten(data)
          case Failure(_) => Unavailable
          case Success(a) => Available(a)
    }

    /** The summary path with the column digest the series path's reading of
        the same payload calls for. */
    function Summary(country: string, today: string): (o: SummaryOutcome)
      ensures o.NotSupported? <==> country !in CountryCoords
      ensures o.Available? <==>
        country in CountryCoords
        && var got := fetch(ArchiveRequest(CountryCoords[country], today));
           got.Fetched? && Digest(got.payload).Success?
      ensures o.Available? ==>
        o.averages == Digest(fetch(ArchiveRequest(CountryCoords[country], today)).payload).value
    {
      if country !in CountryCoords then NotSupported
      else match fetch(ArchiveRequest(CountryCoords[country], today))
        case FetchFailed => Unavailable
        case NotJson(_) => Unavailable
        case Fetched(data) =>
          match Digest(data)
          case Failure(_) => Unavailable
          case Success(a) => Available(a)
    }

    /** The text the chat orchestrator receives: the summary as written. It
        never raises; any failure after the table lookup, of the fetch or of
        the digest, becomes "Weather data unavailable", and a digest that
        succeeds is rendered. */
    function FetchWeatherSummary(country: string, today: string): (r: string)
      ensures r == CountryNotSupported <==> country !in CountryCoords
      ensures r != ""
      ensures country in CountryCoords ==>
        var got := fetch(ArchiveRequest(CountryCoords[country], today));
        && (r == WeatherDataUnavailable <==> !got.Fetched? || DigestAsWritten(got.payload).Failure?)
        && (got.Fetched? && DigestAsWritten(got.payload).Success? ==>
              r == SummaryText(Available(DigestAsWritten(got.payload).value), showReal))
    {
      SummaryText(SummaryAsWritten(country, today), showReal)
    }

    /** The per-day series. `ValueError` is raised for an unknown country and
        for a body that is not JSON, and for nothing else. */
    function GetFullWeatherData(country: string, today: string): (r: Result<seq<Json>, SeriesError>)
      ensures r.Failure? && r.error.ValueError? <==>
        country !in CountryCoords || fetch(ArchiveRequest(CountryCoords[country], today)).NotJson?
      ensures country !in CountryCoords ==> r == Failure(ValueError(CountryNotSupported))
      ensures country in CountryCoords && fetch(ArchiveRequest(CountryCoords[country], today)).NotJson? ==>
        r == Failure(ValueError(fetch(ArchiveRequest(CountryCoords[country], today)).message))
      ensures country in CountryCoords && fetch(ArchiveRequest(CountryCoords[country], today)).FetchFailed? ==>
        r == Failure(FetchError)
      ensures country in CountryCoords && fetch(ArchiveRequest(CountryCoords[country], today)).Fetched? ==>
        var series := SeriesOf(fetch(ArchiveRequest(CountryCoords[country], today)).payload);
        && (r.Success? <==> series.Success?)
        && (r.Success? ==> r.value == series.value)
        && (r.Failure? ==> r.error == PayloadError(series.error))
    {
      if country !in CountryCoords then Failure(ValueError(CountryNotSupported))
      else match fetch(ArchiveRequest(CountryCoords[country], today))
        case FetchFailed => Failure(FetchError)
        case NotJson(message) => Failure(ValueError(message))
        case Fetched(data) =>
          match SeriesOf(data)
          case Failure(e) => Failure(PayloadError(e))
          case Success(days) => Success(days)
    }
  }

  /** For a supported country, a failed fetch or a body that is not JSON
      degrades the summary to the "unavailable" sentinel, while the series path
      raises: the request's own failure, or the decoding's `ValueError`. */
  lemma FetchFailureDegradesOnlySummary(w: WeatherService, country: string, today: string)
    requires country in CountryCoords
    requires !w.fetch(ArchiveRequest(CountryCoords[country], today)).Fetched?
    ensures w.FetchWeatherSummary(country, today) == WeatherDataUnavailable
    ensures var got := w.fetch(ArchiveRequest(CountryCoords[country], today));
      w.GetFullWeatherData(country, today) == if got.FetchFailed? then Failure(FetchError) else Failure(ValueError(got.message))
  {
  }

  /** For a supported country whose archive answers with a list of well-formed
      days, the summary as written is the rendering of its digest, never a
      sentinel, each average being `null` exactly when its field is null on
      every day. */
  lemma DaysPayloadSummarised(w: WeatherService, country: string, today: string, data: Json)
    requires country in CountryCoords
    requires w.fetch(ArchiveRequest(CountryCoords[country], today)) == Fetched(data)
    requires WellFormedDays(data)
    ensures DigestAsWritten(data).Success?
    ensures w.FetchWeatherSummary(country, today) == SummaryText(Available(DigestAsWritten(data).value), w.showReal)
    ensures w.FetchWeatherSummary(country, today) != WeatherDataUnavailable
    ensures w.FetchWeatherSummary(country, today) != CountryNotSupported
  {
    DigestAsWrittenFieldRule(data);
  }

  /** Both paths depend on the archive only through the one request for the
      country's coordinates from 2020-01-01 to `today`; an unknown country is
      answered without consulting it. */
  lemma OneArchiveRequest(w1: WeatherService, w2: WeatherService, country: string, today: string)
    requires country in CountryCoords ==>
      w1.fetch(ArchiveRequest(CountryCoords[country], today)) == w2.fetch(ArchiveRequest(CountryCoords[country], today))
    ensures w1.SummaryAsWritten(country, today) == w2.SummaryAsWritten(country, today)
    ensures w1.Summary(country, today) == w2.Summary(country, today)
    ensures w1.GetFullWeatherData(country, today) == w2.GetFullWeatherData(country, today)
  {
    if country in CountryCoords {
      var q := ArchiveRequest(CountryCoords[country], today);
      assert w1.fetch(q) == w2.fetch(q);
    }
  }

  // ---------------------------------------------------------------------------
  // The two paths disagree on the shape of the same payload

  /** Whenever the series path reads at least one day out of a payload, the
      summary path as written raises on that same payload: the series needs
      `daily` to be a non-empty dict, and iterating a non-empty dict hands the
      summary's comprehension strings. */
  lemma SeriesShapeDefeatsSummaryAsWritten(data: Json)
    requires SeriesOf(data).Success? && SeriesOf(data).value != []
    ensures DigestAsWritten(data) == Failure(TypeError)
  {
    var daily := GetKey(data, "daily").value;
    assert GetKey(daily, "time").Success?;
    assert "time" in daily.fields;
  }

  /** A one-day archive payload in the dict-of-columns shape. */
  const OneDay: Json := JObj(map["daily" := JObj(map[
    "time" := JArr([JStr("2020-01-01")]),
    MaxField := JArr([JNum(30.0)]),
    MinField := JArr([JNum(20.0)]),
    HumidityField := JArr([JNum(50.0)])])])

  /** The record the series builds from the one-day payload. */
  const OneDayRecord: Json := JObj(map["Date" := JStr("2020-01-01"), "MaxTemp" := JNum(30.0),
                                       "MinTemp" := JNum(20.0), "Humidity" := JNum(50.0)])

  /** The series reads exactly one record out of the one-day payload. */
  lemma OneDaySeries()
    ensures SeriesOf(OneDay) == Success([OneDayRecord])
  {
    ColumnNamesDistinct();
    SeriesZip(OneDay);
    var daily := OneDay.fields["daily"];
    assert daily.fields[MaxField] == JArr([JNum(30.0)]);
    assert daily.fields[MinField] == JArr([JNum(20.0)]);
    assert daily.fields[HumidityField] == JArr([JNum(50.0)]);
    assert daily.fields["time"] == JArr([JStr("2020-01-01")]);
    assert SeriesOf(OneDay).value[0] == OneDayRecord;
    assert SeriesOf(OneDay).value == [OneDayRecord];
  }

  /** The column digest of the one-day payload reports the day's values. */
  lemma OneDayDigest()
    ensures Digest(OneDay) == Success(Averages(Some(30.0), Some(20.0), Some(50.0)))
  {
    ColumnNamesDistinct();
    var daily := OneDay.fields["daily"];
    forall x: real ensures NonNull([JNum(x)]) == [JNum(x)] {
      assert [JNum(x)][1..] == [];
    }
    assert ColumnSamples(daily, MaxField) == Success([JNum(30.0)]);
    assert ColumnSamples(daily, MinField) == Success([JNum(20.0)]);
    assert ColumnSamples(daily, HumidityField) == Success([JNum(50.0)]);
  }

  /** On the one-day payload the series yields its day, the summary as written
      reports the weather unavailable, and the column digest reports the day's
      values. */
  lemma OneDayCounterexample(w: WeatherService, country: string, today: string)
    requires country in CountryCoords
    requires w.fetch(ArchiveRequest(CountryCoords[country], today)) == Fetched(OneDay)
    ensures w.GetFullWeatherData(country, today) == Success([OneDayRecord])
    ensures w.SummaryAsWritten(country, today) == Unavailable
    ensures w.FetchWeatherSummary(country, today) == WeatherDataUnavailable
    ensures w.Summary(country, today) == Available(Averages(Some(30.0), Some(20.0), Some(50.0)))
  {
    OneDaySeries();
    SeriesShapeDefeatsSummaryAsWritten(OneDay);
    OneDayDigest();
  }
}
