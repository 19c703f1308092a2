/** The per-day weather record served by the series endpoint. */
module WeatherModels {
  import opened Wrappers
  import opened PyJson

  /** One day of the archive. `Date` is required; the three measurements are
      independently optional and nothing relates them to each other (a
      `MinTemp` above `MaxTemp` is accepted). Field names follow the keys of
      the dicts the series path builds. */
  datatype WeatherDay = WeatherDay(
    Date: string,
    MaxTemp: Option<real> := None,
    MinTemp: Option<real> := None,
    Humidity: Option<real> := None)

  /** The dict keys of a serialized `WeatherDay`. */
  const FieldNames: set<string> := {"Date", "MaxTemp", "MinTemp", "Humidity"}

  /** Validation of one optional float field: absent or `null` is `None`, a
      number is kept, anything else is rejected. */
  function OptionalNumber(m: map<string, Json>, key: string): (r: Option<Option<real>>)
    ensures r.Some? <==> key !in m || m[key].JNull? || m[key].JNum?
    ensures r == Some(None) <==> key !in m || m[key].JNull?
    ensures key in m && m[key].JNum? ==> r == Some(Some(m[key].num))
  {
    if key !in m then Some(None)
    else match m[key]
      case JNull => Some(None)
      case JNum(x) => Some(Some(x))
      case _ => None
  }

  /** Validating a decoded dict as a `WeatherDay`: `None` when it is rejected. */
  function Validate(v: Json): (r: Option<WeatherDay>)
    ensures r.Some? <==>
      v.JObj? && "Date" in v.fields && v.fields["Date"].JStr?
      && OptionalNumber(v.fields, "MaxTemp").Some?
      && OptionalNumber(v.fields, "MinTemp").Some?
      && OptionalNumber(v.fields, "Humidity").Some?
    ensures r.Some? ==> r.value.Date == v.fields["Date"].str
    ensures r.Some? ==>
      && r.value.MaxTemp == OptionalNumber(v.fields, "MaxTemp").value
      && r.value.MinTemp == OptionalNumber(v.fields, "MinTemp").value
      && r.value.Humidity == OptionalNumber(v.fields, "Humidity").value
  {
    match v
    case JObj(m) =>
      if "Date" in m && m["Date"].JStr? then
        var hi := OptionalNumber(m, "MaxTemp");
        var lo := OptionalNumber(m, "MinTemp");
        var hum := OptionalNumber(m, "Humidity");
        if hi.Some? && lo.Some? && hum.Some? then
          Some(WeatherDay(m["Date"].str, hi.value, lo.value, hum.value))
        else None
      else None
    case _ => None
  }

  function JsonOf(x: Option<real>): Json {
    match x
    case None => JNull
    case Some(v) => JNum(v)
  }

  /** Serializing a `WeatherDay` as a dict with exactly the four field keys. */
  function Dump(w: WeatherDay): (v: Json)
    ensures v.JObj? && v.fields.Keys == FieldNames
  {
    JObj(map["Date" := JStr(w.Date), "MaxTemp" := JsonOf(w.MaxTemp),
             "MinTemp" := JsonOf(w.MinTemp), "Humidity" := JsonOf(w.Humidity)])
  }

  /** Validation inverts serialization. */
  lemma ValidateDump(w: WeatherDay)
    ensures Validate(Dump(w)) == Some(w)
  {
    var m := Dump(w).fields;
    assert m["Date"] == JStr(w.Date);
    assert m["MaxTemp"] == JsonOf(w.MaxTemp);
    assert m["MinTemp"] == JsonOf(w.MinTemp);
    assert m["Humidity"] == JsonOf(w.Humidity);
  }

  /** No relation between the fields is enforced: a day whose minimum is above
      its maximum is a valid record. */
  lemma MinAboveMaxAccepted()
    ensures Validate(JObj(map["Date" := JStr("2020-01-01"), "MaxTemp" := JNum(1.0), "MinTemp" := JNum(2.0)]))
         == Some(WeatherDay("2020-01-01", Some(1.0), Some(2.0), None))
  {
  }
}
