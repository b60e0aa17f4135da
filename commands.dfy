/** Translation of a start command's payload into reader settings. */
module Commands {
  import opened Values
  import opened Device

  /** Why handling a start command stopped early; each is caught by the
      handler's `except` and only reported. */
  datatype StartError =
    | JsonDecodeError               // json.loads raised
    | NoGetAttribute                // the document is not an object, so `.get` raised
    | DriverRaised(call: ReaderCall) // the reader raised on this call
    | NameNotDefined(name: string)  // evaluating an unbound global name

  const DefaultPower: Json := JInt(25)
  const DefaultRegion: Json := JStr("EU3")
  const DefaultAntennas: Json := JArray([JInt(1)])
  const DefaultFilter: Json := JNull
  const DefaultTid: Json := JBool(false)

  /** The reader settings of one start command. Values are passed on as the
      payload held them: nothing checks their types. */
  datatype ReadParams = ReadParams(power: Json, region: Json, antennas: Json, filter: Json, tid: Json)

  /** `fields.get(key, default)` */
  function Get(fields: map<string, Json>, key: string, default: Json): Json
  {
    if key in fields then fields[key] else default
  }

  /** The decoding steps before any reader call: `json.loads`, then the
      first `.get`, which only an object has. */
  function Decode(payload: Payload): (r: Result<map<string, Json>, StartError>)
    ensures r.Success? <==> payload.Decoded? && payload.doc.JObject?
    ensures r.Success? ==> r.value == payload.doc.fields
    ensures payload.Malformed? ==> r == Failure(JsonDecodeError)
    ensures payload.Decoded? && !payload.doc.JObject? ==> r == Failure(NoGetAttribute)
  {
    match payload
    case Malformed => Failure(JsonDecodeError)
    case Decoded(doc) =>
      if doc.JObject? then Success(doc.fields) else Failure(NoGetAttribute)
  }

  /** The five settings read from a start payload, each present key passed
      through unchanged and each absent key replaced by its default. */
  function ParamsOf(fields: map<string, Json>): (p: ReadParams)
    ensures "power" in fields ==> p.power == fields["power"]
    ensures "power" !in fields ==> p.power == JInt(25)
    ensures "region" in fields ==> p.region == fields["region"]
    ensures "region" !in fields ==> p.region == JStr("EU3")
    ensures "antennas" in fields ==> p.antennas == fields["antennas"]
    ensures "antennas" !in fields ==> p.antennas == JArray([JInt(1)])
    ensures "filter" in fields ==> p.filter == fields["filter"]
    ensures "filter" !in fields ==> p.filter == JNull
    ensures "tid" in fields ==> p.tid == fields["tid"]
    ensures "tid" !in fields ==> p.tid == JBool(false)
  {
    ReadParams(
      Get(fields, "power", DefaultPower),
      Get(fields, "region", DefaultRegion),
      Get(fields, "antennas", DefaultAntennas),
      Get(fields, "filter", DefaultFilter),
      Get(fields, "tid", DefaultTid))
  }

  /** A payload object that states every setting of `p` explicitly. */
  function FieldsOf(p: ReadParams): map<string, Json>
  {
    map["power" := p.power, "region" := p.region, "antennas" := p.antennas,
        "filter" := p.filter, "tid" := p.tid]
  }

  /** An empty object yields the documented defaults. */
  lemma EmptyPayloadGivesDefaults()
    ensures ParamsOf(map[]) == ReadParams(JInt(25), JStr("EU3"), JArray([JInt(1)]), JNull, JBool(false))
  {
  }

  /** Every setting can be requested explicitly: reading back an object that
      states all five keys gives exactly those settings. */
  lemma ParamsRoundTrip(p: ReadParams)
    ensures ParamsOf(FieldsOf(p)) == p
  {
  }

  /** Keys other than the five settings do not influence the settings. */
  lemma OtherKeysIgnored(fields: map<string, Json>, key: string, v: Json)
    requires key !in {"power", "region", "antennas", "filter", "tid"}
    ensures ParamsOf(fields[key := v]) == ParamsOf(fields)
  {
  }
}
