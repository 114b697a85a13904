/**
 The client side of plant identification (services/geminiService.ts:7-50):
 decoding the response text and assembling the returned record. The request
 itself is a foreign call; its outcome is an input here, and so is the clock
 value that becomes the record's `id`.
 */
module GeminiService {
  import opened Types
  import opened Json
  import opened Schema
  import opened PlantRecord

  /** How the `generateContent` call ended: it rejected, or it produced a
      response whose `text` may be absent. */
  datatype Response = RequestFailed | Responded(text: Option<string>)

  /** Why an identification produced no record. The client performs no
      required-field check, so there is no schema-violation case. */
  datatype IdentifyError = TransportError | MalformedJson

  const JpegDataUriPrefix: string := "data:image/jpeg;base64,"

  /** The data URI the record's `image` is built from; the mime type is always JPEG. */
  function JpegDataUri(payload: string): (uri: string)
    ensures |uri| == |JpegDataUriPrefix| + |payload|
    ensures uri[..|JpegDataUriPrefix|] == JpegDataUriPrefix
    ensures uri[|JpegDataUriPrefix|..] == payload
  {
    JpegDataUriPrefix + payload
  }

  /** `JSON.parse(text || '{}')`: absent or empty text is read as the empty object;
      any other text goes to the parser, which yields `None` where it would throw. */
  function Decode(text: Option<string>, parse: string -> Option<Json>): (r: Option<Json>)
    ensures text.None? || text == Some("") ==> r == Some(JObj(map[]))
    ensures text.Some? && text.value != "" ==> r == parse(text.value)
  {
    match text
    case None => Some(JObj(map[]))
    case Some(t) => if t == "" then Some(JObj(map[])) else parse(t)
  }

  /** `{ ...data, id, image }`: the decoded properties, then the clock token as
      `id` and the JPEG data URI as `image`, both overriding whatever the
      response carried under those keys. */
  function Assemble(data: Json, now: nat, payload: string): (r: Fields)
    ensures r.Keys == Spread(data).Keys + {"id", "image"}
    ensures r["id"] == JStr(NatToString(now))
    ensures r["image"] == JStr(JpegDataUri(payload))
    ensures forall k :: k in Spread(data) && k != "id" && k != "image" ==> r[k] == Spread(data)[k]
  {
    Spread(data)["id" := JStr(NatToString(now))]["image" := JStr(JpegDataUri(payload))]
  }

  /** `analyzePlantImage(payload)` with the request's outcome, the parser and the
      clock given. A response that decodes always yields a record, whatever it holds. */
  function AnalyzePlantImage(response: Response, parse: string -> Option<Json>, now: nat, payload: string)
    : (r: Result<Fields, IdentifyError>)
    ensures response.RequestFailed? ==> r == Failure(TransportError)
    ensures response.Responded? ==> (r.Success? <==> Decode(response.text, parse).Some?)
    ensures r.Success? ==> "id" in r.value && r.value["id"] == JStr(NatToString(now))
    ensures r.Success? ==> "image" in r.value && r.value["image"] == JStr(JpegDataUri(payload))
    ensures r.Success? ==> r.value == Assemble(Decode(response.text, parse).value, now, payload)
  {
    match response
    case RequestFailed => Failure(TransportError)
    case Responded(text) =>
      match Decode(text, parse)
      case None => Failure(MalformedJson)
      case Some(data) => Success(Assemble(data, now, payload))
  }

  /** The returned `id` is the decimal spelling of the clock value and reads back as it. */
  lemma IdIsClockToken(response: Response, parse: string -> Option<Json>, now: nat, payload: string)
    requires AnalyzePlantImage(response, parse, now, payload).Success?
    ensures var id := AnalyzePlantImage(response, parse, now, payload).value["id"];
      id.JStr? && IsIndexKey(id.s) && ParseNat(id.s) == now
  {
    ParseNatToString(now);
  }

  /** Absent or empty response text yields a record carrying only `id` and
      `image`, which is not a `PlantInfo`: nothing checks the required fields. */
  lemma EmptyResponseCarriesOnlyIdAndImage(text: Option<string>, parse: string -> Option<Json>, now: nat, payload: string)
    requires text.None? || text == Some("")
    ensures AnalyzePlantImage(Responded(text), parse, now, payload)
         == Success(map["id" := JStr(NatToString(now)), "image" := JStr(JpegDataUri(payload))])
    ensures AsPlantInfo(AnalyzePlantImage(Responded(text), parse, now, payload).value) == None
  {
    var r := AnalyzePlantImage(Responded(text), parse, now, payload).value;
    assert r == map["id" := JStr(NatToString(now)), "image" := JStr(JpegDataUri(payload))];
    assert "commonName" !in r;
  }

  /** Overriding `id` with a string and adding `image` keeps a conforming object conforming. */
  lemma AssembledStillConforms(data: Fields, now: nat, payload: string)
    requires Conforms(JObj(data), PlantSchema)
    ensures Conforms(JObj(Assemble(JObj(data), now, payload)), PlantSchema)
  {
    var r := Assemble(JObj(data), now, payload);
    var props := PlantSchema.properties;
    forall i | 0 <= i < |props|
      ensures props[i].name in r ==> Conforms(r[props[i].name], props[i].schema)
    {
      if i == 0 {
        assert props[0] == Property("id", StringType);
      } else {
        assert props[i].name != "id" && props[i].name != "image";
      }
    }
  }

  /** A response that conforms to the schema and also carries `origin` is assembled
      into a fully populated `PlantInfo`: `id` is the clock token, `image` the
      JPEG data URI, and every other field is the response's own. */
  lemma ConformingResponseIsPlantInfo(data: Fields, now: nat, payload: string)
    requires Conforms(JObj(data), PlantSchema)
    requires "origin" in data && data["origin"].JStr?
    ensures AsPlantInfo(Assemble(JObj(data), now, payload)).Some?
    ensures var p := AsPlantInfo(Assemble(JObj(data), now, payload)).value;
      && p.id == NatToString(now)
      && p.image == Some(JpegDataUri(payload))
      && JStr(p.commonName) == data["commonName"]
      && JStr(p.scientificName) == data["scientificName"]
      && JStr(p.description) == data["description"]
      && JStr(p.origin) == data["origin"]
      && JStr(DifficultyName(p.difficulty)) == data["difficulty"]
      && CareAgrees(p.care, data["care"].fields)
  {
    var r := Assemble(JObj(data), now, payload);
    AssembledStillConforms(data, now, payload);
    ConformingTopLevel(data);
    assert "care" in TopRequired && "difficulty" in TopRequired;
    ConformingRecordIsPlantInfo(r);
  }

  /** Without `origin`, even a schema-conforming response does not yield a `PlantInfo`. */
  lemma ResponseWithoutOriginIsNotPlantInfo(data: Fields, now: nat, payload: string)
    requires Conforms(JObj(data), PlantSchema)
    requires "origin" !in data
    ensures AsPlantInfo(Assemble(JObj(data), now, payload)) == None
  {
    var r := Assemble(JObj(data), now, payload);
    assert "origin" !in r;
    assert "origin" in RequiredFields;
  }

  /** Conversely, an assembled record is a `PlantInfo` only if the decoded value was
      an object carrying every top-level required key and `origin`. */
  lemma PlantInfoNeedsRequiredKeys(data: Json, now: nat, payload: string)
    requires AsPlantInfo(Assemble(data, now, payload)).Some?
    ensures data.JObj?
    ensures forall k :: k in TopRequired ==> k in data.fields
    ensures "origin" in data.fields
  {
    var r := Assemble(data, now, payload);
    assert "commonName" in RequiredFields;
    assert "commonName" in Spread(data);
    assert !IsDigit("commonName"[0]);
    forall k | k in TopRequired
      ensures k in data.fields
    {
      assert k in RequiredFields;
    }
    assert "origin" in RequiredFields;
  }
}
