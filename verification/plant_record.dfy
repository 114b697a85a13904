/**
 The typed reading of a decoded record as the `PlantInfo` of types.ts, and
 the record a `PlantInfo` is written out as. The identification client hands
 back an untyped object; these functions say when that object really is a
 `PlantInfo` and how the schema relates to the type.
 */
module PlantRecord {
  import opened Types
  import opened Json
  import opened Schema

  /** Every field of `PlantInfo` except the optional `image` (types.ts:11-17). */
  const RequiredFields: seq<string> :=
    ["id", "commonName", "scientificName", "description", "care", "origin", "difficulty"]

  /** The five fields of `PlantCare` (types.ts:3-7). */
  const CareFields: seq<string> := ["watering", "sunlight", "soil", "fertilizer", "toxicity"]

  /** The text under `key`, when it is present and a string. */
  function TextField(fields: Fields, key: string): (r: Option<string>)
    ensures r.Some? <==> key in fields && fields[key].JStr?
    ensures r.Some? ==> fields[key] == JStr(r.value)
  {
    if key in fields && fields[key].JStr? then Some(fields[key].s) else None
  }

  /** The five care fields are all present as strings. */
  predicate IsCareRecord(f: Fields) {
    && TextField(f, "watering").Some?
    && TextField(f, "sunlight").Some?
    && TextField(f, "soil").Some?
    && TextField(f, "fertilizer").Some?
    && TextField(f, "toxicity").Some?
  }

  /** The care profile `c` is what the record `f` holds under the five care keys. */
  predicate CareAgrees(c: PlantCare, f: Fields) {
    && TextField(f, "watering") == Some(c.watering)
    && TextField(f, "sunlight") == Some(c.sunlight)
    && TextField(f, "soil") == Some(c.soil)
    && TextField(f, "fertilizer") == Some(c.fertilizer)
    && TextField(f, "toxicity") == Some(c.toxicity)
  }

  /** Reads a care profile: an object whose five care fields are all strings. */
  function AsCare(v: Json): (r: Option<PlantCare>)
    ensures r.Some? <==> v.JObj? && IsCareRecord(v.fields)
    ensures r.Some? ==> CareAgrees(r.value, v.fields)
  {
    if v.JObj? && IsCareRecord(v.fields) then
      Some(PlantCare(
        TextField(v.fields, "watering").value,
        TextField(v.fields, "sunlight").value,
        TextField(v.fields, "soil").value,
        TextField(v.fields, "fertilizer").value,
        TextField(v.fields, "toxicity").value))
    else None
  }

  function CareOf(fields: Fields): Option<PlantCare> {
    if "care" in fields then AsCare(fields["care"]) else None
  }

  function DifficultyOf(fields: Fields): Option<Difficulty> {
    match TextField(fields, "difficulty")
    case Some(name) => ParseDifficulty(name)
    case None => None
  }

  /** Every required field is present with its declared type, and `image` is
      either absent or a string. */
  predicate IsPlantRecord(fields: Fields) {
    && TextField(fields, "id").Some?
    && TextField(fields, "commonName").Some?
    && TextField(fields, "scientificName").Some?
    && TextField(fields, "description").Some?
    && CareOf(fields).Some?
    && TextField(fields, "origin").Some?
    && DifficultyOf(fields).Some?
    && ("image" in fields ==> fields["image"].JStr?)
  }

  /** Reads a record as a `PlantInfo`, when it is one. */
  function AsPlantInfo(fields: Fields): (r: Option<PlantInfo>)
    ensures r.Some? ==> forall k :: k in RequiredFields ==> k in fields
    ensures r.Some? ==> (r.value.image.Some? <==> "image" in fields)
  {
    if IsPlantRecord(fields) then
      Some(PlantInfo(
        TextField(fields, "id").value,
        TextField(fields, "commonName").value,
        TextField(fields, "scientificName").value,
        TextField(fields, "description").value,
        CareOf(fields).value,
        TextField(fields, "origin").value,
        DifficultyOf(fields).value,
        TextField(fields, "image")))
    else None
  }

  function CareToJson(c: PlantCare): Json {
    JObj(map[
      "watering" := JStr(c.watering),
      "sunlight" := JStr(c.sunlight),
      "soil" := JStr(c.soil),
      "fertilizer" := JStr(c.fertilizer),
      "toxicity" := JStr(c.toxicity)])
  }

  /** The object a `PlantInfo` is as a JavaScript value; `image` is present only when set. */
  function ToFields(p: PlantInfo): Fields {
    var required := map[
      "id" := JStr(p.id),
      "commonName" := JStr(p.commonName),
      "scientificName" := JStr(p.scientificName),
      "description" := JStr(p.description),
      "care" := CareToJson(p.care),
      "origin" := JStr(p.origin),
      "difficulty" := JStr(DifficultyName(p.difficulty))];
    match p.image
    case Some(uri) => required["image" := JStr(uri)]
    case None => required
  }

  /** Writing a care profile out and reading it back gives the same profile. */
  lemma CareRoundTrip(c: PlantCare)
    ensures AsCare(CareToJson(c)) == Some(c)
  {
    var f := CareToJson(c).fields;
    assert TextField(f, "watering") == Some(c.watering);
    assert TextField(f, "sunlight") == Some(c.sunlight);
    assert TextField(f, "soil") == Some(c.soil);
    assert TextField(f, "fertilizer") == Some(c.fertilizer);
    assert TextField(f, "toxicity") == Some(c.toxicity);
  }

  /** Writing a plant out and reading it back gives the same plant. */
  lemma RecordRoundTrip(p: PlantInfo)
    ensures AsCare(CareToJson(p.care)) == Some(p.care)
    ensures AsPlantInfo(ToFields(p)) == Some(p)
  {
    DifficultyIsOneOfThree(p.difficulty);
    CareRoundTrip(p.care);
    var f := ToFields(p);
    assert TextField(f, "id") == Some(p.id);
    assert TextField(f, "commonName") == Some(p.commonName);
    assert TextField(f, "scientificName") == Some(p.scientificName);
    assert TextField(f, "description") == Some(p.description);
    assert TextField(f, "origin") == Some(p.origin);
    assert CareOf(f) == Some(p.care);
    assert DifficultyOf(f) == Some(p.difficulty);
    assert TextField(f, "image") == p.image;
  }

  /** The type's difficulty spellings are the schema's enum, in the same order. */
  lemma DifficultyEnumMatchesType()
    ensures DifficultyEnum == DifficultyNames
    ensures forall s :: ParseDifficulty(s).Some? <==> s in DifficultyEnum
  {
  }

  /** `PlantCare` has exactly the five fields the schema's `care.required` names, and as a
      record it carries exactly those keys. */
  lemma CareFieldsMatchSchema(c: PlantCare)
    ensures CareFields == CareRequired == PropertyNames(CareSchema.properties)
    ensures CareToJson(c).fields.Keys == set k | k in CareFields
  {
  }

  /** Every `PlantInfo`, written out, conforms to the response schema. */
  lemma PlantInfoConforms(p: PlantInfo)
    ensures Conforms(JObj(ToFields(p)), PlantSchema)
  {
    var f := ToFields(p);
    var care := CareToJson(p.care);
    assert Conforms(care, CareSchema) by {
      forall i | 0 <= i < |CareSchema.properties|
        ensures CareSchema.properties[i].name in care.fields ==>
          Conforms(care.fields[CareSchema.properties[i].name], CareSchema.properties[i].schema)
      {
      }
    }
    forall i | 0 <= i < |PlantSchema.properties|
      ensures PlantSchema.properties[i].name in f ==>
        Conforms(f[PlantSchema.properties[i].name], PlantSchema.properties[i].schema)
    {
      if i == 5 {
        assert DifficultyName(p.difficulty) in DifficultyEnum;
      }
    }
  }

  /** A value conforming to the care schema reads as a care profile whose fields are
      the value's own. */
  lemma ConformingCareIsPlantCare(v: Json)
    requires Conforms(v, CareSchema)
    ensures AsCare(v).Some?
    ensures CareAgrees(AsCare(v).value, v.fields)
  {
    var props := CareSchema.properties;
    assert props[0] == Property("watering", StringType);
    assert props[1] == Property("sunlight", StringType);
    assert props[2] == Property("soil", StringType);
    assert props[3] == Property("fertilizer", StringType);
    assert props[4] == Property("toxicity", StringType);
    assert IsCareRecord(v.fields);
  }

  /** What conformance to the response schema says about the top-level fields. */
  lemma ConformingTopLevel(fields: Fields)
    requires Conforms(JObj(fields), PlantSchema)
    ensures forall k :: k in TopRequired ==> k in fields
    ensures fields["commonName"].JStr? && fields["scientificName"].JStr? && fields["description"].JStr?
    ensures Conforms(fields["care"], CareSchema)
    ensures fields["difficulty"].JStr? && fields["difficulty"].s in DifficultyEnum
  {
    assert PlantSchema.properties[1] == Property("commonName", StringType);
    assert PlantSchema.properties[2] == Property("scientificName", StringType);
    assert PlantSchema.properties[3] == Property("description", StringType);
    assert PlantSchema.properties[5] == Property("difficulty", EnumType(DifficultyEnum));
    assert PlantSchema.properties[6] == Property("care", CareSchema);
  }

  /** A record that reads as a `PlantInfo` holds that plant's fields verbatim. */
  lemma PlantRecordFieldsAreVerbatim(fields: Fields)
    requires IsPlantRecord(fields)
    ensures var p := AsPlantInfo(fields).value;
      && JStr(p.id) == fields["id"]
      && JStr(p.commonName) == fields["commonName"]
      && JStr(p.scientificName) == fields["scientificName"]
      && JStr(p.description) == fields["description"]
      && JStr(p.origin) == fields["origin"]
      && JStr(DifficultyName(p.difficulty)) == fields["difficulty"]
      && p.care == CareOf(fields).value
  {
  }

  /** A record that conforms to the schema and also carries `id` and `origin` as
      strings (and `image`, if any, as a string) is a `PlantInfo`. */
  lemma ConformingRecordIsPlantRecord(fields: Fields)
    requires Conforms(JObj(fields), PlantSchema)
    requires "id" in fields && fields["id"].JStr?
    requires "origin" in fields && fields["origin"].JStr?
    requires "image" in fields ==> fields["image"].JStr?
    ensures IsPlantRecord(fields)
    ensures CareAgrees(CareOf(fields).value, fields["care"].fields)
  {
    ConformingTopLevel(fields);
    ConformingCareIsPlantCare(fields["care"]);
  }

  /** A record that conforms to the schema and also carries `id` and `origin` as
      strings is a fully populated `PlantInfo`, every field read verbatim. */
  lemma ConformingRecordIsPlantInfo(fields: Fields)
    requires Conforms(JObj(fields), PlantSchema)
    requires "id" in fields && fields["id"].JStr?
    requires "origin" in fields && fields["origin"].JStr?
    requires "image" in fields ==> fields["image"].JStr?
    ensures AsPlantInfo(fields).Some?
    ensures var p := AsPlantInfo(fields).value;
      && JStr(p.id) == fields["id"]
      && JStr(p.commonName) == fields["commonName"]
      && JStr(p.scientificName) == fields["scientificName"]
      && JStr(p.description) == fields["description"]
      && JStr(p.origin) == fields["origin"]
      && JStr(DifficultyName(p.difficulty)) == fields["difficulty"]
      && CareAgrees(p.care, fields["care"].fields)
  {
    ConformingRecordIsPlantRecord(fields);
    PlantRecordFieldsAreVerbatim(fields);
  }

  /** Schema conformance alone does not give a `PlantInfo`: `origin` is required by
      the type but not by the schema, and a conforming record without it is rejected. */
  lemma ConformingWithoutOriginIsNotPlantInfo(fields: Fields)
    requires Conforms(JObj(fields), PlantSchema)
    requires "origin" !in fields
    ensures AsPlantInfo(fields) == None
  {
    assert "origin" in RequiredFields;
  }

  /** `image` is the only optional field: dropping it keeps the plant, dropping any
      other field loses it. */
  lemma ImageIsTheOnlyOptionalField(p: PlantInfo)
    ensures AsPlantInfo(ToFields(p) - {"image"}) == Some(p.(image := None))
    ensures forall k :: k in RequiredFields ==> AsPlantInfo(ToFields(p) - {k}) == None
  {
    DifficultyIsOneOfThree(p.difficulty);
    assert ToFields(p) - {"image"} == ToFields(p.(image := None));
    RecordRoundTrip(p.(image := None));
  }
}
