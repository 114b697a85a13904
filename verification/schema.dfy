/**
 The response schema the identification request sends with the photo
 (services/geminiService.ts:22-44), written down as data, together with what
 it means for a decoded value to conform to it.
 */
module Schema {
  import opened Json

  /** The subset of the structured-output schema language the request uses. */
  datatype Schema =
    | StringType
    | EnumType(values: seq<string>)
    | ObjectType(properties: seq<Property>, required: seq<string>)

  datatype Property = Property(name: string, schema: Schema)

  /** `v` has the shape `s` describes: strings are strings, enumerated strings
      are among the listed values, objects carry every required key and every
      declared property they do carry conforms. Undeclared keys are allowed. */
  predicate Conforms(v: Json, s: Schema)
    ensures Conforms(v, s) ==> (v.JObj? <==> s.ObjectType?)
    ensures Conforms(v, s) ==> (v.JStr? <==> !s.ObjectType?)
    decreases s
  {
    match s
    case StringType => v.JStr?
    case EnumType(values) => v.JStr? && v.s in values
    case ObjectType(properties, required) =>
      && v.JObj?
      && (forall k :: k in required ==> k in v.fields)
      && forall i :: 0 <= i < |properties| ==>
           properties[i].name in v.fields ==> Conforms(v.fields[properties[i].name], properties[i].schema)
  }

  function PropertyNames(properties: seq<Property>): (names: seq<string>)
    ensures |names| == |properties|
    ensures forall i :: 0 <= i < |properties| ==> names[i] == properties[i].name
  {
    seq(|properties|, i requires 0 <= i < |properties| => properties[i].name)
  }

  /** The `enum` of the `difficulty` property. */
  const DifficultyEnum: seq<string> := ["Easy", "Moderate", "Challenging"]

  /** The `required` list of the `care` object. */
  const CareRequired: seq<string> := ["watering", "sunlight", "soil", "fertilizer", "toxicity"]

  /** The `required` list of the top-level object. */
  const TopRequired: seq<string> := ["commonName", "scientificName", "description", "care", "difficulty"]

  const CareSchema: Schema := ObjectType(
    [ Property("watering", StringType),
      Property("sunlight", StringType),
      Property("soil", StringType),
      Property("fertilizer", StringType),
      Property("toxicity", StringType) ],
    CareRequired)

  const PlantSchema: Schema := ObjectType(
    [ Property("id", StringType),
      Property("commonName", StringType),
      Property("scientificName", StringType),
      Property("description", StringType),
      Property("origin", StringType),
      Property("difficulty", EnumType(DifficultyEnum)),
      Property("care", CareSchema) ],
    TopRequired)

  /** The top-level required set is exactly five keys; `id` and `origin` are
      declared properties but neither is required. */
  lemma TopRequiredExcludesIdAndOrigin()
    ensures (set k | k in TopRequired) == {"commonName", "scientificName", "description", "care", "difficulty"}
    ensures "id" !in TopRequired && "origin" !in TopRequired
    ensures "id" in PropertyNames(PlantSchema.properties)
    ensures "origin" in PropertyNames(PlantSchema.properties)
  {
    assert PropertyNames(PlantSchema.properties)[0] == "id";
    assert PropertyNames(PlantSchema.properties)[4] == "origin";
  }

  /** Within `care` every declared property is required. */
  lemma CareRequiresEveryProperty()
    ensures PropertyNames(CareSchema.properties) == CareSchema.required
  {
  }

  /** Keys the schema does not declare are neither required nor checked: adding one
      keeps an object conforming. */
  lemma UndeclaredKeysAreAllowed(fields: Fields, properties: seq<Property>, required: seq<string>,
                                 k: string, x: Json)
    requires Conforms(JObj(fields), ObjectType(properties, required))
    requires k !in PropertyNames(properties)
    ensures Conforms(JObj(fields[k := x]), ObjectType(properties, required))
  {
    forall i | 0 <= i < |properties| && properties[i].name in fields[k := x]
      ensures Conforms(fields[k := x][properties[i].name], properties[i].schema)
    {
      assert PropertyNames(properties)[i] == properties[i].name;
    }
  }

  /** A required key cannot be left out: without it no object conforms. */
  lemma RequiredKeyIsNeeded(fields: Fields, properties: seq<Property>, required: seq<string>, k: string)
    requires k in required
    ensures !Conforms(JObj(fields - {k}), ObjectType(properties, required))
  {
  }
}
