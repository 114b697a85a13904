/**
 The records the application passes between its views (types.ts): a plant's
 care profile, an identified plant, and one turn of the gardening chat.
 */
module Types {

  /** An optional value; `None` stands for a TypeScript field that is absent. */
  datatype Option<+T> = None | Some(value: T)

  /** The outcome of an operation that can fail with an error of type `E`. */
  datatype Result<+T, +E> = Success(value: T) | Failure(error: E)

  /** How hard a plant is to keep: the string union of types.ts:17. */
  datatype Difficulty = Easy | Moderate | Challenging

  /** Who produced a chat turn: the string union of types.ts:22. */
  datatype Role = User | Model

  /** Care instructions: five free-text fields, all required. */
  datatype PlantCare = PlantCare(
    watering: string,
    sunlight: string,
    soil: string,
    fertilizer: string,
    toxicity: string)

  /** An identified plant. `image` is the one optional field. */
  datatype PlantInfo = PlantInfo(
    id: string,
    commonName: string,
    scientificName: string,
    description: string,
    care: PlantCare,
    origin: string,
    difficulty: Difficulty,
    image: Option<string>)

  /** One turn of a chat transcript; `timestamp` doubles as the turn's identity. */
  datatype ChatMessage = ChatMessage(role: Role, text: string, timestamp: int)

  /** The spellings the TypeScript union admits for a difficulty, in declaration order. */
  const DifficultyNames: seq<string> := ["Easy", "Moderate", "Challenging"]

  /** The spellings the TypeScript union admits for a role. */
  const RoleNames: seq<string> := ["user", "model"]

  function DifficultyName(d: Difficulty): (name: string)
    ensures name in DifficultyNames
  {
    match d
    case Easy => "Easy"
    case Moderate => "Moderate"
    case Challenging => "Challenging"
  }

  /** Reads a difficulty from its spelling; any string outside the union is rejected. */
  function ParseDifficulty(s: string): (r: Option<Difficulty>)
    ensures r.Some? <==> s in DifficultyNames
    ensures r.Some? ==> DifficultyName(r.value) == s
  {
    if s == "Easy" then Some(Easy)
    else if s == "Moderate" then Some(Moderate)
    else if s == "Challenging" then Some(Challenging)
    else None
  }

  function RoleName(role: Role): (name: string)
    ensures name in RoleNames
  {
    match role
    case User => "user"
    case Model => "model"
  }

  /** Reads a role back from its spelling. Nothing in the application parses a role;
      this exists to state that the union has exactly the two spellings. */
  function ParseRole(s: string): (r: Option<Role>)
    ensures r.Some? <==> s in RoleNames
    ensures r.Some? ==> RoleName(r.value) == s
  {
    if s == "user" then Some(User)
    else if s == "model" then Some(Model)
    else None
  }

  /** A difficulty takes exactly one of three spellings, and each spelling names exactly one difficulty. */
  lemma DifficultyIsOneOfThree(d: Difficulty)
    ensures ParseDifficulty(DifficultyName(d)) == Some(d)
    ensures |DifficultyNames| == 3
    ensures forall i, j :: 0 <= i < j < |DifficultyNames| ==> DifficultyNames[i] != DifficultyNames[j]
  {
  }

  /** A role is either user or model, and the two spellings are distinct. */
  lemma RoleIsUserOrModel(role: Role)
    ensures ParseRole(RoleName(role)) == Some(role)
    ensures RoleName(role) == "user" || RoleName(role) == "model"
    ensures RoleName(User) != RoleName(Model)
  {
  }
}
