/**
 * The entities of the meditation catalog and the declarative field rules of
 * their table models and their Create / Update schemas.  Every bound a schema
 * field carries becomes a validity predicate here; defaults become the
 * constructor functions `New...`.
 */
module Models {
  import opened Wrappers

  // ---------------------------------------------------------------------
  // Enumerations (string-valued enums)
  // ---------------------------------------------------------------------

  datatype DifficultyLevel = Beginner | Intermediate | Advanced

  datatype MeditationType =
    | Breathing
    | Mindfulness
    | BodyScan
    | LovingKindness
    | Concentration
    | Walking
    | Visualization

  /** The string each difficulty level stands for. */
  function DifficultyValue(d: DifficultyLevel): string {
    match d
    case Beginner => "beginner"
    case Intermediate => "intermediate"
    case Advanced => "advanced"
  }

  /** The string each meditation type stands for. */
  function TypeValue(t: MeditationType): string {
    match t
    case Breathing => "breathing"
    case Mindfulness => "mindfulness"
    case BodyScan => "body_scan"
    case LovingKindness => "loving_kindness"
    case Concentration => "concentration"
    case Walking => "walking"
    case Visualization => "visualization"
  }

  /** Lookup of a difficulty level by its value; `None` where the enum raises. */
  function ParseDifficulty(s: string): (r: Option<DifficultyLevel>)
    ensures r.Some? ==> DifficultyValue(r.value) == s
  {
    if s == "beginner" then Some(Beginner)
    else if s == "intermediate" then Some(Intermediate)
    else if s == "advanced" then Some(Advanced)
    else None
  }

  /** Lookup of a meditation type by its value; `None` where the enum raises. */
  function ParseMeditationType(s: string): (r: Option<MeditationType>)
    ensures r.Some? ==> TypeValue(r.value) == s
  {
    if s == "breathing" then Some(Breathing)
    else if s == "mindfulness" then Some(Mindfulness)
    else if s == "body_scan" then Some(BodyScan)
    else if s == "loving_kindness" then Some(LovingKindness)
    else if s == "concentration" then Some(Concentration)
    else if s == "walking" then Some(Walking)
    else if s == "visualization" then Some(Visualization)
    else None
  }

  /** The members of each enum, in declaration order. */
  const AllDifficultyLevels: seq<DifficultyLevel> := [Beginner, Intermediate, Advanced]
  const AllMeditationTypes: seq<MeditationType> :=
    [Breathing, Mindfulness, BodyScan, LovingKindness, Concentration, Walking, Visualization]

  /** There are exactly three difficulty levels, with pairwise distinct values. */
  lemma DifficultyLevelsEnumerated()
    ensures |AllDifficultyLevels| == 3
    ensures forall d: DifficultyLevel :: d in AllDifficultyLevels
    ensures forall i, j :: 0 <= i < j < |AllDifficultyLevels| ==>
      DifficultyValue(AllDifficultyLevels[i]) != DifficultyValue(AllDifficultyLevels[j])
  {
    forall d: DifficultyLevel ensures d in AllDifficultyLevels {
      match d
      case Beginner => assert AllDifficultyLevels[0] == d;
      case Intermediate => assert AllDifficultyLevels[1] == d;
      case Advanced => assert AllDifficultyLevels[2] == d;
    }
  }

  /** There are exactly seven meditation types, with pairwise distinct values. */
  lemma MeditationTypesEnumerated()
    ensures |AllMeditationTypes| == 7
    ensures forall t: MeditationType :: t in AllMeditationTypes
    ensures forall i, j :: 0 <= i < j < |AllMeditationTypes| ==>
      TypeValue(AllMeditationTypes[i]) != TypeValue(AllMeditationTypes[j])
  {
    forall t: MeditationType ensures t in AllMeditationTypes {
      match t
      case Breathing => assert AllMeditationTypes[0] == t;
      case Mindfulness => assert AllMeditationTypes[1] == t;
      case BodyScan => assert AllMeditationTypes[2] == t;
      case LovingKindness => assert AllMeditationTypes[3] == t;
      case Concentration => assert AllMeditationTypes[4] == t;
      case Walking => assert AllMeditationTypes[5] == t;
      case Visualization => assert AllMeditationTypes[6] == t;
    }
  }

  /** Value lookup inverts the value of every member. */
  lemma EnumValuesRoundTrip(d: DifficultyLevel, t: MeditationType)
    ensures ParseDifficulty(DifficultyValue(d)) == Some(d)
    ensures ParseMeditationType(TypeValue(t)) == Some(t)
  {
  }

  // ---------------------------------------------------------------------
  // Field bounds
  // ---------------------------------------------------------------------

  const MaxTitleLength: nat := 200
  const MaxSessionDescriptionLength: nat := 1000
  const MaxInstructionTextLength: nat := 2000
  const MaxCategoryNameLength: nat := 100
  const MaxCategoryDescriptionLength: nat := 500
  const MaxColorCodeLength: nat := 7
  const MaxDurationMinutes: int := 120

  /** `duration_minutes`: greater than 0 and at most 120. */
  predicate ValidDurationMinutes(d: int) {
    0 < d <= MaxDurationMinutes
  }

  /** `step_order`: at least 1. */
  predicate ValidStepOrder(n: int) {
    n >= 1
  }

  /** `duration_seconds`: absent, or at least 0. */
  predicate ValidDurationSeconds(d: Option<int>) {
    d.None? || d.value >= 0
  }

  predicate IsHexDigit(c: char) {
    '0' <= c <= '9' || 'A' <= c <= 'F' || 'a' <= c <= 'f'
  }

  /** `s` is exactly `n` hexadecimal digits and nothing else. */
  predicate HexRun(s: string, n: nat) {
    if n == 0 then s == []
    else s != [] && IsHexDigit(s[0]) && HexRun(s[1..], n - 1)
  }

  /**
   * `s` is `#` and six hexadecimal digits.  The pattern `^#[0-9A-Fa-f]{6}$`
   * also lets a trailing newline through (`$` matches before it); the
   * length bound in `ValidColorCode` rules that out.
   */
  predicate MatchesHexColor(s: string) {
    s != [] && s[0] == '#' && HexRun(s[1..], 6)
  }

  /**
   * `color_code`: absent, or at most 7 characters and matching the colour
   * pattern; together the two rules admit exactly `#` and six hex digits.
   */
  predicate ValidColorCode(c: Option<string>) {
    c.None? || (|c.value| <= MaxColorCodeLength && MatchesHexColor(c.value))
  }

  /** A run of `n` hexadecimal digits is a string of length `n` made only of them. */
  lemma {:induction false} HexRunShape(s: string, n: nat)
    ensures HexRun(s, n) <==> |s| == n && forall i :: 0 <= i < |s| ==> IsHexDigit(s[i])
  {
    if n > 0 && s != [] {
      HexRunShape(s[1..], n - 1);
      if |s| == n && (forall i :: 0 <= i < |s| ==> IsHexDigit(s[i])) {
        assert forall i :: 0 <= i < |s[1..]| ==> IsHexDigit(s[1..][i]) by {
          forall i | 0 <= i < |s[1..]| ensures IsHexDigit(s[1..][i]) {
            assert s[1..][i] == s[i + 1];
          }
        }
      }
    }
  }

  /**
   * A present colour code is valid exactly when it is `#` followed by six
   * hexadecimal digits: the pattern and the 7-character bound together
   * admit nothing else.
   */
  lemma ColorCodeShape(c: string)
    ensures ValidColorCode(Some(c)) <==>
      |c| == 7 && c[0] == '#' && forall i :: 1 <= i < 7 ==> IsHexDigit(c[i])
  {
    if c != [] {
      HexRunShape(c[1..], 6);
      if |c| == 7 && c[0] == '#' && (forall i :: 1 <= i < 7 ==> IsHexDigit(c[i])) {
        forall i | 0 <= i < |c[1..]| ensures IsHexDigit(c[1..][i]) {
          assert c[1..][i] == c[i + 1];
        }
      }
    }
  }

  // ---------------------------------------------------------------------
  // Table rows
  // ---------------------------------------------------------------------

  /** A stored meditation session (timestamps are not modelled). */
  datatype Session = Session(
    id: int,
    title: string,
    description: string,
    meditationType: MeditationType,
    difficultyLevel: DifficultyLevel,
    durationMinutes: int,
    isActive: bool)

  /** A stored instruction step of a session. */
  datatype Instruction = Instruction(
    id: int,
    sessionId: int,
    stepOrder: int,
    instructionText: string,
    durationSeconds: Option<int>,
    isPause: bool)

  /** A stored category (its link to sessions is not modelled). */
  datatype Category = Category(
    id: int,
    name: string,
    description: string,
    colorCode: Option<string>,
    isActive: bool)

  predicate ValidSession(s: Session) {
    |s.title| <= MaxTitleLength
    && |s.description| <= MaxSessionDescriptionLength
    && ValidDurationMinutes(s.durationMinutes)
  }

  predicate ValidInstruction(i: Instruction) {
    ValidStepOrder(i.stepOrder)
    && |i.instructionText| <= MaxInstructionTextLength
    && ValidDurationSeconds(i.durationSeconds)
  }

  predicate ValidCategory(c: Category) {
    |c.name| <= MaxCategoryNameLength
    && |c.description| <= MaxCategoryDescriptionLength
    && ValidColorCode(c.colorCode)
  }

  // ---------------------------------------------------------------------
  // Create schemas
  // ---------------------------------------------------------------------

  datatype SessionCreate = SessionCreate(
    title: string,
    description: string,
    meditationType: MeditationType,
    difficultyLevel: DifficultyLevel,
    durationMinutes: int,
    categoryIds: Option<seq<int>>)

  datatype InstructionCreate = InstructionCreate(
    sessionId: int,
    stepOrder: int,
    instructionText: string,
    durationSeconds: Option<int>,
    isPause: bool)

  datatype CategoryCreate = CategoryCreate(
    name: string,
    description: string,
    colorCode: Option<string>)

  predicate ValidSessionCreate(d: SessionCreate) {
    |d.title| <= MaxTitleLength
    && |d.description| <= MaxSessionDescriptionLength
    && ValidDurationMinutes(d.durationMinutes)
  }

  predicate ValidInstructionCreate(d: InstructionCreate) {
    ValidStepOrder(d.stepOrder)
    && |d.instructionText| <= MaxInstructionTextLength
    && ValidDurationSeconds(d.durationSeconds)
  }

  predicate ValidCategoryCreate(d: CategoryCreate) {
    |d.name| <= MaxCategoryNameLength
    && |d.description| <= MaxCategoryDescriptionLength
    && ValidColorCode(d.colorCode)
  }

  /** A session schema with the defaulted fields left out: difficulty BEGINNER, no categories. */
  function NewSessionCreate(title: string, description: string, t: MeditationType, durationMinutes: int): SessionCreate {
    SessionCreate(title, description, t, Beginner, durationMinutes, None)
  }

  /** An instruction schema with the defaulted fields left out: no duration, not a pause. */
  function NewInstructionCreate(sessionId: int, stepOrder: int, text: string): InstructionCreate {
    InstructionCreate(sessionId, stepOrder, text, None, false)
  }

  // ---------------------------------------------------------------------
  // Update schemas: every field optional, a present field bounded as in Create
  // ---------------------------------------------------------------------

  datatype SessionUpdate = SessionUpdate(
    title: Option<string>,
    description: Option<string>,
    meditationType: Option<MeditationType>,
    difficultyLevel: Option<DifficultyLevel>,
    durationMinutes: Option<int>,
    isActive: Option<bool>,
    categoryIds: Option<seq<int>>)

  datatype InstructionUpdate = InstructionUpdate(
    stepOrder: Option<int>,
    instructionText: Option<string>,
    durationSeconds: Option<int>,
    isPause: Option<bool>)

  datatype CategoryUpdate = CategoryUpdate(
    name: Option<string>,
    description: Option<string>,
    colorCode: Option<string>,
    isActive: Option<bool>)

  predicate ValidSessionUpdate(u: SessionUpdate) {
    (u.title.None? || |u.title.value| <= MaxTitleLength)
    && (u.description.None? || |u.description.value| <= MaxSessionDescriptionLength)
    && (u.durationMinutes.None? || ValidDurationMinutes(u.durationMinutes.value))
  }

  predicate ValidInstructionUpdate(u: InstructionUpdate) {
    (u.stepOrder.None? || ValidStepOrder(u.stepOrder.value))
    && (u.instructionText.None? || |u.instructionText.value| <= MaxInstructionTextLength)
    && ValidDurationSeconds(u.durationSeconds)
  }

  predicate ValidCategoryUpdate(u: CategoryUpdate) {
    (u.name.None? || |u.name.value| <= MaxCategoryNameLength)
    && (u.description.None? || |u.description.value| <= MaxCategoryDescriptionLength)
    && ValidColorCode(u.colorCode)
  }

  /** The update that sets every field of a Create schema. */
  function SessionUpdateOf(d: SessionCreate, isActive: bool): SessionUpdate {
    SessionUpdate(Some(d.title), Some(d.description), Some(d.meditationType), Some(d.difficultyLevel),
                  Some(d.durationMinutes), Some(isActive), d.categoryIds)
  }

  function InstructionUpdateOf(d: InstructionCreate): InstructionUpdate {
    InstructionUpdate(Some(d.stepOrder), Some(d.instructionText), d.durationSeconds, Some(d.isPause))
  }

  function CategoryUpdateOf(d: CategoryCreate, isActive: bool): CategoryUpdate {
    CategoryUpdate(Some(d.name), Some(d.description), d.colorCode, Some(isActive))
  }

  /**
   * An update with every field absent is valid, and an update carrying all
   * of a Create schema's values is valid exactly when that schema is.
   */
  lemma UpdateBoundsMatchCreate(s: SessionCreate, i: InstructionCreate, c: CategoryCreate, active: bool)
    ensures ValidSessionUpdate(SessionUpdate(None, None, None, None, None, None, None))
    ensures ValidInstructionUpdate(InstructionUpdate(None, None, None, None))
    ensures ValidCategoryUpdate(CategoryUpdate(None, None, None, None))
    ensures ValidSessionUpdate(SessionUpdateOf(s, active)) <==> ValidSessionCreate(s)
    ensures ValidInstructionUpdate(InstructionUpdateOf(i)) <==> ValidInstructionCreate(i)
    ensures ValidCategoryUpdate(CategoryUpdateOf(c, active)) <==> ValidCategoryCreate(c)
  {
  }
}
