/** The entity schemas: field constraints, defaults and the all-or-nothing
    validation of an inbound payload, plus the document each validated entity
    is stored as and the collection it is stored in. */
module Schemas {
  import opened Wrappers
  import opened Values
  import Text

  // ----- Payloads and validation errors -----

  /** One field of an inbound payload: left out, sent as null, or sent with a value. */
  datatype Field<+T> = Absent | Nil | Given(value: T)

  /** One step of the path to an offending field: a key, or a list position. */
  datatype Loc = Key(name: string) | Index(i: nat)

  datatype ErrorKind = Missing | NullNotAllowed | TooSmall(min: real) | TooLarge(max: real)

  /** A rejected payload: where the first offending field is and what is wrong with it. */
  datatype ValidationError = ValidationError(loc: seq<Loc>, kind: ErrorKind) {
    function Under(l: Loc): ValidationError {
      ValidationError([l] + loc, kind)
    }
  }

  /** A field declared without a default: it must be present and not null. */
  function Required<T>(f: Field<T>, name: string): Result<T, ValidationError> {
    match f
    case Absent => Err(ValidationError([Key(name)], Missing))
    case Nil => Err(ValidationError([Key(name)], NullNotAllowed))
    case Given(v) => Ok(v)
  }

  /** An `Optional[...]` field: an explicit null stays null, absence takes the default. */
  function Optional<T>(f: Field<T>, default: Option<T>): Option<T> {
    match f
    case Absent => default
    case Nil => None
    case Given(v) => Some(v)
  }

  /** The payload field that reproduces an optional entity field. */
  function FieldOf<T>(o: Option<T>): Field<T> {
    if o.Some? then Given(o.value) else Nil
  }

  /** A required integer field with bounds `ge=lo, le=hi`. */
  function BoundedInt(f: Field<int>, name: string, lo: int, hi: int): Result<int, ValidationError> {
    var n :- Required(f, name);
    if n < lo then Err(ValidationError([Key(name)], TooSmall(lo as real)))
    else if n > hi then Err(ValidationError([Key(name)], TooLarge(hi as real)))
    else Ok(n)
  }

  /** A number constrained by `ge=min`. */
  function AtLeast(x: real, name: string, min: real): Result<real, ValidationError> {
    if x < min then Err(ValidationError([Key(name)], TooSmall(min))) else Ok(x)
  }

  /** An `Optional[float]` field with `ge=min`: the bound applies to a given number only. */
  function OptionalAtLeast(f: Field<real>, name: string, min: real, default: Option<real>)
    : Result<Option<real>, ValidationError>
  {
    match f
    case Absent => Ok(default)
    case Nil => Ok(None)
    case Given(x) => if x < min then Err(ValidationError([Key(name)], TooSmall(min))) else Ok(Some(x))
  }

  /** A macro of a validated food item. Pydantic does not validate a default, so an
      absent macro keeps the integer `0` of `Field(0, ge=0)`; null and given amounts
      pass through validation. */
  datatype MacroAmount = DefaultZero | NullAmount | Amount(grams: real)

  /** An `Optional[float] = Field(0, ge=0)` macro: the bound applies to a given number only. */
  function MacroField(f: Field<real>, name: string): Result<MacroAmount, ValidationError> {
    match f
    case Absent => Ok(DefaultZero)
    case Nil => Ok(NullAmount)
    case Given(x) => if x < 0.0 then Err(ValidationError([Key(name)], TooSmall(0.0))) else Ok(Amount(x))
  }

  /** The macro a validated payload field yields. */
  function MacroOf(f: Field<real>): MacroAmount {
    match f
    case Absent => DefaultZero
    case Nil => NullAmount
    case Given(x) => Amount(x)
  }

  /** The payload field a macro came from. */
  function MacroInput(m: MacroAmount): Field<real> {
    match m
    case DefaultZero => Absent
    case NullAmount => Nil
    case Amount(x) => Given(x)
  }

  predicate NonNegativeMacro(m: MacroAmount) {
    m.Amount? ==> m.grams >= 0.0
  }

  predicate NonNegative(o: Option<real>) {
    o.Some? ==> o.value >= 0.0
  }

  /** What an optional bounded number accepts: null, absence, or a number at least `min`. */
  predicate AcceptsAtLeast(f: Field<real>, min: real) {
    f.Given? ==> f.value >= min
  }

  // ----- Field checks: what each declared field refuses -----

  /** The violation of a required field: missing, or null. */
  function MissingOrNull<T>(f: Field<T>, name: string): Option<ValidationError> {
    if f.Absent? then Some(ValidationError([Key(name)], Missing))
    else if f.Nil? then Some(ValidationError([Key(name)], NullNotAllowed))
    else None
  }

  /** The violation of a required integer with `ge=lo, le=hi`. */
  function IntOutside(f: Field<int>, name: string, lo: int, hi: int): Option<ValidationError> {
    if !f.Given? then MissingOrNull(f, name)
    else if f.value < lo then Some(ValidationError([Key(name)], TooSmall(lo as real)))
    else if f.value > hi then Some(ValidationError([Key(name)], TooLarge(hi as real)))
    else None
  }

  /** The violation of `ge=min` by a given number; absence and null break no bound. */
  function NumberBelow(f: Field<real>, name: string, min: real): Option<ValidationError> {
    if f.Given? && f.value < min then Some(ValidationError([Key(name)], TooSmall(min))) else None
  }

  /** The violation of a required number with `ge=min`. */
  function RequiredNumberBelow(f: Field<real>, name: string, min: real): Option<ValidationError> {
    if !f.Given? then MissingOrNull(f, name) else NumberBelow(f, name, min)
  }

  /** The violation reported for a payload: that of the first field, in declaration
      order, that has one. */
  function FirstViolation(checks: seq<Option<ValidationError>>): (r: Option<ValidationError>)
    ensures r.None? <==> forall i :: 0 <= i < |checks| ==> checks[i].None?
    ensures r.Some? ==> exists i :: 0 <= i < |checks| && checks[i] == r && forall j :: 0 <= j < i ==> checks[j].None?
  {
    if checks == [] then None
    else if checks[0].Some? then checks[0]
    else
      var r := FirstViolation(checks[1..]);
      assert forall i :: 1 <= i < |checks| ==> checks[1..][i - 1] == checks[i];
      r
  }

  lemma FirstOfTwo(a: Option<ValidationError>, b: Option<ValidationError>)
    ensures FirstViolation([a, b]) == if a.Some? then a else b
  {
    assert [a, b][1..] == [b];
    assert [b][1..] == [];
  }

  lemma FirstOfFour(a: Option<ValidationError>, b: Option<ValidationError>,
                    c: Option<ValidationError>, d: Option<ValidationError>)
    ensures FirstViolation([a, b, c, d]) == if a.Some? then a else if b.Some? then b else if c.Some? then c else d
  {
    assert [a, b, c, d][1..] == [b, c, d];
    assert [b, c, d][1..] == [c, d];
    FirstOfTwo(c, d);
  }

  lemma FirstOfFive(a: Option<ValidationError>, b: Option<ValidationError>, c: Option<ValidationError>,
                    d: Option<ValidationError>, e: Option<ValidationError>)
    ensures FirstViolation([a, b, c, d, e])
         == if a.Some? then a else if b.Some? then b else if c.Some? then c else if d.Some? then d else e
  {
    assert [a, b, c, d, e][1..] == [b, c, d, e];
    FirstOfFour(b, c, d, e);
  }

  // ----- Exercise -----

  datatype ExerciseInput = ExerciseInput(
    name: Field<string>, sets: Field<int>, reps: Field<int>, weight: Field<real>, notes: Field<string>)

  datatype Exercise = Exercise(
    name: string, sets: int, reps: int, weight: Option<real>, notes: Option<string>)
  {
    predicate Valid() {
      && 1 <= sets <= 20
      && 1 <= reps <= 100
      && NonNegative(weight)
    }
  }

  /** The field checks of an exercise, in declaration order. */
  function ExerciseChecks(p: ExerciseInput): seq<Option<ValidationError>> {
    [MissingOrNull(p.name, "name"), IntOutside(p.sets, "sets", 1, 20),
     IntOutside(p.reps, "reps", 1, 100), NumberBelow(p.weight, "weight", 0.0)]
  }

  /** Validation of one embedded exercise. */
  function ValidateExercise(p: ExerciseInput): (r: Result<Exercise, ValidationError>)
    ensures FirstViolation(ExerciseChecks(p)) == if r.Ok? then None else Some(r.error)
    ensures r.Ok? <==>
      && p.name.Given? && p.sets.Given? && p.reps.Given?
      && 1 <= p.sets.value <= 20 && 1 <= p.reps.value <= 100
      && AcceptsAtLeast(p.weight, 0.0)
    ensures r.Ok? ==> r.value.Valid()
    ensures r.Ok? ==>
      && r.value.name == p.name.value && r.value.sets == p.sets.value && r.value.reps == p.reps.value
      && r.value.weight == Optional(p.weight, None) && r.value.notes == Optional(p.notes, None)
  {
    FirstOfFour(MissingOrNull(p.name, "name"), IntOutside(p.sets, "sets", 1, 20),
                IntOutside(p.reps, "reps", 1, 100), NumberBelow(p.weight, "weight", 0.0));
    var name :- Required(p.name, "name");
    var sets :- BoundedInt(p.sets, "sets", 1, 20);
    var reps :- BoundedInt(p.reps, "reps", 1, 100);
    var weight :- OptionalAtLeast(p.weight, "weight", 0.0, None);
    Ok(Exercise(name, sets, reps, weight, Optional(p.notes, None)))
  }

  function ExerciseInputOf(e: Exercise): ExerciseInput {
    ExerciseInput(Given(e.name), Given(e.sets), Given(e.reps), FieldOf(e.weight), FieldOf(e.notes))
  }

  /** Validation accepts exactly the valid exercises and hands them back unchanged. */
  lemma ExerciseRoundTrip(e: Exercise)
    ensures ValidateExercise(ExerciseInputOf(e)) == Ok(e) <==> e.Valid()
  {
  }

  // ----- Lists of exercises -----

  /** `es` is what validating the payloads `ps` one by one yields. */
  predicate ValidatedFrom(ps: seq<ExerciseInput>, es: seq<Exercise>) {
    |es| == |ps| && forall i :: 0 <= i < |ps| ==> ValidateExercise(ps[i]) == Ok(es[i])
  }

  /** Position `i` holds the first exercise that validation rejects. */
  predicate FirstRejected(ps: seq<ExerciseInput>, i: nat)
    requires i < |ps|
  {
    ValidateExercise(ps[i]).Err? && forall j :: 0 <= j < i ==> ValidateExercise(ps[j]).Ok?
  }

  /** Validation of a list of embedded exercises: all or nothing; a rejection
      reports the first rejected position. */
  function ValidateExercises(ps: seq<ExerciseInput>): (r: Result<seq<Exercise>, ValidationError>)
    ensures r.Ok? <==> forall i :: 0 <= i < |ps| ==> ValidateExercise(ps[i]).Ok?
    ensures r.Ok? ==> ValidatedFrom(ps, r.value)
    ensures r.Err? ==> exists i :: 0 <= i < |ps| && FirstRejected(ps, i)
                                   && r.error == ValidateExercise(ps[i]).error.Under(Index(i))
  {
    if ps == [] then Ok([])
    else
      var init := ps[..|ps| - 1];
      assert forall j :: 0 <= j < |init| ==> init[j] == ps[j];
      var front :- ValidateExercises(init);
      var last := ValidateExercise(ps[|ps| - 1]);
      if last.Err? then Err(last.error.Under(Index(|ps| - 1)))
      else Ok(front + [last.value])
  }

  function ExerciseInputsOf(es: seq<Exercise>): (ps: seq<ExerciseInput>)
    ensures |ps| == |es| && forall i :: 0 <= i < |es| ==> ps[i] == ExerciseInputOf(es[i])
  {
    seq(|es|, i requires 0 <= i < |es| => ExerciseInputOf(es[i]))
  }

  /** A list validates back to itself exactly when every exercise in it is valid. */
  lemma {:induction false} ExercisesRoundTrip(es: seq<Exercise>)
    ensures ValidateExercises(ExerciseInputsOf(es)) == Ok(es) <==> forall i :: 0 <= i < |es| ==> es[i].Valid()
  {
    var ps := ExerciseInputsOf(es);
    forall i | 0 <= i < |es| ensures ValidateExercise(ps[i]) == Ok(es[i]) <==> es[i].Valid() {
      ExerciseRoundTrip(es[i]);
    }
    var r := ValidateExercises(ps);
    if forall i :: 0 <= i < |es| ==> es[i].Valid() {
      assert r.Ok?;
      assert r.value == es by {
        forall i | 0 <= i < |es| ensures r.value[i] == es[i] {
          assert ValidateExercise(ps[i]) == Ok(r.value[i]);
        }
      }
    }
  }

  /** The constraint behind `exercises: List[Exercise] = Field(default_factory=list)`. */
  predicate AcceptsExercises(f: Field<seq<ExerciseInput>>) {
    match f
    case Absent => true
    case Nil => false
    case Given(ps) => forall i :: 0 <= i < |ps| ==> ValidateExercise(ps[i]).Ok?
  }

  /** The violation of the `exercises` field: null, or the list's rejection (that of
      its first rejected exercise) under the field's name. */
  function ExercisesViolation(f: Field<seq<ExerciseInput>>): Option<ValidationError> {
    match f
    case Absent => None
    case Nil => Some(ValidationError([Key("exercises")], NullNotAllowed))
    case Given(ps) =>
      var es := ValidateExercises(ps);
      if es.Err? then Some(es.error.Under(Key("exercises"))) else None
  }

  /** The `exercises` field: absent means the empty list, null is refused. */
  function ExerciseList(f: Field<seq<ExerciseInput>>): (r: Result<seq<Exercise>, ValidationError>)
    ensures r.Ok? <==> AcceptsExercises(f)
    ensures r.Ok? ==> forall i :: 0 <= i < |r.value| ==> r.value[i].Valid()
    ensures r.Ok? && f.Absent? ==> r.value == []
    ensures r.Ok? && f.Given? ==> ValidatedFrom(f.value, r.value)
    ensures r.Err? ==> Some(r.error) == ExercisesViolation(f)
  {
    match f
    case Absent => Ok([])
    case Nil => Err(ValidationError([Key("exercises")], NullNotAllowed))
    case Given(ps) =>
      var es := ValidateExercises(ps);
      if es.Err? then Err(es.error.Under(Key("exercises"))) else Ok(es.value)
  }

  // ----- WorkoutTemplate -----

  datatype TemplateInput = TemplateInput(
    title: Field<string>, description: Field<string>, exercises: Field<seq<ExerciseInput>>, level: Field<string>)

  datatype WorkoutTemplate = WorkoutTemplate(
    title: string, description: Option<string>, exercises: seq<Exercise>, level: Option<string>)
  {
    predicate Valid() {
      forall i :: 0 <= i < |exercises| ==> exercises[i].Valid()
    }
  }

  /** The field checks of a template, in declaration order. */
  function TemplateChecks(p: TemplateInput): seq<Option<ValidationError>> {
    [MissingOrNull(p.title, "title"), ExercisesViolation(p.exercises)]
  }

  /** Validation of a template payload. */
  function ValidateTemplate(p: TemplateInput): (r: Result<WorkoutTemplate, ValidationError>)
    ensures r.Ok? <==> p.title.Given? && AcceptsExercises(p.exercises)
    ensures FirstViolation(TemplateChecks(p)) == if r.Ok? then None else Some(r.error)
    ensures r.Ok? ==> r.value.Valid()
    ensures r.Ok? ==>
      && r.value.title == p.title.value
      && r.value.description == Optional(p.description, None)
      && r.value.level == Optional(p.level, None)
    ensures r.Ok? && p.exercises.Absent? ==> r.value.exercises == []
    ensures r.Ok? && p.exercises.Given? ==> ValidatedFrom(p.exercises.value, r.value.exercises)
  {
    FirstOfTwo(MissingOrNull(p.title, "title"), ExercisesViolation(p.exercises));
    var title :- Required(p.title, "title");
    var exercises :- ExerciseList(p.exercises);
    Ok(WorkoutTemplate(title, Optional(p.description, None), exercises, Optional(p.level, None)))
  }

  function TemplateInputOf(t: WorkoutTemplate): TemplateInput {
    TemplateInput(Given(t.title), FieldOf(t.description), Given(ExerciseInputsOf(t.exercises)), FieldOf(t.level))
  }

  lemma {:induction false} TemplateRoundTrip(t: WorkoutTemplate)
    ensures ValidateTemplate(TemplateInputOf(t)) == Ok(t) <==> t.Valid()
  {
    ExercisesRoundTrip(t.exercises);
  }

  /** One exercise out of bounds rejects the whole template, naming its position. */
  lemma {:induction false} TemplateAllOrNothing(p: TemplateInput, i: nat)
    requires p.title.Given? && p.exercises.Given? && i < |p.exercises.value|
    requires FirstRejected(p.exercises.value, i)
    ensures ValidateTemplate(p)
         == Err(ValidateExercise(p.exercises.value[i]).error.Under(Index(i)).Under(Key("exercises")))
  {
    var ps := p.exercises.value;
    var r := ValidateExercises(ps);
    assert r.Err?;
    var k :| 0 <= k < |ps| && FirstRejected(ps, k) && r.error == ValidateExercise(ps[k]).error.Under(Index(k));
    assert k == i;
  }

  /** Too many sets after a given name: the error lies at `["sets"]` and names the
      upper bound 20. */
  lemma SetsTooLarge(e: ExerciseInput)
    requires e.name.Given? && e.sets.Given? && e.sets.value > 20
    ensures ValidateExercise(e) == Err(ValidationError([Key("sets")], TooLarge(20.0)))
  {
  }

  /** Too many sets in the first rejected exercise of a template: the error lies at
      `["exercises", i, "sets"]` and names the upper bound 20. */
  lemma {:induction false} TemplateSetsTooLarge(p: TemplateInput, i: nat)
    requires p.title.Given? && p.exercises.Given? && i < |p.exercises.value|
    requires forall j :: 0 <= j < i ==> ValidateExercise(p.exercises.value[j]).Ok?
    requires p.exercises.value[i].name.Given? && p.exercises.value[i].sets.Given?
    requires p.exercises.value[i].sets.value > 20
    ensures ValidateTemplate(p) == Err(ValidationError([Key("exercises"), Index(i), Key("sets")], TooLarge(20.0)))
  {
    var ps := p.exercises.value;
    SetsTooLarge(ps[i]);
    assert FirstRejected(ps, i);
    TemplateAllOrNothing(p, i);
    assert ValidationError([Key("sets")], TooLarge(20.0)).Under(Index(i)).Under(Key("exercises"))
        == ValidationError([Key("exercises"), Index(i), Key("sets")], TooLarge(20.0));
  }

  // ----- WorkoutSession -----

  datatype SessionInput = SessionInput(
    userId: Field<string>, sessionDate: Field<string>, title: Field<string>,
    exercises: Field<seq<ExerciseInput>>, notes: Field<string>)

  datatype WorkoutSession = WorkoutSession(
    userId: string, sessionDate: string, title: string, exercises: seq<Exercise>, notes: Option<string>)
  {
    predicate Valid() {
      forall i :: 0 <= i < |exercises| ==> exercises[i].Valid()
    }
  }

  /** The field checks of a session, in declaration order. */
  function SessionChecks(p: SessionInput): seq<Option<ValidationError>> {
    [MissingOrNull(p.userId, "user_id"), MissingOrNull(p.sessionDate, "session_date"),
     MissingOrNull(p.title, "title"), ExercisesViolation(p.exercises)]
  }

  /** Validation of a session payload. */
  function ValidateSession(p: SessionInput): (r: Result<WorkoutSession, ValidationError>)
    ensures r.Ok? <==>
      p.userId.Given? && p.sessionDate.Given? && p.title.Given? && AcceptsExercises(p.exercises)
    ensures FirstViolation(SessionChecks(p)) == if r.Ok? then None else Some(r.error)
    ensures r.Ok? ==> r.value.Valid()
    ensures r.Ok? ==>
      && r.value.userId == p.userId.value && r.value.sessionDate == p.sessionDate.value
      && r.value.title == p.title.value && r.value.notes == Optional(p.notes, None)
    ensures r.Ok? && p.exercises.Absent? ==> r.value.exercises == []
    ensures r.Ok? && p.exercises.Given? ==> ValidatedFrom(p.exercises.value, r.value.exercises)
  {
    FirstOfFour(MissingOrNull(p.userId, "user_id"), MissingOrNull(p.sessionDate, "session_date"),
                MissingOrNull(p.title, "title"), ExercisesViolation(p.exercises));
    var userId :- Required(p.userId, "user_id");
    var sessionDate :- Required(p.sessionDate, "session_date");
    var title :- Required(p.title, "title");
    var exercises :- ExerciseList(p.exercises);
    Ok(WorkoutSession(userId, sessionDate, title, exercises, Optional(p.notes, None)))
  }

  function SessionInputOf(s: WorkoutSession): SessionInput {
    SessionInput(Given(s.userId), Given(s.sessionDate), Given(s.title),
                 Given(ExerciseInputsOf(s.exercises)), FieldOf(s.notes))
  }

  lemma {:induction false} SessionRoundTrip(s: WorkoutSession)
    ensures ValidateSession(SessionInputOf(s)) == Ok(s) <==> s.Valid()
  {
    ExercisesRoundTrip(s.exercises);
  }

  // ----- FoodItem -----

  datatype FoodItemInput = FoodItemInput(
    barcode: Field<string>, name: Field<string>, brand: Field<string>, calories: Field<real>,
    protein: Field<real>, carbs: Field<real>, fat: Field<real>, servingSize: Field<string>)

  datatype FoodItem = FoodItem(
    barcode: Option<string>, name: string, brand: Option<string>, calories: real,
    protein: MacroAmount, carbs: MacroAmount, fat: MacroAmount, servingSize: Option<string>)
  {
    predicate Valid() {
      calories >= 0.0 && NonNegativeMacro(protein) && NonNegativeMacro(carbs) && NonNegativeMacro(fat)
    }
  }

  /** The field checks of a food item, in declaration order. */
  function FoodItemChecks(p: FoodItemInput): seq<Option<ValidationError>> {
    [MissingOrNull(p.name, "name"), RequiredNumberBelow(p.calories, "calories", 0.0),
     NumberBelow(p.protein, "protein", 0.0), NumberBelow(p.carbs, "carbs", 0.0),
     NumberBelow(p.fat, "fat", 0.0)]
  }

  /** Validation of a food item payload; the macros default to 0. */
  function ValidateFoodItem(p: FoodItemInput): (r: Result<FoodItem, ValidationError>)
    ensures r.Ok? <==>
      && p.name.Given? && p.calories.Given? && p.calories.value >= 0.0
      && AcceptsAtLeast(p.protein, 0.0) && AcceptsAtLeast(p.carbs, 0.0) && AcceptsAtLeast(p.fat, 0.0)
    ensures FirstViolation(FoodItemChecks(p)) == if r.Ok? then None else Some(r.error)
    ensures r.Ok? ==> r.value.Valid()
    ensures r.Ok? ==>
      && r.value.name == p.name.value && r.value.calories == p.calories.value
      && r.value.barcode == Optional(p.barcode, None) && r.value.brand == Optional(p.brand, None)
      && r.value.servingSize == Optional(p.servingSize, None)
      && r.value.protein == MacroOf(p.protein)
      && r.value.carbs == MacroOf(p.carbs)
      && r.value.fat == MacroOf(p.fat)
  {
    FirstOfFive(MissingOrNull(p.name, "name"), RequiredNumberBelow(p.calories, "calories", 0.0),
                NumberBelow(p.protein, "protein", 0.0), NumberBelow(p.carbs, "carbs", 0.0),
                NumberBelow(p.fat, "fat", 0.0));
    var name :- Required(p.name, "name");
    var calories :- Required(p.calories, "calories");
    var calories :- AtLeast(calories, "calories", 0.0);
    var protein :- MacroField(p.protein, "protein");
    var carbs :- MacroField(p.carbs, "carbs");
    var fat :- MacroField(p.fat, "fat");
    Ok(FoodItem(Optional(p.barcode, None), name, Optional(p.brand, None), calories,
                protein, carbs, fat, Optional(p.servingSize, None)))
  }

  function FoodItemInputOf(f: FoodItem): FoodItemInput {
    FoodItemInput(FieldOf(f.barcode), Given(f.name), FieldOf(f.brand), Given(f.calories),
                  MacroInput(f.protein), MacroInput(f.carbs), MacroInput(f.fat), FieldOf(f.servingSize))
  }

  lemma FoodItemRoundTrip(f: FoodItem)
    ensures ValidateFoodItem(FoodItemInputOf(f)) == Ok(f) <==> f.Valid()
  {
  }

  // ----- FoodLog -----

  datatype FoodLogInput = FoodLogInput(
    userId: Field<string>, logDate: Field<string>, meal: Field<string>,
    item: Field<FoodItemInput>, quantity: Field<real>)

  datatype FoodLog = FoodLog(
    userId: string, logDate: string, meal: Option<string>, item: FoodItem, quantity: real)
  {
    predicate Valid() {
      item.Valid() && quantity >= 0.1
    }
  }

  /** The constraint behind `quantity: float = Field(1.0, ge=0.1)`. */
  predicate AcceptsQuantity(f: Field<real>) {
    !f.Nil? && AcceptsAtLeast(f, 0.1)
  }

  /** The violation of the embedded `item`: missing, null, or its own first violation
      under the field's name. */
  function ItemViolation(f: Field<FoodItemInput>): Option<ValidationError> {
    if !f.Given? then MissingOrNull(f, "item")
    else
      var v := FirstViolation(FoodItemChecks(f.value));
      if v.Some? then Some(v.value.Under(Key("item"))) else None
  }

  /** The violation of `quantity`: an explicit null, or a number below 0.1. */
  function QuantityViolation(f: Field<real>): Option<ValidationError> {
    if f.Nil? then Some(ValidationError([Key("quantity")], NullNotAllowed)) else NumberBelow(f, "quantity", 0.1)
  }

  /** The field checks of a food log, in declaration order; `meal` has a default and
      refuses nothing. */
  function FoodLogChecks(p: FoodLogInput): seq<Option<ValidationError>> {
    [MissingOrNull(p.userId, "user_id"), MissingOrNull(p.logDate, "log_date"),
     ItemViolation(p.item), QuantityViolation(p.quantity)]
  }

  /** Validation of a food log payload, including its embedded item. */
  function ValidateFoodLog(p: FoodLogInput): (r: Result<FoodLog, ValidationError>)
    ensures r.Ok? <==>
      && p.userId.Given? && p.logDate.Given? && p.item.Given?
      && ValidateFoodItem(p.item.value).Ok? && AcceptsQuantity(p.quantity)
    ensures FirstViolation(FoodLogChecks(p)) == if r.Ok? then None else Some(r.error)
    ensures r.Ok? ==> r.value.Valid()
    ensures r.Ok? ==>
      && r.value.userId == p.userId.value && r.value.logDate == p.logDate.value
      && r.value.meal == Optional(p.meal, Some("unspecified"))
      && Ok(r.value.item) == ValidateFoodItem(p.item.value)
      && r.value.quantity == (if p.quantity.Given? then p.quantity.value else 1.0)
  {
    FirstOfFour(MissingOrNull(p.userId, "user_id"), MissingOrNull(p.logDate, "log_date"),
                ItemViolation(p.item), QuantityViolation(p.quantity));
    var userId :- Required(p.userId, "user_id");
    var logDate :- Required(p.logDate, "log_date");
    var meal := Optional(p.meal, Some("unspecified"));
    var itemInput :- Required(p.item, "item");
    var validated := ValidateFoodItem(itemInput);
    var item :- if validated.Err? then Err(validated.error.Under(Key("item"))) else Ok(validated.value);
    var quantity :- match p.quantity
      case Absent => Ok(1.0)
      case Nil => Err(ValidationError([Key("quantity")], NullNotAllowed))
      case Given(q) => AtLeast(q, "quantity", 0.1);
    Ok(FoodLog(userId, logDate, meal, item, quantity))
  }

  function FoodLogInputOf(l: FoodLog): FoodLogInput {
    FoodLogInput(Given(l.userId), Given(l.logDate), FieldOf(l.meal), Given(FoodItemInputOf(l.item)), Given(l.quantity))
  }

  lemma {:induction false} FoodLogRoundTrip(l: FoodLog)
    ensures ValidateFoodLog(FoodLogInputOf(l)) == Ok(l) <==> l.Valid()
  {
    FoodItemRoundTrip(l.item);
  }

  /** The quantity threshold: 0.05 is refused whatever else the payload says,
      0.1 is accepted when the rest of the payload is. */
  lemma QuantityThreshold(p: FoodLogInput)
    ensures p.quantity == Given(0.05) ==> ValidateFoodLog(p).Err?
    ensures p.quantity == Given(0.1) ==>
      (ValidateFoodLog(p).Ok? <==> p.userId.Given? && p.logDate.Given? && p.item.Given?
                                   && ValidateFoodItem(p.item.value).Ok?)
    ensures p.quantity == Given(0.05) && p.userId.Given? && p.logDate.Given? && p.item.Given?
            && ValidateFoodItem(p.item.value).Ok? ==>
      ValidateFoodLog(p) == Err(ValidationError([Key("quantity")], TooSmall(0.1)))
  {
  }

  // ----- Stored documents -----

  function OptText(o: Option<string>): Value {
    if o.Some? then Str(o.value) else Null
  }

  function OptNumber(o: Option<real>): Value {
    if o.Some? then Num(o.value) else Null
  }

  function ExerciseValue(e: Exercise): Value {
    Obj(map["name" := Str(e.name), "sets" := Int(e.sets), "reps" := Int(e.reps),
            "weight" := OptNumber(e.weight), "notes" := OptText(e.notes)])
  }

  function ExercisesValue(es: seq<Exercise>): Value {
    Arr(seq(|es|, i requires 0 <= i < |es| => ExerciseValue(es[i])))
  }

  /** The document a template is stored as: one key per declared field, no identifier yet. */
  function TemplateDocument(t: WorkoutTemplate): (d: Document)
    ensures d.Keys == {"title", "description", "exercises", "level"}
    ensures d["title"] == Str(t.title) && d["description"] == OptText(t.description)
  {
    map["title" := Str(t.title), "description" := OptText(t.description),
        "exercises" := ExercisesValue(t.exercises), "level" := OptText(t.level)]
  }

  /** The document a session is stored as. */
  function SessionDocument(s: WorkoutSession): (d: Document)
    ensures d.Keys == {"user_id", "session_date", "title", "exercises", "notes"}
    ensures d["user_id"] == Str(s.userId)
  {
    map["user_id" := Str(s.userId), "session_date" := Str(s.sessionDate), "title" := Str(s.title),
        "exercises" := ExercisesValue(s.exercises), "notes" := OptText(s.notes)]
  }

  /** A stored macro: the defaulted integer 0, null, or the given float. */
  function MacroValue(m: MacroAmount): Value {
    match m
    case DefaultZero => Int(0)
    case NullAmount => Null
    case Amount(x) => Num(x)
  }

  function FoodItemValue(f: FoodItem): Value {
    Obj(map["barcode" := OptText(f.barcode), "name" := Str(f.name), "brand" := OptText(f.brand),
            "calories" := Num(f.calories), "protein" := MacroValue(f.protein),
            "carbs" := MacroValue(f.carbs), "fat" := MacroValue(f.fat),
            "serving_size" := OptText(f.servingSize)])
  }

  /** The document a food log is stored as; the log date is kept as ISO text. */
  function FoodLogDocument(l: FoodLog): (d: Document)
    ensures d.Keys == {"user_id", "log_date", "meal", "item", "quantity"}
    ensures d["user_id"] == Str(l.userId) && d["log_date"] == Str(l.logDate)
  {
    map["user_id" := Str(l.userId), "log_date" := Str(l.logDate), "meal" := OptText(l.meal),
        "item" := FoodItemValue(l.item), "quantity" := Num(l.quantity)]
  }

  /** How a macro payload field ends up in the stored document: an absent one as the
      integer 0, a null one as null, a given one as that float. */
  predicate StoredMacro(v: Value, f: Field<real>) {
    && (f.Absent? ==> v == Int(0))
    && (f.Nil? ==> v == Null)
    && (f.Given? ==> v == Num(f.value))
  }

  /** The item of a stored food log keeps each macro as the payload had it, an
      absent one as the integer 0 of its unvalidated default. */
  lemma FoodLogStoredMacros(p: FoodLogInput)
    requires ValidateFoodLog(p).Ok?
    ensures var item := FoodLogDocument(ValidateFoodLog(p).value)["item"];
      && item.Obj? && {"protein", "carbs", "fat"} <= item.fields.Keys
      && StoredMacro(item.fields["protein"], p.item.value.protein)
      && StoredMacro(item.fields["carbs"], p.item.value.carbs)
      && StoredMacro(item.fields["fat"], p.item.value.fat)
  {
  }

  // ----- Collection names -----

  datatype Schema = ExerciseSchema | WorkoutTemplateSchema | WorkoutSessionSchema | FoodItemSchema | FoodLogSchema

  function ClassName(s: Schema): string {
    match s
    case ExerciseSchema => "Exercise"
    case WorkoutTemplateSchema => "WorkoutTemplate"
    case WorkoutSessionSchema => "WorkoutSession"
    case FoodItemSchema => "FoodItem"
    case FoodLogSchema => "FoodLog"
  }

  /** Each schema's collection is named by its class name in lower case. */
  function CollectionName(s: Schema): (r: string)
    ensures |r| == |ClassName(s)|
    ensures forall i :: 0 <= i < |r| ==> !('A' <= r[i] <= 'Z')
    ensures Text.Lower(r) == r
    ensures Text.OccursIgnoringCase(ClassName(s), r) && Text.OccursIgnoringCase(r, ClassName(s))
  {
    var r := Text.Lower(ClassName(s));
    assert forall i :: 0 <= i < |r| ==> Text.LowerChar(r[i]) == r[i];
    assert Text.Lower(r) == r;
    Text.OccursAtStart(r, r);
    r
  }

  /** The names the route handlers use are these lower-cased class names. */
  lemma CollectionNamesUsed()
    ensures CollectionName(WorkoutTemplateSchema) == "workouttemplate"
    ensures CollectionName(WorkoutSessionSchema) == "workoutsession"
    ensures CollectionName(FoodLogSchema) == "foodlog"
  {
  }
}
