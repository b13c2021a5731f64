/** The route handlers over the document store: creating and listing
    workout templates, sessions and food logs, and seeding the prebuilt
    templates. A payload reaches a create handler only after validation; the
    model folds that validation into the handler and returns its rejection. */
module Routes {
  import opened Wrappers
  import opened Values
  import opened Text
  import opened Schemas
  import opened Queries
  import opened Storage
  import opened Public

  const TemplateCollection := "workouttemplate"
  const SessionCollection := "workoutsession"
  const FoodLogCollection := "foodlog"

  // ----- Create handlers: `{"id": new_id}` or the validation error -----

  method CreateTemplate(store: Store, input: TemplateInput) returns (r: Result<string, ValidationError>)
    requires store.Valid()
    modifies store
    ensures store.Valid()
    ensures ValidateTemplate(input).Err? ==>
      && r == Err(ValidateTemplate(input).error.Under(Key("body")))
      && store.collections == old(store.collections) && store.nextId == old(store.nextId)
    ensures ValidateTemplate(input).Ok? ==>
      && r == Ok(ObjectIdHex(ObjectId(old(store.nextId))))
      && store.nextId == old(store.nextId) + 1
      && store.collections == old(store.collections)[TemplateCollection :=
           old(store.Collection(TemplateCollection)) + [Inserted(TemplateDocument(ValidateTemplate(input).value), old(store.nextId))]]
  {
    var t := ValidateTemplate(input);
    if t.Err? {
      return Err(t.error.Under(Key("body")));
    }
    var id := store.CreateDocument(TemplateCollection, TemplateDocument(t.value));
    return Ok(id);
  }

  method CreateSession(store: Store, input: SessionInput) returns (r: Result<string, ValidationError>)
    requires store.Valid()
    modifies store
    ensures store.Valid()
    ensures ValidateSession(input).Err? ==>
      && r == Err(ValidateSession(input).error.Under(Key("body")))
      && store.collections == old(store.collections) && store.nextId == old(store.nextId)
    ensures ValidateSession(input).Ok? ==>
      && r == Ok(ObjectIdHex(ObjectId(old(store.nextId))))
      && store.nextId == old(store.nextId) + 1
      && store.collections == old(store.collections)[SessionCollection :=
           old(store.Collection(SessionCollection)) + [Inserted(SessionDocument(ValidateSession(input).value), old(store.nextId))]]
  {
    var s := ValidateSession(input);
    if s.Err? {
      return Err(s.error.Under(Key("body")));
    }
    var id := store.CreateDocument(SessionCollection, SessionDocument(s.value));
    return Ok(id);
  }

  method CreateFoodLog(store: Store, input: FoodLogInput) returns (r: Result<string, ValidationError>)
    requires store.Valid()
    modifies store
    ensures store.Valid()
    ensures ValidateFoodLog(input).Err? ==>
      && r == Err(ValidateFoodLog(input).error.Under(Key("body")))
      && store.collections == old(store.collections) && store.nextId == old(store.nextId)
    ensures ValidateFoodLog(input).Ok? ==>
      && r == Ok(ObjectIdHex(ObjectId(old(store.nextId))))
      && store.nextId == old(store.nextId) + 1
      && store.collections == old(store.collections)[FoodLogCollection :=
           old(store.Collection(FoodLogCollection)) + [Inserted(FoodLogDocument(ValidateFoodLog(input).value), old(store.nextId))]]
  {
    var l := ValidateFoodLog(input);
    if l.Err? {
      return Err(l.error.Under(Key("body")));
    }
    var id := store.CreateDocument(FoodLogCollection, FoodLogDocument(l.value));
    return Ok(id);
  }

  // ----- Listing templates -----

  /** `list_templates(q)`: the public forms of the templates the search selects, in stored order. */
  function ListTemplates(store: Store, q: Option<string>, show: Value -> string): (r: seq<Document>)
    reads store
    ensures |r| <= store.Count(TemplateCollection)
  {
    PublicList(store.GetDocuments(TemplateCollection, TemplateFilter(q), None), show)
  }

  /** The search lists the public form of exactly the templates whose title or
      description contains `q` ignoring case, and all templates for an absent or empty `q`. */
  lemma {:induction false} ListTemplatesMeaning(store: Store, q: Option<string>, show: Value -> string, x: Document)
    ensures x in ListTemplates(store, q, show) <==>
            exists d :: d in store.Collection(TemplateCollection) && TemplateWanted(d, q) && x == PublicForm(d, show)
  {
    var coll := store.Collection(TemplateCollection);
    var selected := Select(coll, TemplateFilter(q));
    assert store.GetDocuments(TemplateCollection, TemplateFilter(q), None) == selected;
    PublicListMembers(selected, show, x);
    forall d | d in coll ensures d in selected <==> TemplateWanted(d, q) {
      TemplateFilterMeaning(q, d);
    }
  }

  // ----- Listing sessions -----

  const DefaultLimit: nat := 50
  const MaxLimit: nat := 200

  /** `limit: Optional[int] = Query(50, ge=1, le=200)`: out-of-range limits are refused, not clamped. */
  function SessionLimit(limit: Option<int>): Result<nat, ValidationError> {
    if limit.None? then Ok(DefaultLimit)
    else if limit.value < 1 then Err(ValidationError([Key("query"), Key("limit")], TooSmall(1.0)))
    else if limit.value > MaxLimit then Err(ValidationError([Key("query"), Key("limit")], TooLarge(MaxLimit as real)))
    else Ok(limit.value)
  }

  /** `list_sessions(user_id, limit)`: at most `limit` of the user's sessions, in stored order. */
  function ListSessions(store: Store, userId: string, limit: Option<int>, show: Value -> string)
    : (r: Result<seq<Document>, ValidationError>)
    reads store
    ensures r.Ok? <==> limit.None? || 1 <= limit.value <= MaxLimit
    ensures r.Ok? ==> |r.value| <= (if limit.Some? then limit.value else DefaultLimit)
  {
    var n :- SessionLimit(limit);
    Ok(PublicList(store.GetDocuments(SessionCollection, SessionFilter(userId), Some(n)), show))
  }

  /** Every listed session belongs to `userId` and is the public form of a stored
      session; when the user has no more sessions than the limit, all of them are listed. */
  lemma {:induction false} ListSessionsMeaning(store: Store, userId: string, limit: Option<int>, show: Value -> string)
    requires limit.None? || 1 <= limit.value <= MaxLimit
    ensures forall x :: x in ListSessions(store, userId, limit, show).value ==>
      && "user_id" in x && x["user_id"] == Str(userId)
      && exists d :: d in store.Collection(SessionCollection) && x == PublicForm(d, show)
    ensures var mine := Select(store.Collection(SessionCollection), SessionFilter(userId));
      |mine| <= (if limit.Some? then limit.value else DefaultLimit) ==>
        ListSessions(store, userId, limit, show).value == PublicList(mine, show)
    ensures var mine := Select(store.Collection(SessionCollection), SessionFilter(userId));
      var n := if limit.Some? then limit.value else DefaultLimit;
      |mine| > n ==> ListSessions(store, userId, limit, show).value == PublicList(mine[..n], show)
  {
    var coll := store.Collection(SessionCollection);
    var n := SessionLimit(limit).value;
    var listed := store.GetDocuments(SessionCollection, SessionFilter(userId), Some(n));
    forall x | x in ListSessions(store, userId, limit, show).value
      ensures "user_id" in x && x["user_id"] == Str(userId)
      ensures exists d :: d in coll && x == PublicForm(d, show)
    {
      PublicListMembers(listed, show, x);
      var d :| d in listed && x == PublicForm(d, show);
      SessionFilterMeaning(userId, d);
    }
  }

  /** A user without sessions gets an empty list, not an error. */
  lemma ListSessionsWithoutMatches(store: Store, userId: string, limit: Option<int>, show: Value -> string)
    requires limit.None? || 1 <= limit.value <= MaxLimit
    requires forall d :: d in store.Collection(SessionCollection) ==> "user_id" !in d || d["user_id"] != Str(userId)
    ensures ListSessions(store, userId, limit, show) == Ok([])
  {
    var mine := Select(store.Collection(SessionCollection), SessionFilter(userId));
    if mine != [] {
      SessionFilterMeaning(userId, mine[0]);
      assert false;
    }
  }

  // ----- Listing food logs -----

  /** `list_food_logs(user_id, log_date)`: the public forms of the user's logs,
      restricted to the date when a non-empty one is given, in stored order.
      `filt` is the filter the handler builds. */
  method ListFoodLogs(store: Store, userId: string, logDate: Option<string>, show: Value -> string)
    returns (docs: seq<Document>, ghost filt: Filter)
    ensures forall d :: Matches(filt, d) <==> FoodLogWanted(d, userId, logDate)
    ensures docs == PublicList(Select(store.Collection(FoodLogCollection), filt), show)
    ensures forall x :: x in docs <==>
      exists d :: d in store.Collection(FoodLogCollection) && FoodLogWanted(d, userId, logDate) && x == PublicForm(d, show)
  {
    var f := FoodLogFilter(userId, logDate);
    filt := f;
    docs := PublicList(store.GetDocuments(FoodLogCollection, f, None), show);
    forall x ensures x in docs <==>
      exists d :: d in store.Collection(FoodLogCollection) && FoodLogWanted(d, userId, logDate) && x == PublicForm(d, show)
    {
      PublicListMembers(Select(store.Collection(FoodLogCollection), f), show, x);
    }
  }

  // ----- Prebuilt templates and seeding -----

  const PushDay := WorkoutTemplate(
    "Push Day (Chest/Shoulders/Triceps)", Some("Classic push workout"),
    [ Exercise("Bench Press", 4, 8, None, None),
      Exercise("Incline Dumbbell Press", 3, 10, None, None),
      Exercise("Overhead Press", 3, 8, None, None),
      Exercise("Lateral Raise", 3, 15, None, None),
      Exercise("Tricep Pushdown", 3, 12, None, None) ],
    Some("Intermediate"))

  const PullDay := WorkoutTemplate(
    "Pull Day (Back/Biceps)", Some("Back and biceps focus"),
    [ Exercise("Deadlift", 3, 5, None, None),
      Exercise("Bent-over Row", 4, 8, None, None),
      Exercise("Lat Pulldown", 3, 10, None, None),
      Exercise("Face Pulls", 3, 15, None, None),
      Exercise("Bicep Curl", 3, 12, None, None) ],
    Some("Intermediate"))

  const LegDay := WorkoutTemplate(
    "Leg Day", Some("Quads, hamstrings, glutes"),
    [ Exercise("Squat", 4, 6, None, None),
      Exercise("Romanian Deadlift", 3, 8, None, None),
      Exercise("Leg Press", 3, 12, None, None),
      Exercise("Leg Curl", 3, 12, None, None),
      Exercise("Calf Raise", 4, 15, None, None) ],
    Some("Intermediate"))

  const PrebuiltTemplates: seq<WorkoutTemplate> := [PushDay, PullDay, LegDay]

  /** Every prebuilt template keeps the exercise bounds, so building them validates. */
  lemma PrebuiltTemplatesValid()
    ensures |PrebuiltTemplates| == 3
    ensures forall i :: 0 <= i < |PrebuiltTemplates| ==> PrebuiltTemplates[i].Valid()
    ensures forall i :: 0 <= i < |PrebuiltTemplates| ==>
      ValidateTemplate(TemplateInputOf(PrebuiltTemplates[i])) == Ok(PrebuiltTemplates[i])
  {
    forall i | 0 <= i < |PrebuiltTemplates|
      ensures PrebuiltTemplates[i].Valid()
      ensures ValidateTemplate(TemplateInputOf(PrebuiltTemplates[i])) == Ok(PrebuiltTemplates[i])
    {
      var t := PrebuiltTemplates[i];
      assert forall j :: 0 <= j < |t.exercises| ==> t.exercises[j].Valid();
      TemplateRoundTrip(t);
    }
  }

  /** The documents `docs` as inserted in order, the first under identifier `start`. */
  function Stamped(docs: seq<Document>, start: nat): (r: seq<Document>)
    ensures |r| == |docs|
    ensures forall i :: 0 <= i < |docs| ==> r[i] == Inserted(docs[i], start + i)
  {
    seq(|docs|, i requires 0 <= i < |docs| => Inserted(docs[i], start + i))
  }

  /** The prebuilt templates as the documents handed to `create_document`. */
  function PrebuiltDocuments(): (r: seq<Document>)
    ensures |r| == |PrebuiltTemplates|
    ensures forall i :: 0 <= i < |PrebuiltTemplates| ==> r[i] == TemplateDocument(PrebuiltTemplates[i])
  {
    seq(|PrebuiltTemplates|, i requires 0 <= i < |PrebuiltTemplates| => TemplateDocument(PrebuiltTemplates[i]))
  }

  /** The documents seeding stores, the first with identifier `start`. */
  function SeedDocuments(start: nat): (r: seq<Document>)
    ensures |r| == |PrebuiltTemplates|
  {
    Stamped(PrebuiltDocuments(), start)
  }

  /** The loop of `seed_templates`: each document in turn goes through `create_document`. */
  method InsertAll(store: Store, name: string, docs: seq<Document>)
    requires store.Valid()
    modifies store
    ensures store.Valid()
    ensures store.nextId == old(store.nextId) + |docs|
    ensures store.collections == if docs == [] then old(store.collections) else
      old(store.collections)[name := old(store.Collection(name)) + Stamped(docs, old(store.nextId))]
  {
    ghost var start := store.nextId;
    ghost var before := store.collections;
    ghost var existing := store.Collection(name);
    ghost var inserted := Stamped(docs, start);
    for i := 0 to |docs|
      invariant store.Valid()
      invariant store.nextId == start + i
      invariant store.collections == if i == 0 then before else before[name := existing + inserted[..i]]
    {
      assert store.Collection(name) == existing + inserted[..i];
      var _ := store.CreateDocument(name, docs[i]);
      assert existing + inserted[..i + 1] == (existing + inserted[..i]) + [inserted[i]];
      if i > 0 {
        UpdateTwice(before, name, existing + inserted[..i], existing + inserted[..i + 1]);
      }
    }
    assert inserted[..|docs|] == inserted;
  }

  /** A second update of the same key overrides the first. */
  lemma UpdateTwice<K, V>(m: map<K, V>, k: K, a: V, b: V)
    ensures m[k := a][k := b] == m[k := b]
  {
  }

  /** `{"seeded": n}`, with a message when nothing was seeded. */
  datatype SeedReply = SeedReply(seeded: nat, message: Option<string>)

  /** `seed_templates()`: an empty template collection receives the prebuilt
      templates in order; a non-empty one is left alone. */
  method SeedTemplates(store: Store) returns (reply: SeedReply)
    requires store.Valid()
    modifies store
    ensures store.Valid()
    ensures old(store.Count(TemplateCollection)) == 0 ==>
      && reply == SeedReply(3, None)
      && store.collections == old(store.collections)[TemplateCollection := SeedDocuments(old(store.nextId))]
      && store.nextId == old(store.nextId) + 3
    ensures old(store.Count(TemplateCollection)) != 0 ==>
      && reply == SeedReply(0, Some("Templates already exist"))
      && store.collections == old(store.collections) && store.nextId == old(store.nextId)
  {
    var existing := store.Count(TemplateCollection);
    if existing == 0 {
      ghost var start := store.nextId;
      InsertAll(store, TemplateCollection, PrebuiltDocuments());
      assert [] + SeedDocuments(start) == SeedDocuments(start);
      return SeedReply(|PrebuiltTemplates|, None);
    }
    return SeedReply(0, Some("Templates already exist"));
  }

  /** The text fields of the `i`-th seeding document are those of the `i`-th template. */
  lemma SeedDocumentText(start: nat, i: nat)
    requires i < |PrebuiltTemplates|
    ensures "title" in SeedDocuments(start)[i] && "description" in SeedDocuments(start)[i]
    ensures SeedDocuments(start)[i]["title"] == Str(PrebuiltTemplates[i].title)
    ensures SeedDocuments(start)[i]["description"] == OptText(PrebuiltTemplates[i].description)
  {
  }

  /** A search misses a template whose title and description lack a letter of the query. */
  lemma SearchMisses(d: Document, q: string, c: char)
    requires c in Lower(q)
    requires "title" in d && d["title"].Str? ==> c !in Lower(d["title"].s)
    requires "description" in d && d["description"].Str? ==> c !in Lower(d["description"].s)
    ensures !TemplateWanted(d, Some(q))
  {
    if TextFieldContains(d, "title", q) {
      OccursKeepsChars(Lower(q), Lower(d["title"].s), c);
    }
    if TextFieldContains(d, "description", q) {
      OccursKeepsChars(Lower(q), Lower(d["description"].s), c);
    }
  }

  lemma PushFindsPushDay(start: nat)
    ensures TemplateWanted(SeedDocuments(start)[0], Some("Push"))
  {
    SeedDocumentText(start, 0);
    PushDayFound("Push", PushDay.title);
  }

  /** The lowered push title starts with the lowered query. The texts come in as
      parameters equal to literals, which keeps the proof small. */
  lemma PushDayFound(q: string, title: string)
    requires q == "Push" && title == "Push Day (Chest/Shoulders/Triceps)"
    ensures OccursIgnoringCase(q, title)
  {
    var lq, lt := Lower(q), Lower(title);
    assert lq == ['p', 'u', 's', 'h'];
    assert lt[0] == 'p' && lt[1] == 'u' && lt[2] == 's' && lt[3] == 'h';
    assert lt[..4] == lq;
    OccursAtStart(lq, lt);
  }

  /** Neither text of the pull template has an `h`, in either case. The texts
      come in as parameters equal to literals, which keeps the proof small. */
  lemma PullDayLacks(title: string, description: string)
    requires title == "Pull Day (Back/Biceps)" && description == "Back and biceps focus"
    ensures 'h' !in Lower(title) && 'h' !in Lower(description)
  {
    LowerLacks(title, 'h');
    LowerLacks(description, 'h');
  }

  /** Neither text of the leg template has a `p`, in either case; the texts
      come in as parameters for the same reason. */
  lemma LegDayLacks(title: string, description: string)
    requires title == "Leg Day" && description == "Quads, hamstrings, glutes"
    ensures 'p' !in Lower(title) && 'p' !in Lower(description)
  {
    LowerLacks(title, 'p');
    LowerLacks(description, 'p');
  }

  lemma PushMissesPullDay(start: nat)
    ensures !TemplateWanted(SeedDocuments(start)[1], Some("Push"))
  {
    SeedDocumentText(start, 1);
    assert Lower("Push")[3] == 'h';
    PullDayLacks(PullDay.title, PullDay.description.value);
    SearchMisses(SeedDocuments(start)[1], "Push", 'h');
  }

  lemma PushMissesLegDay(start: nat)
    ensures !TemplateWanted(SeedDocuments(start)[2], Some("Push"))
  {
    SeedDocumentText(start, 2);
    assert Lower("Push")[0] == 'p';
    LegDayLacks(LegDay.title, LegDay.description.value);
    SearchMisses(SeedDocuments(start)[2], "Push", 'p');
  }

  /** Searching freshly seeded templates for "Push" finds the push template only. */
  lemma SearchSeededForPush(store: Store, start: nat, show: Value -> string)
    requires store.Collection(TemplateCollection) == SeedDocuments(start)
    ensures ListTemplates(store, Some("Push"), show) == [PublicForm(SeedDocuments(start)[0], show)]
  {
    var docs := SeedDocuments(start);
    var f := TemplateFilter(Some("Push"));
    PushFindsPushDay(start);
    PushMissesPullDay(start);
    PushMissesLegDay(start);
    TemplateFilterMeaning(Some("Push"), docs[0]);
    TemplateFilterMeaning(Some("Push"), docs[1]);
    TemplateFilterMeaning(Some("Push"), docs[2]);
    SelectFirstOfThree(docs, f);
  }

  /** Of three documents, only the first matches. */
  lemma SelectFirstOfThree(docs: seq<Document>, f: Filter)
    requires |docs| == 3 && Matches(f, docs[0]) && !Matches(f, docs[1]) && !Matches(f, docs[2])
    ensures Select(docs, f) == [docs[0]]
  {
    assert docs[1..][1..][1..] == [];
    assert Select(docs[1..][1..], f) == [];
    assert Select(docs[1..], f) == [];
  }
}
