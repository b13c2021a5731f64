# Workout & Nutrition Tracker — a verified model of its request logic

The tracker is a small HTTP backend. It stores workout templates, workout sessions and food logs in a document store. It also looks up food products in an external food database. This project models the logic between the HTTP layer and the store:

- **Validation** of the five payload schemas (`Exercise`, `WorkoutTemplate`, `WorkoutSession`, `FoodItem`, `FoodLog`). Each keeps its bounds, its defaults and its all-or-nothing treatment of embedded exercises.
- **Stored documents**, and the collection names derived from class names.
- **`to_public`**: the rename of the store's `_id` to a text `id` on every document handed out.
- **The list endpoints' filters**: template search, sessions per user with a limit, food logs per user and optional date. Also the store read that applies them.
- **Seeding** of the three prebuilt templates into an empty template collection.
- **The product normalizer** shared by food search and barcode lookup. The answer from the food database is taken as already decoded.

Modules, leaf first:

| module | file | what it holds |
|---|---|---|
| `Wrappers` | wrappers.dfy | `Option`, and `Result` with failure propagation |
| `Values` | values.dfy | decoded JSON/BSON values, Python truthiness, `or`, `dict.get`, store identifiers as 24 hex digits |
| `Text` | text.dfy | ASCII lower-casing and literal substring occurrence |
| `Schemas` | schemas.dfy | payloads with absent/null/given fields, validation, entities with `Valid()`, stored documents, collection names |
| `Queries` | queries.dfy | store filters, what matching a filter means, the filters the list endpoints build |
| `Storage` | storage.dfy | a `Store` class standing for the document store: named collections and an identifier counter |
| `Public` | public.dfy | a mutable `Dict` class, the `ToPublic` method and its specification `PublicForm` |
| `Routes` | routes.dfy | the create, list and seed handlers, and the prebuilt templates |
| `Nutrition` | nutrition.dfy | the product normalizer, the search loop and the barcode lookup |

Modelling choices:

- **Payload fields.** A field is `Absent`, `Nil` (explicit null) or `Given(v)`. This is how the schema defaults (`Field(None)`, `Field(0)`, `Field("unspecified")`, `Field(1.0)`, `default_factory=list`) and the refusal of null for non-optional fields are stated.
- **Validation errors.** A rejection reports its location and the violated bound. Locations follow FastAPI's convention. A validator reports a location inside its payload, for example `["exercises", 2, "sets"]`. A create handler puts it under `"body"`, giving `["body", "exercises", 2, "sets"]`. A refused query parameter lies under `"query"`, as in `["query", "limit"]`.
- **Store state.** The store's collections are a `map<string, seq<Document>>` that insertion updates in place. Each insertion takes the next identifier, so a new `_id` differs from every stored one.
- **Outside behaviour as parameters.** Python's `str` of an `_id` is the parameter `show`. `float` of a string is the parameter `parse`.
- **Session limit.** A session `limit` outside 1..200 is refused with a validation error, not clamped (main.py:150).
- **Exercise name.** `Exercise.name` has no minimum length, so an empty name is accepted (schemas.py:14).

## Model

| member | source | states |
|---|---|---|
| Schemas.ValidateExercise | schemas.py:13-18 | accepted iff name, sets and reps are given, 1 <= sets <= 20, 1 <= reps <= 100, and weight is absent, null or >= 0; the accepted exercise is `Valid()`, keeps the fields given and defaults weight and notes to none; a rejection carries the first violation among name, sets, reps and weight, in that order: missing or null at the field's key, `TooSmall`/`TooLarge` with the bound broken |
| Schemas.FirstViolation | schemas.py:13-50 | the reported violation is none exactly when every field check passes; otherwise it is the check of some field all of whose predecessors pass |
| Schemas.SetsTooLarge | schemas.py:15 | an exercise with a name and more than 20 sets is refused with `TooLarge(20)` at `["sets"]` |
| Schemas.ExerciseRoundTrip | schemas.py:15-17 | an exercise validates back to itself exactly when it is `Valid()` |
| Schemas.ValidateExercises | schemas.py:23 | a list validates iff every element does; it then yields each element's validation in order; otherwise the error is that of the first rejected element, located at its index |
| Schemas.ExercisesRoundTrip | schemas.py:23 | a list of exercises validates back to itself exactly when every exercise is valid |
| Schemas.ExerciseList | schemas.py:23 | an absent `exercises` is the empty list, null is refused, a given list validates element by element; an accepted list holds only valid exercises |
| Schemas.ValidateTemplate | schemas.py:20-24 | accepted iff the title is given and the exercises are acceptable; the template is `Valid()`, with description and level defaulting to none and exercises to `[]`; a rejection carries the title's missing or null error, else the exercises' error: null at `["exercises"]`, or the first rejected exercise's error under `"exercises"` |
| Schemas.TemplateSetsTooLarge | schemas.py:15-23 | when exercise `i` is the first rejected one because it has more than 20 sets, the template's error lies at `["exercises", i, "sets"]` and names the bound 20 |
| Schemas.TemplateRoundTrip | schemas.py:20-24 | a template validates back to itself exactly when all its exercises are valid |
| Schemas.TemplateAllOrNothing | schemas.py:23 | one out-of-bounds exercise rejects the whole template, with the error of the first rejected exercise at `["exercises", i, ...]` |
| Schemas.ValidateSession | schemas.py:26-31 | accepted iff user_id, session_date and title are given and the exercises are acceptable; the session is `Valid()` and keeps its fields; a rejection carries the first violation among user_id, session_date, title and exercises |
| Schemas.SessionRoundTrip | schemas.py:26-31 | a session validates back to itself exactly when all its exercises are valid |
| Schemas.ValidateFoodItem | schemas.py:35-43 | accepted iff name and calories are given, calories >= 0, and protein, carbs and fat are absent, null or >= 0; an absent macro keeps its default, the integer 0 (Pydantic does not validate defaults), and absent texts default to none; a rejection carries the first violation among name, calories, protein, carbs and fat, in that order |
| Schemas.FoodLogStoredMacros | schemas.py:40-42 | in a stored food log, an item macro that was absent is the integer 0, a null one is null, and a given one is that float |
| Schemas.FoodItemRoundTrip | schemas.py:35-43 | a food item validates back to itself exactly when it is `Valid()` |
| Schemas.ValidateFoodLog | schemas.py:45-50 | accepted iff user_id, log_date and a valid item are given and quantity is absent or >= 0.1; meal defaults to "unspecified", quantity to 1.0, and the item is the validated embedded item; a rejection carries the first violation among user_id, log_date, item (its own first violation under `"item"`) and quantity (null, or `TooSmall(0.1)` at `["quantity"]`) |
| Schemas.FoodLogRoundTrip | schemas.py:45-50 | a food log validates back to itself exactly when its item is valid and quantity >= 0.1 |
| Schemas.QuantityThreshold | schemas.py:50 | quantity 0.05 is always refused, with `TooSmall(0.1)` at `["quantity"]` once user_id, log_date and a valid item are given; quantity 0.1 is accepted exactly when the rest of the payload is |
| Schemas.TemplateDocument | schemas.py:20-24 | a stored template has exactly the keys title, description, exercises and level, with the title and description of the template |
| Schemas.SessionDocument | schemas.py:26-31 | a stored session has exactly its five declared keys, with its user_id |
| Schemas.FoodLogDocument | schemas.py:45-50 | a stored food log has exactly its five declared keys, with its user_id and its log date as text |
| Schemas.CollectionName | schemas.py:4-5 | a collection name has the length of its class name, contains no capital letter, is unchanged by lower-casing, and equals the class name when case is ignored |
| Schemas.CollectionNamesUsed | schemas.py:4-5 | the names the handlers write to, "workouttemplate", "workoutsession" and "foodlog", are the collection names of their schemas |
| Queries.Select | main.py:86 | a store read returns a subsequence of the collection, in stored order, holding exactly the documents that match the filter, each as many times as the collection does |
| Queries.Take | main.py:152 | a limit keeps the first `limit` documents when there are more, and all of them otherwise |
| Queries.TemplateFilterMeaning | main.py:79-85 | with no or empty `q` every template matches; otherwise a template matches iff `q` occurs, ignoring case, in its title or its description |
| Queries.SessionFilterMeaning | main.py:151 | a session matches iff its user_id equals the one asked for |
| Queries.FoodLogFilter | main.py:230-232 | the filter built by adding `log_date` in place matches a log iff its user_id equals the one asked for and, when a non-empty date is given, its log_date equals it |
| Storage.Store.GetDocuments | main.py:152 | a read returns the matching documents of the collection from the front, in stored order: all of them without a limit, otherwise the smaller of the limit and the number of matches |
| Storage.Store.CreateDocument | main.py:73 | appends the document to its collection under an identifier that differs from every stored one, leaves the other collections unchanged, and returns the identifier as 24 hex digits |
| Public.PublicForm | main.py:30-33 | the public form has no `_id`; when the document had one, `id` holds its text form and the keys are the old ones with `_id` replaced by `id`; every other field is unchanged; a document without `_id` is returned as it is |
| Public.PublicFormIdempotent | main.py:31-33 | applying the rename twice gives the same document as applying it once |
| Public.PublicFormEmpty | main.py:28-29 | the empty document is its own public form |
| Public.ToPublic | main.py:27-33 | none and the empty dict are returned as they are; any other dict gives a fresh dict holding its public form; the input dict is never changed |
| Public.Dict.Copy | main.py:30 | `dict(doc)` holds the same entries as `doc` |
| Public.Dict.Pop | main.py:32 | `pop` returns the value of the key and removes only that key |
| Public.Dict.Put | main.py:32 | an assignment sets one key and leaves the others |
| Public.PublicList | main.py:87 | the listing has one document per read document, and no listed document carries `_id` |
| Public.PublicListConcat | main.py:87 | listing two runs of documents one after the other gives the two listings one after the other |
| Public.PublicListIdempotent | main.py:87 | converting an already converted listing changes nothing |
| Public.PublicListMembers | main.py:87 | a document is listed iff it is the public form of one of the read documents |
| Routes.CreateTemplate | main.py:71-74 | a rejected payload leaves the store unchanged and returns the validator's error under `"body"`; an accepted one appends its stored document under the next identifier, returns that identifier and advances the counter |
| Values.NextObjectIdHexDiffers | main.py:73-74 | the text of the next identifier differs from that of the current one, so the next create returns a different `id` |
| Values.ObjectIdHexInjective | main.py:73-74 | within the 12-byte range, two identifiers have the same 24-digit text exactly when they are equal |
| Routes.CreateSession | main.py:143-146 | as for templates, in the session collection |
| Routes.CreateFoodLog | main.py:222-225 | as for templates, in the food log collection |
| Routes.ListTemplates | main.py:77-87 | a template listing is never longer than the template collection |
| Routes.ListTemplatesMeaning | main.py:77-87 | the template listing holds exactly the public forms of the stored templates the search wants |
| Routes.ListSessions | main.py:149-153 | the session listing fails iff the limit is outside 1..200; otherwise it holds at most `limit` public forms, 50 when no limit is given |
| Routes.ListSessionsMeaning | main.py:149-153 | every listed session carries the user_id asked for and is the public form of a stored session; when the user has no more sessions than the limit, all of them are listed in stored order; when they have more, exactly the first `limit` of them are listed |
| Routes.ListSessionsWithoutMatches | main.py:149-153 | a user without sessions gets the empty list, not an error |
| Routes.ListFoodLogs | main.py:228-234 | the food log listing holds, in stored order, exactly the public forms of the user's logs, restricted to the date when a non-empty one is given |
| Routes.PrebuiltTemplatesValid | main.py:91-128 | there are three prebuilt templates; each is `Valid()` (every exercise within the sets and reps bounds), so each passes validation unchanged |
| Routes.InsertAll | main.py:134-135 | the loop hands each document to `create_document` in turn: the collection gains them in order under consecutive new identifiers, and nothing else changes |
| Routes.SeedTemplates | main.py:131-139 | seeding an empty template collection appends the three prebuilt templates in order under consecutive new identifiers and replies `{"seeded": 3}`; seeding a non-empty one changes nothing and replies `{"seeded": 0, "message": "Templates already exist"}` |
| Routes.PushFindsPushDay | main.py:92-95 | a search for "Push" finds the seeded push template |
| Routes.PushMissesPullDay | main.py:104-107 | a search for "Push" misses the seeded pull template |
| Routes.PushMissesLegDay | main.py:116-119 | a search for "Push" misses the seeded leg template |
| Routes.SearchSeededForPush | main.py:79-87 | over the freshly seeded templates, a search for "Push" lists the push template alone |
| Nutrition.ToFloat | main.py:186-189 | `float` succeeds exactly on integers, floats, booleans and the strings the parser accepts; on a number or boolean it gives 0.0 exactly when the value is falsy, so the falsy checks before it and the float after it agree; an unparsable string raises a `ValueError` naming the string, any other type a `TypeError` naming the type |
| Nutrition.Name | main.py:184 | the name is `product_name` when truthy, else `generic_name` when truthy, else "Unknown"; it is always truthy |
| Nutrition.Calories | main.py:181-186 | calories are the per-100g energy as a float when that is truthy, else the per-serving energy as a float when present, else the integer 0; a failed conversion raises the exception of `float` on the value chosen |
| Nutrition.Macro | main.py:187-189 | a macro that is missing or falsy is 0.0; a truthy one is its value as a float |
| Nutrition.Normalize | main.py:180-191 | a product normalizes iff it is a dict, its nutriments are a dict and every number converts; the item then holds code, name, brands, serving size, calories and the three macros as resolved above; otherwise the exception of the first failing step, in the order product, nutriments, calories, protein, carbs, fat |
| Nutrition.NonListProductsNeverNormalize | main.py:177-180 | when `products` is not a list, everything iterated is a string without `get`, so the search finds nothing or fails on the first element |
| Nutrition.SearchFood | main.py:177-193 | the search loop yields the normalized item of every product in order, or the exception of the first product that fails to normalize |
| Nutrition.FoodByBarcode | main.py:203-216 | a barcode answer that is not a dict fails; a truthy `product` is normalized |
| Nutrition.MissingProductIsPlaceholder | main.py:203-215 | a missing, null or empty product gives the placeholder item named "Unknown" with calories 0 and all macros 0.0 |
| Nutrition.EnergyWithoutProtein | main.py:181-187 | a non-zero integer per-100g energy, 250 say, with no protein gives that energy as a float, 250.0, and protein 0.0 |
| Nutrition.ZeroEnergyFallsThrough | main.py:181 | a zero per-100g energy is falsy, so the per-serving energy is used |
| Nutrition.NormalizedNameTruthy | main.py:184 | a normalized item always has a truthy name |

## Left out

- The FastAPI application, CORS middleware, route decorators, the unused `IdModel`, the root message and `uvicorn` startup (main.py:11-19, main.py:23-24, main.py:36-38, main.py:237-240). These are framework plumbing.
- The `/test` diagnostics endpoint (main.py:41-67). It reports connectivity of a database the model does not have.
- The HTTP requests to the food database, their 8-second timeout, JSON decoding and the wrapping of exceptions into a 500 response (main.py:164-176, main.py:194-195, main.py:200-202, main.py:217-218). These are network I/O. `SearchFood` and `FoodByBarcode` take the decoded answer as input. They return the exception kind rather than the response text. The `q`, `page_size` and `code` parameters only shape the request, so they are not modelled.
- The `database` module (`db`, `create_document`, `get_documents`) is not part of this model. `Storage.Store` stands for it. The store's own timestamps, document order beyond insertion order, and failures of the store are not modelled.
- The `if db else 0` test of `seed_templates` (main.py:134). The model assumes that the truth test of `db` succeeds and is true, so the template count is always taken from the store.
- The check-then-insert race of seeding under concurrent requests. This is concurrency.
- Regular-expression semantics of `$regex` (main.py:83-84). The search pattern is matched as a literal substring. Case is folded for ASCII letters only.
- MongoDB's matching of array fields and of missing fields against null. A filter field matches only a present field with an equal value.
- Framework type coercion and ISO-8601 date parsing. Dates are opaque text, and payload fields arrive already typed. A missing required query parameter (`user_id`, main.py:150 and main.py:229) is refused by the framework before the handler runs, so it is not modelled.
- Schemas.ValidateExercise, Schemas.ValidateTemplate, Schemas.ValidateSession, Schemas.ValidateFoodItem, Schemas.ValidateFoodLog: these report only the first violation in field order. Pydantic reports every violation.
- Nutrition.ToFloat: the text of a string is parsed by the parameter `parse`, and an overflow of a huge integer is not modelled.
- Nutrition.Normalize: floats are exact reals, so rounding is not modelled. The object returned by the endpoint and the item fields are not validated against `FoodItem`, just as in the source.
- Python's `str` of an identifier is the parameter `show`, left unconstrained. No lemma ties the `id` of a listed document to the text that `Storage.Store.CreateDocument` returned for it.
