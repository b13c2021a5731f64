/** Store filters as the route handlers build them, what it means for a
    document to match one, and the selection a store read performs. */
module Queries {
  import opened Wrappers
  import opened Values
  import opened Text

  /** The condition a filter puts on one field: `{"f": v}` or `{"f": {"$regex": p, "$options": o}}`. */
  datatype Condition = Equals(value: Value) | Regex(pattern: string, options: string)

  /** A filter document: a conjunction of field conditions, or `{"$or": [...]}`. */
  datatype Filter = Fields(conditions: map<string, Condition>) | AnyOf(alternatives: seq<Filter>)

  /** `{}`: the filter every document matches. */
  const MatchAll: Filter := Fields(map[])

  /** A regular expression is read as a literal pattern; option `i` ignores case. */
  predicate Holds(c: Condition, v: Value) {
    match c
    case Equals(x) => v == x
    case Regex(p, o) => v.Str? && (if 'i' in o then OccursIgnoringCase(p, v.s) else Occurs(p, v.s))
  }

  predicate Matches(f: Filter, d: Document) {
    match f
    case Fields(cs) => forall k :: k in cs ==> k in d && Holds(cs[k], d[k])
    case AnyOf(alts) => exists g :: g in alts && Matches(g, d)
  }

  // ----- Store reads -----

  /** `r` lists some of the elements of `s`, in the order `s` has them. */
  predicate SubsequenceOf<T(==)>(r: seq<T>, s: seq<T>)
    decreases |s|
  {
    if r == [] then true
    else if s == [] then false
    else (r[0] == s[0] && SubsequenceOf(r[1..], s[1..])) || SubsequenceOf(r, s[1..])
  }

  /** The documents of a collection that match a filter, in stored order. */
  function Select(docs: seq<Document>, f: Filter): (r: seq<Document>)
    ensures |r| <= |docs|
    ensures forall d :: d in r <==> d in docs && Matches(f, d)
    ensures SubsequenceOf(r, docs)
    ensures forall d :: multiset(r)[d] == if Matches(f, d) then multiset(docs)[d] else 0
  {
    assert docs != [] ==> docs == [docs[0]] + docs[1..];
    if docs == [] then []
    else if Matches(f, docs[0]) then [docs[0]] + Select(docs[1..], f)
    else Select(docs[1..], f)
  }

  /** At most `limit` of the documents, from the front; no limit keeps them all. */
  function Take(docs: seq<Document>, limit: Option<nat>): (r: seq<Document>)
    ensures limit.Some? ==> |r| <= limit.value
    ensures limit.None? || |docs| <= limit.value ==> r == docs
    ensures |r| <= |docs| && r == docs[..|r|]
    ensures limit.Some? && limit.value < |docs| ==> r == docs[..limit.value]
  {
    if limit.Some? && limit.value < |docs| then docs[..limit.value] else docs
  }

  // ----- The filters of the list endpoints -----

  /** The text field `k` of `d` contains `q`, ignoring case. */
  predicate TextFieldContains(d: Document, k: string, q: string) {
    k in d && d[k].Str? && OccursIgnoringCase(q, d[k].s)
  }

  /** Which templates a search for `q` is meant to find. */
  predicate TemplateWanted(d: Document, q: Option<string>) {
    q.None? || q.value == "" || TextFieldContains(d, "title", q.value) || TextFieldContains(d, "description", q.value)
  }

  /** The template search filter: none for an absent or empty `q`, otherwise `q`
      case-insensitively in the title or in the description. */
  function TemplateFilter(q: Option<string>): Filter {
    if q.Some? && q.value != "" then
      AnyOf([Fields(map["title" := Regex(q.value, "i")]), Fields(map["description" := Regex(q.value, "i")])])
    else MatchAll
  }

  lemma TemplateFilterMeaning(q: Option<string>, d: Document)
    ensures Matches(TemplateFilter(q), d) <==> TemplateWanted(d, q)
  {
    if q.Some? && q.value != "" {
      var byTitle := Fields(map["title" := Regex(q.value, "i")]);
      var byDescription := Fields(map["description" := Regex(q.value, "i")]);
      assert byTitle in [byTitle, byDescription] && byDescription in [byTitle, byDescription];
      assert Matches(byTitle, d) <==> TextFieldContains(d, "title", q.value);
      assert Matches(byDescription, d) <==> TextFieldContains(d, "description", q.value);
    }
  }

  /** The session listing filter: exact `user_id`. */
  function SessionFilter(userId: string): Filter {
    Fields(map["user_id" := Equals(Str(userId))])
  }

  lemma SessionFilterMeaning(userId: string, d: Document)
    ensures Matches(SessionFilter(userId), d) <==> "user_id" in d && d["user_id"] == Str(userId)
  {
  }

  /** Which food logs a listing for `userId` and `logDate` is meant to find. */
  predicate FoodLogWanted(d: Document, userId: string, logDate: Option<string>) {
    && "user_id" in d && d["user_id"] == Str(userId)
    && (logDate.Some? && logDate.value != "" ==> "log_date" in d && d["log_date"] == Str(logDate.value))
  }

  /** The food log listing filter, built as the handler builds it: exact `user_id`,
      with the exact `log_date` added in place when a non-empty date is given. */
  method FoodLogFilter(userId: string, logDate: Option<string>) returns (filt: Filter)
    ensures filt.Fields?
    ensures forall d :: Matches(filt, d) <==> FoodLogWanted(d, userId, logDate)
  {
    var conditions := map["user_id" := Equals(Str(userId))];
    if logDate.Some? && logDate.value != "" {
      conditions := conditions["log_date" := Equals(Str(logDate.value))];
    }
    filt := Fields(conditions);
    forall d ensures Matches(filt, d) <==> FoodLogWanted(d, userId, logDate) {
      if logDate.Some? && logDate.value != "" {
        assert "user_id" in conditions && "log_date" in conditions;
      } else {
        assert "user_id" in conditions;
      }
    }
  }
}
