/** The food-database normalizer behind `search_food` and `food_by_barcode`:
    a decoded product record becomes a FoodItem-shaped item, with Python's
    `dict.get`, `or` and `float` semantics written out. */
module Nutrition {
  import opened Wrappers
  import opened Values

  /** The Python type names that appear in the exception messages. */
  function TypeName(v: Value): string {
    match v
    case Null => "NoneType"
    case Bool(_) => "bool"
    case Int(_) => "int"
    case Num(_) => "float"
    case Str(_) => "str"
    case Oid(_) => "ObjectId"
    case Arr(_) => "list"
    case Obj(_) => "dict"
  }

  /** The exceptions the normalizer can raise on a malformed answer. */
  datatype Failure =
    | NoGet(typeName: string)        // AttributeError: '<type>' object has no attribute 'get'
    | NotIterable(typeName: string)  // TypeError: '<type>' object is not iterable
    | NotANumber(typeName: string)   // TypeError: float() argument must be a string or a real number
    | Unparsable(text: string)       // ValueError: could not convert string to float

  /** The normalized item: what the endpoints answer for one product. */
  datatype Item = Item(
    barcode: Value, name: Value, brand: Value, calories: Value,
    protein: real, carbs: real, fat: real, servingSize: Value)

  /** Using a value as a dict: anything but an object has no `get`. */
  function Entries(v: Value): (r: Result<Document, Failure>)
    ensures r.Ok? <==> v.Obj?
    ensures r.Ok? ==> r.value == v.fields
    ensures r.Err? ==> r.error == NoGet(TypeName(v))
  {
    if v.Obj? then Ok(v.fields) else Err(NoGet(TypeName(v)))
  }

  /** Python's `float(v)`; parsing the text of a string is the parameter `parse`. */
  function ToFloat(v: Value, parse: string -> Option<real>): (r: Result<real, Failure>)
    ensures r.Ok? <==> v.Int? || v.Num? || v.Bool? || (v.Str? && parse(v.s).Some?)
    ensures v.Int? ==> r == Ok(v.i as real)
    ensures v.Num? ==> r == Ok(v.r)
    ensures v.Bool? ==> r == Ok(if v.b then 1.0 else 0.0)
    ensures v.Str? && parse(v.s).Some? ==> r == Ok(parse(v.s).value)
    ensures v.Int? || v.Num? || v.Bool? ==> (r.value == 0.0 <==> !Truthy(v))
    ensures v.Str? && parse(v.s).None? ==> r == Err(Unparsable(v.s))
    ensures !(v.Int? || v.Num? || v.Bool? || v.Str?) ==> r == Err(NotANumber(TypeName(v)))
  {
    match v
    case Int(i) => Ok(i as real)
    case Num(x) => Ok(x)
    case Bool(b) => Ok(if b then 1.0 else 0.0)
    case Str(s) => if parse(s).Some? then Ok(parse(s).value) else Err(Unparsable(s))
    case _ => Err(NotANumber(TypeName(v)))
  }

  /** `p.get("product_name") or p.get("generic_name") or "Unknown"`. */
  function Name(p: Document): (r: Value)
    ensures Truthy(r)
    ensures Truthy(Get(p, "product_name", Null)) ==> r == p["product_name"]
    ensures !Truthy(Get(p, "product_name", Null)) && Truthy(Get(p, "generic_name", Null)) ==> r == p["generic_name"]
    ensures !Truthy(Get(p, "product_name", Null)) && !Truthy(Get(p, "generic_name", Null)) ==> r == Str("Unknown")
  {
    Or(Or(Get(p, "product_name", Null), Get(p, "generic_name", Null)), Str("Unknown"))
  }

  /** `float(calories) if calories is not None else 0`, where `calories` is the
      per-100g energy when truthy and the per-serving energy otherwise. The
      fallback is the integer 0; a found value becomes a float. */
  function Calories(n: Document, parse: string -> Option<real>): (r: Result<Value, Failure>)
    ensures var per100g := Get(n, "energy-kcal_100g", Null);
      Truthy(per100g) ==>
        && (r.Ok? <==> ToFloat(per100g, parse).Ok?)
        && (r.Ok? ==> r.value == Num(ToFloat(per100g, parse).value))
        && (r.Err? ==> r.error == ToFloat(per100g, parse).error)
    ensures var per100g, serving := Get(n, "energy-kcal_100g", Null), Get(n, "energy-kcal_serving", Null);
      !Truthy(per100g) && serving != Null ==>
        && (r.Ok? <==> ToFloat(serving, parse).Ok?)
        && (r.Ok? ==> r.value == Num(ToFloat(serving, parse).value))
        && (r.Err? ==> r.error == ToFloat(serving, parse).error)
    ensures var per100g, serving := Get(n, "energy-kcal_100g", Null), Get(n, "energy-kcal_serving", Null);
      !Truthy(per100g) && serving == Null ==> r == Ok(Int(0))
    ensures r.Ok? ==> r.value.Num? || r.value == Int(0)
  {
    var calories := Or(Get(n, "energy-kcal_100g", Null), Get(n, "energy-kcal_serving", Null));
    if calories == Null then Ok(Int(0))
    else
      var x :- ToFloat(calories, parse);
      Ok(Num(x))
  }

  /** `float(nutriments.get(key, 0) or 0)`: a missing or falsy macro is 0. */
  function Macro(n: Document, key: string, parse: string -> Option<real>): (r: Result<real, Failure>)
    ensures key !in n || !Truthy(n[key]) ==> r == Ok(0.0)
    ensures key in n && Truthy(n[key]) ==> r == ToFloat(n[key], parse)
  {
    ToFloat(Or(Get(n, key, Int(0)), Int(0)), parse)
  }

  /** `p.get("nutriments", {})`. */
  function Nutriments(p: Document): Value {
    Get(p, "nutriments", Obj(map[]))
  }

  /** Whether normalizing the product record `p` raises nothing. */
  predicate Normalizes(p: Value, parse: string -> Option<real>) {
    && p.Obj? && Nutriments(p.fields).Obj?
    && var n := Nutriments(p.fields).fields;
    && Calories(n, parse).Ok?
    && Macro(n, "proteins_100g", parse).Ok?
    && Macro(n, "carbohydrates_100g", parse).Ok?
    && Macro(n, "fat_100g", parse).Ok?
  }

  /** The item built from one product record, raising what the first failing step raises. */
  function Normalize(p: Value, parse: string -> Option<real>): (r: Result<Item, Failure>)
    ensures r.Ok? <==> Normalizes(p, parse)
    ensures !p.Obj? ==> r == Err(NoGet(TypeName(p)))
    ensures p.Obj? && !Nutriments(p.fields).Obj? ==> r == Err(NoGet(TypeName(Nutriments(p.fields))))
    ensures p.Obj? && Nutriments(p.fields).Obj? ==>
      var n := Nutriments(p.fields).fields;
      var calories := Calories(n, parse);
      var protein := Macro(n, "proteins_100g", parse);
      var carbs := Macro(n, "carbohydrates_100g", parse);
      var fat := Macro(n, "fat_100g", parse);
      && (calories.Err? ==> r == Err(calories.error))
      && (calories.Ok? && protein.Err? ==> r == Err(protein.error))
      && (calories.Ok? && protein.Ok? && carbs.Err? ==> r == Err(carbs.error))
      && (calories.Ok? && protein.Ok? && carbs.Ok? && fat.Err? ==> r == Err(fat.error))
    ensures r.Ok? ==>
      var f := p.fields;
      var n := Nutriments(f).fields;
      && r.value.barcode == Get(f, "code", Null)
      && r.value.name == Name(f)
      && r.value.brand == Get(f, "brands", Null)
      && r.value.servingSize == Get(f, "serving_size", Null)
      && r.value.calories == Calories(n, parse).value
      && r.value.protein == Macro(n, "proteins_100g", parse).value
      && r.value.carbs == Macro(n, "carbohydrates_100g", parse).value
      && r.value.fat == Macro(n, "fat_100g", parse).value
  {
    var f :- Entries(p);
    var n :- Entries(Nutriments(f));
    var calories :- Calories(n, parse);
    var protein :- Macro(n, "proteins_100g", parse);
    var carbs :- Macro(n, "carbohydrates_100g", parse);
    var fat :- Macro(n, "fat_100g", parse);
    Ok(Item(Get(f, "code", Null), Name(f), Get(f, "brands", Null), calories,
            protein, carbs, fat, Get(f, "serving_size", Null)))
  }

  // ----- Text search -----

  /** Lists, strings and dicts can be iterated over. */
  predicate Iterable(v: Value) {
    v.Arr? || v.Str? || v.Obj?
  }

  /** What `for p in data.get("products", [])` iterates over. Iterating a string
      gives its one-character strings; iterating a dict gives its keys, all
      strings, so a non-empty dict fails on its first key whichever it is. */
  function Products(data: Value): (r: Result<seq<Value>, Failure>)
    ensures !data.Obj? ==> r == Err(NoGet(TypeName(data)))
    ensures data.Obj? && "products" !in data.fields ==> r == Ok([])
    ensures data.Obj? && "products" in data.fields && data.fields["products"].Arr? ==> r == Ok(data.fields["products"].items)
    ensures data.Obj? && "products" in data.fields && data.fields["products"].Str? ==>
      var s := data.fields["products"].s;
      r.Ok? && |r.value| == |s| && forall i :: 0 <= i < |s| ==> r.value[i] == Str([s[i]])
    ensures data.Obj? && "products" in data.fields && data.fields["products"].Obj? ==>
      r == if data.fields["products"].fields == map[] then Ok([]) else Err(NoGet("str"))
    ensures data.Obj? && "products" in data.fields && !Iterable(data.fields["products"]) ==>
      r == Err(NotIterable(TypeName(data.fields["products"])))
  {
    var d :- Entries(data);
    match Get(d, "products", Arr([]))
    case Arr(ps) => Ok(ps)
    case Str(s) => Ok(seq(|s|, i requires 0 <= i < |s| => Str([s[i]])))
    case Obj(m) => if m == map[] then Ok([]) else Err(NoGet("str"))
    case other => Err(NotIterable(TypeName(other)))
  }

  /** When `products` is not a list, what gets iterated are strings, which have
      no `get`: the search then finds nothing or fails on the first of them. */
  lemma NonListProductsNeverNormalize(data: Value, parse: string -> Option<real>)
    requires data.Obj? && "products" in data.fields && !data.fields["products"].Arr?
    requires Products(data).Ok?
    ensures forall i :: 0 <= i < |Products(data).value| ==>
      Normalize(Products(data).value[i], parse) == Err(NoGet("str"))
  {
    var ps := Products(data).value;
    forall i | 0 <= i < |ps| ensures Normalize(ps[i], parse) == Err(NoGet("str")) {
      assert ps[i].Str?;
    }
  }

  /** Product `j` is the first that fails to normalize. */
  predicate FirstFailure(ps: seq<Value>, parse: string -> Option<real>, j: nat)
    requires j < |ps|
  {
    !Normalizes(ps[j], parse) && forall k :: 0 <= k < j ==> Normalizes(ps[k], parse)
  }

  /** `r` is what normalizing the products in order gives: every item, or the
      exception of the first product that fails. */
  predicate NormalizedAll(ps: seq<Value>, parse: string -> Option<real>, r: Result<seq<Item>, Failure>) {
    && (r.Ok? <==> forall j :: 0 <= j < |ps| ==> Normalizes(ps[j], parse))
    && (r.Ok? ==> |r.value| == |ps| && forall j :: 0 <= j < |ps| ==> Ok(r.value[j]) == Normalize(ps[j], parse))
    && (r.Err? ==> exists j :: 0 <= j < |ps| && FirstFailure(ps, parse, j) && Err(r.error) == Normalize(ps[j], parse))
  }

  /** The loop of `search_food` over an already-decoded answer `data`: the
      `results` list of the reply, or the exception that ends the loop. */
  method SearchFood(data: Value, parse: string -> Option<real>) returns (r: Result<seq<Item>, Failure>)
    ensures Products(data).Err? ==> r == Err(Products(data).error)
    ensures Products(data).Ok? ==> NormalizedAll(Products(data).value, parse, r)
  {
    var products := Products(data);
    if products.Err? {
      return Err(products.error);
    }
    var ps := products.value;
    var results: seq<Item> := [];
    for i := 0 to |ps|
      invariant |results| == i
      invariant forall j :: 0 <= j < i ==> Normalizes(ps[j], parse) && Ok(results[j]) == Normalize(ps[j], parse)
    {
      var item := Normalize(ps[i], parse);
      if item.Err? {
        assert FirstFailure(ps, parse, i);
        return Err(item.error);
      }
      results := results + [item.value];
    }
    return Ok(results);
  }

  // ----- Barcode lookup -----

  /** The item answered when the lookup finds no product. */
  const Placeholder := Item(Null, Str("Unknown"), Null, Int(0), 0.0, 0.0, 0.0, Null)

  /** `food_by_barcode` on an already-decoded answer: `data.get("product") or {}` normalized. */
  function FoodByBarcode(data: Value, parse: string -> Option<real>): (r: Result<Item, Failure>)
    ensures !data.Obj? ==> r == Err(NoGet(TypeName(data)))
    ensures data.Obj? && Truthy(Get(data.fields, "product", Null)) ==> r == Normalize(data.fields["product"], parse)
  {
    var d :- Entries(data);
    Normalize(Or(Get(d, "product", Null), Obj(map[])), parse)
  }

  /** A missing, null or empty product gives the placeholder named "Unknown" with no nutrients. */
  lemma MissingProductIsPlaceholder(data: Value, parse: string -> Option<real>)
    requires data.Obj? && !Truthy(Get(data.fields, "product", Null))
    ensures FoodByBarcode(data, parse) == Ok(Placeholder)
  {
    assert Normalizes(Obj(map[]), parse);
  }

  /** With a truthy per-100g energy and no protein, the item has that energy as
      a float and zero protein. */
  lemma EnergyWithoutProtein(p: Document, n: Document, kcal: int, parse: string -> Option<real>)
    requires Nutriments(p) == Obj(n)
    requires "energy-kcal_100g" in n && n["energy-kcal_100g"] == Int(kcal) && kcal != 0
    requires "proteins_100g" !in n
    requires Macro(n, "carbohydrates_100g", parse).Ok? && Macro(n, "fat_100g", parse).Ok?
    ensures Normalize(Obj(p), parse).Ok?
    ensures Normalize(Obj(p), parse).value.calories == Num(kcal as real)
    ensures Normalize(Obj(p), parse).value.protein == 0.0
  {
  }

  /** A zero per-100g energy is falsy, so the per-serving energy is used. */
  lemma ZeroEnergyFallsThrough(n: Document, serving: real, parse: string -> Option<real>)
    requires "energy-kcal_100g" in n && n["energy-kcal_100g"] in {Int(0), Num(0.0)}
    requires "energy-kcal_serving" in n && n["energy-kcal_serving"] == Num(serving)
    ensures Calories(n, parse) == Ok(Num(serving))
  {
  }

  /** The item's name never comes out empty: a normalized item always has a truthy name. */
  lemma NormalizedNameTruthy(p: Value, parse: string -> Option<real>)
    requires Normalize(p, parse).Ok?
    ensures Truthy(Normalize(p, parse).value.name)
  {
  }
}
