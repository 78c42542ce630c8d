/**
 * JsonUtils.parseSandwichJson: reads one sandwich record out of a JSON text.
 * The input must be non-empty, and every lookup must succeed. If any lookup
 * fails, the whole call yields None, so no part of a record is ever returned.
 */
module JsonUtils {
  import opened Wrappers
  import opened Json
  import opened Model

  const Name := "name"
  const MainName := "mainName"
  const Image := "image"
  const AlsoKnownAs := "alsoKnownAs"
  const PlaceOfOrigin := "placeOfOrigin"
  const Description := "description"
  const Ingredients := "ingredients"

  /**
   * The strings of a JSON array, read with `getString(i)` for each index in
   * order. It fails when some element is not a string.
   */
  function StringsOf(items: seq<JValue>): (r: Option<seq<string>>)
    ensures r.Some? <==> AllStrings(items)
    ensures r.Some? ==> CopiesStrings(r, items)
  {
    if |items| == 0 then Some([])
    else
      var init :- StringsOf(items[..|items| - 1]);
      var last :- ArrayGetString(items, |items| - 1);
      Some(init + [last])
  }

  /**
   * The try block as a chain of failing lookups, in the parser's order. The
   * record comes back exactly when every lookup succeeds (all or nothing).
   */
  function SandwichFromObject(top: map<string, JValue>): (r: Option<Sandwich>)
    ensures r.Some? <==> MatchesSchema(top)
  {
    var name :- GetJSONObject(top, Name);
    var mainName :- GetString(name, MainName);
    var image :- GetString(top, Image);
    var alsoKnownAsItems :- GetJSONArray(name, AlsoKnownAs);
    var alsoKnownAs :- StringsOf(alsoKnownAsItems);
    var placeOfOrigin :- GetString(top, PlaceOfOrigin);
    var description :- GetString(top, Description);
    var ingredientsItems :- GetJSONArray(top, Ingredients);
    var ingredients :- StringsOf(ingredientsItems);
    Some(Sandwich(mainName, Some(alsoKnownAs), Some(placeOfOrigin), Some(description), image, Some(ingredients)))
  }

  /** What parseSandwichJson computes: None for a null or empty text, else the record read from the decoded object. */
  function ParseSandwich(json: Option<string>, decode: string -> Option<JValue>): Option<Sandwich>
  {
    if json.None? || |json.value| == 0 then None
    else
      var top :- NewJSONObject(json.value, decode);
      SandwichFromObject(top)
  }

  /**
   * The method itself: the emptiness test, the lookups, the two copy loops,
   * and the record built at the end. A lookup that fails returns None at
   * once, as the JSONException handler does.
   */
  method ParseSandwichJson(json: Option<string>, decode: string -> Option<JValue>) returns (sandwich: Option<Sandwich>)
    ensures sandwich == ParseSandwich(json, decode)
  {
    if json.None? || |json.value| == 0 {
      return None;
    }
    var top :- NewJSONObject(json.value, decode);
    var name :- GetJSONObject(top, Name);
    var mainName :- GetString(name, MainName);
    var image :- GetString(top, Image);

    var alsoKnownAsArray :- GetJSONArray(name, AlsoKnownAs);
    var alsoKnownAs: seq<string> := [];
    for i := 0 to |alsoKnownAsArray|
      invariant StringsOf(alsoKnownAsArray[..i]) == Some(alsoKnownAs)
    {
      var item :- ArrayGetString(alsoKnownAsArray, i);
      assert alsoKnownAsArray[..i + 1][..i] == alsoKnownAsArray[..i];
      alsoKnownAs := alsoKnownAs + [item];
    }
    assert alsoKnownAsArray[..|alsoKnownAsArray|] == alsoKnownAsArray;

    var placeOfOrigin :- GetString(top, PlaceOfOrigin);
    var description :- GetString(top, Description);

    var ingredientsArray :- GetJSONArray(top, Ingredients);
    var ingredients: seq<string> := [];
    for i := 0 to |ingredientsArray|
      invariant StringsOf(ingredientsArray[..i]) == Some(ingredients)
    {
      var item :- ArrayGetString(ingredientsArray, i);
      assert ingredientsArray[..i + 1][..i] == ingredientsArray[..i];
      ingredients := ingredients + [item];
    }
    assert ingredientsArray[..|ingredientsArray|] == ingredientsArray;

    sandwich := Some(Sandwich(mainName, Some(alsoKnownAs), Some(placeOfOrigin), Some(description), image, Some(ingredients)));
  }

  /** Every element of a JSON array is a string. */
  predicate AllStrings(items: seq<JValue>)
  {
    forall i :: 0 <= i < |items| ==> items[i].JString?
  }

  /** `out` holds exactly the strings of `items`: same length, element i at position i. */
  predicate CopiesStrings(out: Option<seq<string>>, items: seq<JValue>)
  {
    AllStrings(items) && out.Some? && |out.value| == |items|
    && forall i :: 0 <= i < |items| ==> out.value[i] == items[i].str
  }

  /** The name object holds a string `mainName`. */
  predicate HasMainName(top: map<string, JValue>)
  {
    Name in top && top[Name].JObject?
    && MainName in top[Name].fields && top[Name].fields[MainName].JString?
  }

  /** The schema the parser expects, stated key by key. */
  predicate MatchesSchema(top: map<string, JValue>)
  {
    HasMainName(top)
    && AlsoKnownAs in top[Name].fields && top[Name].fields[AlsoKnownAs].JArray?
    && AllStrings(top[Name].fields[AlsoKnownAs].items)
    && Image in top && top[Image].JString?
    && PlaceOfOrigin in top && top[PlaceOfOrigin].JString?
    && Description in top && top[Description].JString?
    && Ingredients in top && top[Ingredients].JArray?
    && AllStrings(top[Ingredients].items)
  }

  /** On success, each field of the record is the value read from its own key; both arrays are copied in order. */
  lemma RecordFields(top: map<string, JValue>)
    requires SandwichFromObject(top).Some?
    ensures MatchesSchema(top)
    ensures var s := SandwichFromObject(top).value;
      var name := top[Name].fields;
      && s.mainName == name[MainName].str
      && CopiesStrings(s.alsoKnownAs, name[AlsoKnownAs].items)
      && s.placeOfOrigin == Some(top[PlaceOfOrigin].str)
      && s.description == Some(top[Description].str)
      && s.image == top[Image].str
      && CopiesStrings(s.ingredients, top[Ingredients].items)
  {
  }

  /** A null or empty text yields no record, whatever the decoder. */
  lemma EmptyInputRejected(decode: string -> Option<JValue>)
    ensures ParseSandwich(None, decode) == None
    ensures ParseSandwich(Some(""), decode) == None
  {
  }

  /** A missing or non-object `name`, or a missing or non-string `mainName`, yields no record. */
  lemma MainNameRequired(top: map<string, JValue>)
    requires !HasMainName(top)
    ensures SandwichFromObject(top) == None
  {
  }

  /** A missing `image`, `placeOfOrigin`, `description`, `ingredients` or `name.alsoKnownAs` yields no record. */
  lemma OtherFieldsRequired(top: map<string, JValue>)
    requires Image !in top || PlaceOfOrigin !in top || Description !in top || Ingredients !in top
      || (Name in top && top[Name].JObject? && AlsoKnownAs !in top[Name].fields)
    ensures SandwichFromObject(top) == None
  {
  }

  /** The whole parse: a record exactly for a non-empty text that decodes to an object matching the schema. */
  lemma ParseSucceedsIff(json: Option<string>, decode: string -> Option<JValue>)
    ensures ParseSandwich(json, decode).Some? <==>
      json.Some? && json.value != "" && NewJSONObject(json.value, decode).Some?
      && MatchesSchema(NewJSONObject(json.value, decode).value)
  {
  }
}
