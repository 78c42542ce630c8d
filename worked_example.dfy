/** A worked example: one bundled record, parsed and then shown. */
module Examples {
  import opened Wrappers
  import opened Json
  import opened Model
  import JsonUtils
  import opened DetailActivity

  function CubanName(): map<string, JValue>
  {
    map["mainName" := JString("Cuban"), "alsoKnownAs" := JArray([])]
  }

  function CubanJson(): map<string, JValue>
  {
    map[
      "name" := JObject(CubanName()),
      "image" := JString("http://x/y.png"),
      "placeOfOrigin" := JString("Cuba"),
      "description" := JString("Grilled"),
      "ingredients" := JArray([JString("Ham"), JString("Cheese")])]
  }

  function Cuban(): Sandwich
  {
    Sandwich("Cuban", Some([]), Some("Cuba"), Some("Grilled"), "http://x/y.png", Some(["Ham", "Cheese"]))
  }

  /** The record is read back field for field. */
  lemma {:induction false} CubanParsed()
    ensures JsonUtils.SandwichFromObject(CubanJson()) == Some(Cuban())
  {
    var top := CubanJson();
    assert GetJSONObject(top, "name") == Some(CubanName());
    assert GetString(CubanName(), "mainName") == Some("Cuban");
    assert GetString(top, "image") == Some("http://x/y.png");
    assert GetJSONArray(CubanName(), "alsoKnownAs") == Some([]);
    assert GetString(top, "placeOfOrigin") == Some("Cuba");
    assert GetString(top, "description") == Some("Grilled");
    var items := [JString("Ham"), JString("Cheese")];
    assert GetJSONArray(top, "ingredients") == Some(items);
    var copied := JsonUtils.StringsOf(items);
    assert copied.Some? && copied.value[0] == "Ham" && copied.value[1] == "Cheese";
    assert copied.value == ["Ham", "Cheese"];
  }

  /** The record is shown with the placeholder, the bullets and the inner newline as designed. */
  lemma {:induction false} CubanShown()
    ensures ScreenOf(Cuban()) ==
      Screen("Cuban", Placeholder, Text("\U{2022}Cuba"), Text("Grilled"), Text("\U{2022}Ham\n\U{2022}Cheese"))
  {
    assert BulletJoin(["Cheese"]) == "\U{2022}Cheese";
    assert BulletJoin(["Ham", "Cheese"]) == "\U{2022}Ham\n\U{2022}Cheese";
  }
}
