# Sandwich Club detail screen — a Dafny model

This project models the two pieces of logic in the Sandwich Club detail
screen, and proves properties of them.

- **The sandwich parser** (`JsonUtils.parseSandwichJson`). It rejects a
  null or empty JSON text. Otherwise it reads a decoded JSON object in a fixed
  order: `name.mainName`, `image`, `name.alsoKnownAs`, `placeOfOrigin`,
  `description` and `ingredients`. It copies both arrays element by element
  and builds a `Sandwich`. If any lookup fails (the `JSONException` path), the
  whole call returns null, modelled as `None`.
- **The detail presenter** (`DetailActivity`). Each field setter maps a field
  value to what its text view shows: the `value_not_known` placeholder, or a
  text. The two list setters build a bulleted text in a `StringBuilder` loop
  and then drop its last character. `populateUI` sets the title and the four
  views. `onCreate` shows an error for a missing position or a failed parse,
  and otherwise populates the screen.

Files:

- `wrappers.dfy` (module `Wrappers`): `Option`. It stands for Java's null and
  for lookups that throw.
- `json.dfy` (module `Json`): the decoded JSON value, and the org.json lookups
  `new JSONObject`, `getJSONObject`, `getJSONArray`, `getString` and
  `JSONArray.getString`, each one able to fail.
- `sandwich.dfy` (module `Model`): the `Sandwich` record, with the six fields
  of the constructor call at JsonUtils.java line 73, in the same order.
- `json_utils.dfy` (module `JsonUtils`): these pieces:
  - the parser as a method with its two copy loops;
  - the pure function `ParseSandwich` it is proved equal to;
  - a key-by-key statement of the schema (`MatchesSchema`), which the lookup
    chain `SandwichFromObject` is proved to succeed on exactly;
  - lemmas about that function and the schema.
- `detail_activity.dfy` (module `DetailActivity`): the bullet join, the
  builder loop, the field formatters, the setters, `populateUI` and
  `onCreate`.
- `worked_example.dfy` (module `Examples`): one worked record, parsed and then shown.

Modelling decisions:

- The five functions of module `Json` (`NewJSONObject`, `GetJSONObject`,
  `GetString`, `GetJSONArray`, `ArrayGetString`) are this model's definitions
  of the org.json calls. Their contracts state the behaviour the model
  assumes for those calls; they are not properties proved about the app.

- The JSON text decoder (org.json's `new JSONObject(String)`) is a parameter
  `decode: string -> Option<JValue>`. `new JSONObject` succeeds only when the
  decoded value is an object.
- The four fields the presenter tests for null are `Option`s in `Sandwich`:
  `alsoKnownAs`, `placeOfOrigin`, `description` and `ingredients`. The parser
  always fills them with `Some`.
- Each setter writes the value it has just read back into the record. With an
  immutable record this is a setter that returns the record after the write.
  Each setter is proved to return the record unchanged.
- `onCreate` takes the position extra (`DefaultPosition`, -1, when it is
  absent) and the bundled JSON texts as an explicit `seq<string>`. It returns
  the screen effects it performs: `[CloseOnError]` or `[Populate(screen)]`.
  `closeOnError` (finish plus toast) is the single effect `CloseOnError`.
- `onCreate` is a method, not a function, because it calls the parser method
  and the setter methods. Its contract states the three-way decision in terms
  of the pure parse function.

## Model

| member | source | states |
|---|---|---|
| Json.NewJSONObject | app/src/main/java/com/udacity/sandwichclub/utils/JsonUtils.java:42 | `new JSONObject(json)` succeeds if and only if the decoder yields an object, and then gives that object's fields. |
| Json.GetJSONObject | app/src/main/java/com/udacity/sandwichclub/utils/JsonUtils.java:43 | `getJSONObject(key)` succeeds if and only if the key is present and holds an object, and then gives that object's fields. |
| Json.GetString | app/src/main/java/com/udacity/sandwichclub/utils/JsonUtils.java:46 | `getString(key)` (also at lines 49, 60 and 63) succeeds if and only if the key is present and holds a JSON string, and then gives that string. This is stricter than org.json, which turns other values into text (see "Left out"). |
| Json.GetJSONArray | app/src/main/java/com/udacity/sandwichclub/utils/JsonUtils.java:52 | `getJSONArray(key)` (also at line 66) succeeds if and only if the key is present and holds an array, and then gives its elements. |
| Json.ArrayGetString | app/src/main/java/com/udacity/sandwichclub/utils/JsonUtils.java:56 | `JSONArray.getString(i)` (also at line 70) succeeds if and only if the index is in range and the element is a JSON string, and then gives that string. This is stricter than org.json, which turns other elements into text (see "Left out"). |
| JsonUtils.StringsOf | app/src/main/java/com/udacity/sandwichclub/utils/JsonUtils.java:54-57 | A JSON array's strings are copied with `getString(i)`, and the copy succeeds exactly when every element is a string. The copy then has the array's length and holds element i at position i, so order and duplicates are kept. The loop at lines 68-71 has the same semantics. This is stricter than org.json, which turns a non-string element into its text (see "Left out"). |
| JsonUtils.ParseSandwichJson | app/src/main/java/com/udacity/sandwichclub/utils/JsonUtils.java:30-81 | The method's result, built by sequential lookups, two copy loops and an early return on the first failure, is exactly `ParseSandwich(json, decode)`. |
| JsonUtils.SandwichFromObject | app/src/main/java/com/udacity/sandwichclub/utils/JsonUtils.java:42-73 | The try block as a chain of failing lookups. A record comes back if and only if every lookup succeeds (all or nothing), that is, exactly when the object matches the schema key by key. `name` is an object with a string `mainName` and a string array `alsoKnownAs`. `image`, `placeOfOrigin` and `description` are strings. `ingredients` is a string array. |
| JsonUtils.RecordFields | app/src/main/java/com/udacity/sandwichclub/utils/JsonUtils.java:46-73 | On success, each record field is the value of its own key, including `image` in the fifth constructor slot. Both arrays are exact in-order copies. |
| JsonUtils.EmptyInputRejected | app/src/main/java/com/udacity/sandwichclub/utils/JsonUtils.java:33-36 | A null or empty text yields no record, whatever the decoder does. |
| JsonUtils.MainNameRequired | app/src/main/java/com/udacity/sandwichclub/utils/JsonUtils.java:43-46 | With `name` missing or not an object, or without a string `mainName`, there is no record. |
| JsonUtils.OtherFieldsRequired | app/src/main/java/com/udacity/sandwichclub/utils/JsonUtils.java:49-66 | With `image`, `placeOfOrigin`, `description` or `ingredients` missing at the top level, or `alsoKnownAs` missing under `name`, there is no record. |
| JsonUtils.ParseSucceedsIff | app/src/main/java/com/udacity/sandwichclub/utils/JsonUtils.java:30-81 | The whole parse yields a record if and only if these hold: the text is non-null and non-empty, it decodes to an object, and that object matches the schema. |
| DetailActivity.BulletJoinSnoc | app/src/main/java/com/udacity/sandwichclub/DetailActivity.java:119-122 | Adding one more value to a non-empty list appends a newline and that value's bulleted line to the joined text. This is the step one loop iteration makes. |
| DetailActivity.BulletJoinLines | app/src/main/java/com/udacity/sandwichclub/DetailActivity.java:118-125 | A non-empty list whose values hold no newline has a joined text that splits at its newlines into exactly one line `"•" + v` per value, in order. So there is no trailing newline. |
| DetailActivity.BuildBulletText | app/src/main/java/com/udacity/sandwichclub/DetailActivity.java:118-124 | The builder loop that appends `"•" + v + "\n"` per value, followed by `setLength(length - 1)`, equals the bullet join with no trailing newline. The list is non-empty, so the builder ends in the newline that the last iteration appended, and the cut removes exactly that newline. |
| DetailActivity.ListDisplay | app/src/main/java/com/udacity/sandwichclub/DetailActivity.java:111-125 | A list view shows the placeholder if and only if the list is null or empty. Otherwise the text starts with a bullet and, when no value holds a newline, splits into exactly one bulleted line per value. A value that contains a newline shows as several lines. |
| DetailActivity.OriginDisplay | app/src/main/java/com/udacity/sandwichclub/DetailActivity.java:137-144 | The origin view shows the placeholder if and only if the value is null or empty. Otherwise it shows exactly a bullet followed by the value. |
| DetailActivity.DescriptionDisplay | app/src/main/java/com/udacity/sandwichclub/DetailActivity.java:156-163 | The description view shows the placeholder if and only if the value is null or empty. Otherwise it shows the value verbatim, with no bullet. |
| DetailActivity.SetAlsoKnownAs | app/src/main/java/com/udacity/sandwichclub/DetailActivity.java:107-127 | Shows `ListDisplay` of the `alsoKnownAs` field. Writing the value back leaves the record unchanged (line 117). |
| DetailActivity.SetPlaceOfOrigin | app/src/main/java/com/udacity/sandwichclub/DetailActivity.java:133-146 | Shows `OriginDisplay` of the field. Writing the value back leaves the record unchanged (line 143). |
| DetailActivity.SetDescription | app/src/main/java/com/udacity/sandwichclub/DetailActivity.java:152-165 | Shows `DescriptionDisplay` of the field. Writing the value back leaves the record unchanged (line 162). |
| DetailActivity.SetIngredients | app/src/main/java/com/udacity/sandwichclub/DetailActivity.java:171-193 | Shows `ListDisplay` of the `ingredients` field. Writing the value back leaves the record unchanged (line 181). |
| DetailActivity.PopulateUI | app/src/main/java/com/udacity/sandwichclub/DetailActivity.java:66-85 | The title is `mainName` verbatim, and each view shows its formatter's output. The record is unchanged after all four setters. |
| DetailActivity.OnCreate | app/src/main/java/com/udacity/sandwichclub/DetailActivity.java:33-51 | Position -1 gives `[CloseOnError]` and nothing is populated. A parse that yields no record also gives `[CloseOnError]`. Otherwise the screen is populated exactly once, with the screen of the parsed record. |
| Examples.CubanParsed | app/src/main/java/com/udacity/sandwichclub/utils/JsonUtils.java:42-73 | A concrete object with an empty `alsoKnownAs` and two ingredients parses to the record holding exactly those values. |
| Examples.CubanShown | app/src/main/java/com/udacity/sandwichclub/DetailActivity.java:66-85 | That record is shown as title `Cuban`, placeholder, `"•Cuba"`, `"Grilled"` and `"•Ham\n•Cheese"`. |

## Left out

- JSON text decoding: org.json's decoder for JSON text (RFC 8259) is a library, so it is the parameter `decode`. Numbers are held as `int`, but the parser never reads them.
- Json.GetString, Json.ArrayGetString: do not model org.json's coercion in `JSONObject.getString` and `JSONArray.getString`. Android's versions turn a non-null non-string value into its text. In the model, both succeed only on a JSON string. For example, `"image": 5` fails here but would parse in the app. Likewise `"alsoKnownAs": ["a", 1]` makes the whole record `None` here, while the app copies `["a", "1"]` and shows `"•a\n•1"`.
- Logging: the `Log.e` calls (JsonUtils.java lines 34 and 77) have no behaviour to model.
- Android lifecycle and resources are not modelled: `Intent`/`Bundle`, `getResources().getStringArray`, `R.string`/`R.layout` ids, `finish()`, `Toast`, `findViewById` and the `TextView.setText` side effects. The placeholder is the constructor `Placeholder`, not the resource text.
- Image loading: `setImage` and Picasso (DetailActivity.java lines 91-101) are a foreign, asynchronous library. The screen model has no image view, and `populateUI`'s call to `setImage` is not modelled.
- DetailActivity.OnCreate: does not model the intent and assumes it is non-null, because the `intent == null` branch (lines 29-31) does not return and would reach a null dereference at line 33. The method takes the position extra directly.
- DetailActivity.OnCreate: requires the position to be -1 or a valid index, because `sandwiches[position]` (line 42) has no bounds check. An out-of-range position would throw in the app.
- `Sandwich` (model/Sandwich.java) is modelled as an immutable datatype with the six constructor fields; its getters and setters are field reads and record updates.
- Strings are sequences of Unicode scalar values (Dafny `char`), while Java strings are UTF-16. A lone surrogate, such as one a JSON `"\ud800"` escape produces, cannot be represented. No behaviour of the core depends on this: it only tests emptiness, concatenates, and cuts a final newline.
