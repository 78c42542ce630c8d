/**
 * DetailActivity: the detail screen. Each field setter becomes a map from a
 * field value to what its text view shows. onCreate becomes the list of
 * screen effects it produces.
 */
module DetailActivity {
  import opened Wrappers
  import opened Json
  import opened Model
  import JsonUtils

  /** The value of the position extra when the intent does not carry one. */
  const DefaultPosition: int := -1

  /** The bullet glyph U+2022 put before each displayed value. */
  const Bullet: char := '\U{2022}'

  /** What one text view shows: the `value_not_known` resource, or a text. */
  datatype Display = Placeholder | Text(text: string)

  /** The screen after populateUI: the title and the four detail views (image loading is not modelled). */
  datatype Screen = Screen(
    title: string,
    alsoKnownAs: Display,
    placeOfOrigin: Display,
    description: Display,
    ingredients: Display)

  /** What onCreate does to the screen: close it with the error toast, or populate it. */
  datatype Effect = CloseOnError | Populate(screen: Screen)

  // ---------------------------------------------------------------------------
  // Bulleted lists
  // ---------------------------------------------------------------------------

  /** Each value with a bullet in front, the lines joined by newlines, and no newline after the last line. */
  function BulletJoin(values: seq<string>): string
  {
    if |values| == 0 then ""
    else if |values| == 1 then [Bullet] + values[0]
    else [Bullet] + values[0] + "\n" + BulletJoin(values[1..])
  }

  /** Appending one more value adds a newline and its bulleted line at the end. */
  lemma {:induction false} BulletJoinSnoc(values: seq<string>, v: string)
    requires |values| > 0
    ensures BulletJoin(values + [v]) == BulletJoin(values) + "\n" + [Bullet] + v
  {
    if |values| == 1 {
      assert (values + [v])[1..] == [v];
    } else {
      assert (values + [v])[1..] == values[1..] + [v];
      BulletJoinSnoc(values[1..], v);
    }
  }

  /** The lines of a text, split at every newline (an empty text is one empty line). */
  function Lines(s: string): (r: seq<string>)
    ensures |r| >= 1
  {
    if |s| == 0 then [""]
    else
      var rest := Lines(s[1..]);
      if s[0] == '\n' then [""] + rest else [[s[0]] + rest[0]] + rest[1..]
  }

  /** A text without a newline is a single line. */
  lemma {:induction false} LinesOfOneLine(a: string)
    requires '\n' !in a
    ensures Lines(a) == [a]
  {
    if |a| > 0 {
      assert '\n' !in a[1..] && a[0] != '\n';
      LinesOfOneLine(a[1..]);
      assert [a[0]] + a[1..] == a;
    }
  }

  /** A newline after a text without one ends the first line; the rest are the lines of what follows. */
  lemma {:induction false} LinesAfterLine(a: string, b: string)
    requires '\n' !in a
    ensures Lines(a + "\n" + b) == [a] + Lines(b)
  {
    if |a| == 0 {
      assert (a + "\n" + b)[1..] == b;
    } else {
      assert (a + "\n" + b)[1..] == a[1..] + "\n" + b;
      assert '\n' !in a[1..] && (a + "\n" + b)[0] == a[0] != '\n';
      LinesAfterLine(a[1..], b);
      assert [a[0]] + a[1..] == a;
    }
  }

  /** The lines the list views are meant to show: one bulleted line per value. */
  function Bulleted(values: seq<string>): (r: seq<string>)
    ensures |r| == |values|
  {
    seq(|values|, i requires 0 <= i < |values| => [Bullet] + values[i])
  }

  /**
   * When no value holds a newline itself, the bullet-joined text splits
   * back into exactly one bulleted line per value, in order. So there is no
   * trailing empty line.
   */
  lemma {:induction false} BulletJoinLines(values: seq<string>)
    requires |values| > 0
    ensures (forall i :: 0 <= i < |values| ==> '\n' !in values[i]) ==>
      Lines(BulletJoin(values)) == Bulleted(values)
  {
    if forall i :: 0 <= i < |values| ==> '\n' !in values[i] {
      assert '\n' !in [Bullet] + values[0];
      if |values| == 1 {
        LinesOfOneLine([Bullet] + values[0]);
      } else {
        LinesAfterLine([Bullet] + values[0], BulletJoin(values[1..]));
        BulletJoinLines(values[1..]);
        assert Bulleted(values) == [[Bullet] + values[0]] + Bulleted(values[1..]);
      }
    }
  }

  /**
   * The StringBuilder loop shared by setAlsoKnownAs and setIngredients. It
   * appends bullet, value and newline for each value, then drops the last
   * character. The list is non-empty, so the builder ends in the newline that the last
   * iteration appended, and the drop removes exactly that newline.
   */
  method BuildBulletText(values: seq<string>) returns (text: string)
    requires |values| > 0
    ensures text == BulletJoin(values)
  {
    var sb: string := "";
    for i := 0 to |values|
      invariant i == 0 ==> sb == ""
      invariant i > 0 ==> sb == BulletJoin(values[..i]) + "\n"
    {
      if i > 0 {
        BulletJoinSnoc(values[..i], values[i]);
      }
      assert values[..i + 1] == values[..i] + [values[i]];
      sb := sb + [Bullet];
      sb := sb + values[i];
      sb := sb + "\n";
    }
    assert values[..|values|] == values;
    // setLength(length() - 1): removes the newline after the last value
    sb := sb[..|sb| - 1];
    text := sb;
  }

  /**
   * What a list view shows: the placeholder for a null or empty list, else the
   * bullet join, which is one bulleted line per value when no value holds a newline.
   */
  function ListDisplay(values: Option<seq<string>>): (d: Display)
    ensures d == Placeholder <==> values.None? || |values.value| == 0
    ensures d.Text? ==> |d.text| > 0 && d.text[0] == Bullet
    ensures d.Text? && (forall i :: 0 <= i < |values.value| ==> '\n' !in values.value[i]) ==>
      Lines(d.text) == Bulleted(values.value)
  {
    if values.None? || |values.value| == 0 then Placeholder
    else
      BulletJoinLines(values.value);
      Text(BulletJoin(values.value))
  }

  /** What the place-of-origin view shows: the placeholder for a null or empty value, else a bullet then the value. */
  function OriginDisplay(value: Option<string>): (d: Display)
    ensures d == Placeholder <==> value.None? || |value.value| == 0
    ensures d.Text? ==> |d.text| == |value.value| + 1 && d.text[0] == Bullet && d.text[1..] == value.value
  {
    if value.None? || |value.value| == 0 then Placeholder else Text([Bullet] + value.value)
  }

  /** What the description view shows: the placeholder for a null or empty value, else the value verbatim. */
  function DescriptionDisplay(value: Option<string>): (d: Display)
    ensures d == Placeholder <==> value.None? || |value.value| == 0
    ensures d.Text? ==> d.text == value.value && |d.text| > 0
  {
    if value.None? || |value.value| == 0 then Placeholder else Text(value.value)
  }

  // ---------------------------------------------------------------------------
  // The setters. Each reads a field, writes the same value back to the record,
  // and sets its text view.
  // ---------------------------------------------------------------------------

  method SetAlsoKnownAs(sandwich: Sandwich) returns (shown: Display, after: Sandwich)
    ensures shown == ListDisplay(sandwich.alsoKnownAs)
    ensures after == sandwich
  {
    var values := sandwich.alsoKnownAs;
    after := sandwich;
    if values.None? || |values.value| == 0 {
      shown := Placeholder;
    } else {
      after := after.(alsoKnownAs := values);
      var text := BuildBulletText(values.value);
      shown := Text(text);
    }
  }

  method SetPlaceOfOrigin(sandwich: Sandwich) returns (shown: Display, after: Sandwich)
    ensures shown == OriginDisplay(sandwich.placeOfOrigin)
    ensures after == sandwich
  {
    var value := sandwich.placeOfOrigin;
    after := sandwich;
    if value.None? || |value.value| == 0 {
      shown := Placeholder;
    } else {
      after := after.(placeOfOrigin := value);
      shown := Text([Bullet] + value.value);
    }
  }

  method SetDescription(sandwich: Sandwich) returns (shown: Display, after: Sandwich)
    ensures shown == DescriptionDisplay(sandwich.description)
    ensures after == sandwich
  {
    var value := sandwich.description;
    after := sandwich;
    if value.None? || |value.value| == 0 {
      shown := Placeholder;
    } else {
      after := after.(description := value);
      shown := Text(value.value);
    }
  }

  method SetIngredients(sandwich: Sandwich) returns (shown: Display, after: Sandwich)
    ensures shown == ListDisplay(sandwich.ingredients)
    ensures after == sandwich
  {
    var values := sandwich.ingredients;
    after := sandwich;
    if values.None? || |values.value| == 0 {
      shown := Placeholder;
    } else {
      after := after.(ingredients := values);
      var text := BuildBulletText(values.value);
      shown := Text(text);
    }
  }

  /** The screen that populateUI produces for a record. */
  function ScreenOf(sandwich: Sandwich): Screen
  {
    Screen(
      sandwich.mainName,
      ListDisplay(sandwich.alsoKnownAs),
      OriginDisplay(sandwich.placeOfOrigin),
      DescriptionDisplay(sandwich.description),
      ListDisplay(sandwich.ingredients))
  }

  /** populateUI: the title is the main name verbatim, each view is its setter's output, and the record is unchanged. */
  method PopulateUI(sandwich: Sandwich) returns (screen: Screen, after: Sandwich)
    ensures screen == ScreenOf(sandwich)
    ensures screen.title == sandwich.mainName
    ensures after == sandwich
  {
    var title := sandwich.mainName;
    var alsoKnownAs, placeOfOrigin, description, ingredients;
    alsoKnownAs, after := SetAlsoKnownAs(sandwich);
    placeOfOrigin, after := SetPlaceOfOrigin(after);
    description, after := SetDescription(after);
    ingredients, after := SetIngredients(after);
    screen := Screen(title, alsoKnownAs, placeOfOrigin, description, ingredients);
  }

  /**
   * onCreate, given the position extra (DefaultPosition when absent) and the
   * bundled JSON texts. A missing position or a failed parse closes the screen
   * with an error. Otherwise the screen is populated once.
   */
  method OnCreate(position: int, sandwiches: seq<string>, decode: string -> Option<JValue>)
    returns (effects: seq<Effect>)
    requires position == DefaultPosition || 0 <= position < |sandwiches|
    ensures position == DefaultPosition ==> effects == [CloseOnError]
    ensures position != DefaultPosition ==>
      var parsed := JsonUtils.ParseSandwich(Some(sandwiches[position]), decode);
      effects == if parsed.None? then [CloseOnError] else [Populate(ScreenOf(parsed.value))]
  {
    if position == DefaultPosition {
      effects := [CloseOnError];
      return;
    }
    var json := sandwiches[position];
    var sandwich := JsonUtils.ParseSandwichJson(Some(json), decode);
    if sandwich.None? {
      effects := [CloseOnError];
      return;
    }
    var screen, _ := PopulateUI(sandwich.value);
    effects := [Populate(screen)];
  }
}
