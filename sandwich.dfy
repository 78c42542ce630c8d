/**
 * The sandwich record built by the parser and shown by the detail screen.
 * The four fields the detail screen tests for null are Options (None is
 * Java's null); the parser always fills them.
 */
module Model {
  import opened Wrappers

  datatype Sandwich = Sandwich(
    mainName: string,
    alsoKnownAs: Option<seq<string>>,
    placeOfOrigin: Option<string>,
    description: Option<string>,
    image: string,
    ingredients: Option<seq<string>>)
}
