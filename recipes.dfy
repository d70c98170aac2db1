/**
 * The recipe-generation adapter (`RecipeGenerator`): extracting and validating a `Recipe` from
 * the model's reply, and rendering a recipe as the message shown to the user. The chat-completion
 * request is an oracle whose outcome is the `reply` parameter (None when the request failed);
 * `json.Unmarshal` into `Recipe` is the opaque `decode` parameter.
 */
module Recipes {
  import opened Wrappers
  import opened GoStrings
  import opened StructuredOutput

  /** A generated recipe, as decoded (fields the object lacks are empty). */
  datatype Recipe = Recipe(title: string, ingredients: seq<string>, instructions: string)

  /** The validation GenerateRecipe applies: a title, an ingredient and instructions. */
  predicate Complete(recipe: Recipe) {
    recipe.title != "" && |recipe.ingredients| > 0 && recipe.instructions != ""
  }

  /** Why generation failed: the request, no candidate object, `json.Unmarshal`, or validation. */
  datatype GenerateError = RequestFailed | NoJson | DecodeFailed | Incomplete

  /**
   * GenerateRecipe after the request. A returned recipe is complete and is the decoder's value
   * for the reply's candidate object, unchanged; there is no fallback when the reply has none.
   */
  function GenerateRecipe(reply: Option<string>, decode: string -> Option<Recipe>)
    : (r: Result<Recipe, GenerateError>)
    ensures r.Ok? ==> Complete(r.value)
    ensures r.Ok? ==> reply.Some? && JsonRegion(reply.value).Some?
                      && decode(JsonRegion(reply.value).value) == Some(r.value)
    ensures reply.Some? && !HasBracePair(reply.value) ==> r == Err(NoJson)
  {
    match reply
    case None => Err(RequestFailed)
    case Some(content) =>
      match JsonRegion(content)
      case None => Err(NoJson)
      case Some(json) =>
        match decode(json)
        case None => Err(DecodeFailed)
        case Some(recipe) => if Complete(recipe) then Ok(recipe) else Err(Incomplete)
  }

  /**
   * The text decoded is the reply from its first '{' to its last '}', both included; the reply
   * is accepted exactly when that decodes to a complete recipe, which is then returned as is.
   */
  lemma GenerateDecodesRegion(content: string, decode: string -> Option<Recipe>, i: int, j: int)
    requires 0 <= i < j < |content|
    requires content[i] == '{' && '{' !in content[..i]
    requires content[j] == '}' && '}' !in content[j + 1..]
    ensures GenerateRecipe(Some(content), decode).Ok? <==>
      decode(content[i..j + 1]).Some? && Complete(decode(content[i..j + 1]).value)
    ensures GenerateRecipe(Some(content), decode).Ok? ==>
      GenerateRecipe(Some(content), decode).value == decode(content[i..j + 1]).value
  {
    JsonRegionIsFirstToLast(content, i, j);
  }

  /** A decoded recipe lacking any one of its three fields is rejected whole. */
  lemma IncompleteRejected(content: string, decode: string -> Option<Recipe>)
    requires JsonRegion(content).Some?
    requires decode(JsonRegion(content).value).Some?
    requires var d := decode(JsonRegion(content).value).value;
      d.title == "" || d.ingredients == [] || d.instructions == ""
    ensures GenerateRecipe(Some(content), decode) == Err(Incomplete)
  {
  }

  // ---------------------------------------------------------------------------------------------
  // Rendering

  /** The numbered line `fmt.Sprintf("%d. %s\n", n, item)`. */
  function NumberedLine(n: int, item: string): string {
    Itoa(n) + ". " + item + "\n"
  }

  /** `items` as numbered lines, the first numbered `first`, in list order. */
  function NumberedFrom(items: seq<string>, first: int): string {
    if items == [] then "" else NumberedLine(first, items[0]) + NumberedFrom(items[1..], first + 1)
  }

  /** The lines of two lists one after the other are those of the joined list, numbering carried on. */
  lemma {:induction false} NumberedFromConcat(a: seq<string>, b: seq<string>, first: int)
    ensures NumberedFrom(a + b, first) == NumberedFrom(a, first) + NumberedFrom(b, first + |a|)
    decreases |a|
  {
    if a == [] {
      assert a + b == b;
    } else {
      assert (a + b)[0] == a[0] && (a + b)[1..] == a[1..] + b;
      NumberedFromConcat(a[1..], b, first + 1);
    }
  }

  /** A single item is the one line numbered `first`. */
  lemma NumberedFromSingle(item: string, first: int)
    ensures NumberedFrom([item], first) == NumberedLine(first, item)
  {
    assert [item][1..] == [];
  }

  /** Adding an item to the list adds its line, numbered after the others, at the end. */
  lemma NumberedFromAppend(items: seq<string>, item: string, first: int)
    ensures NumberedFrom(items + [item], first) == NumberedFrom(items, first) + NumberedLine(first + |items|, item)
  {
    NumberedFromConcat(items, [item], first);
    NumberedFromSingle(item, first + |items|);
  }

  /**
   * The item at (0-based) position `i` is rendered as the line numbered `i + 1`, after the lines
   * of the items before it and before the lines of the items after it.
   */
  lemma NumberedLineAt(items: seq<string>, i: int, first: int)
    requires 0 <= i < |items|
    ensures NumberedFrom(items, first) ==
      NumberedFrom(items[..i], first) + NumberedLine(first + i, items[i]) + NumberedFrom(items[i + 1..], first + i + 1)
  {
    var before, item, after := items[..i], items[i], items[i + 1..];
    assert items == before + ([item] + after);
    NumberedFromConcat(before, [item] + after, first);
    NumberedFromConcat([item], after, first + i);
    NumberedFromSingle(item, first + i);
    var a, b, c := NumberedFrom(before, first), NumberedLine(first + i, item), NumberedFrom(after, first + i + 1);
    ConcatAssoc(a, b, c);
  }

  /** Joining strings does not depend on grouping. */
  lemma ConcatAssoc(a: string, b: string, c: string)
    ensures a + (b + c) == a + b + c
  {
  }

  /** Items without line breaks give exactly one line per item. */
  lemma {:induction false} NumberedLineCount(items: seq<string>, first: int)
    requires forall k :: 0 <= k < |items| ==> '\n' !in items[k]
    ensures Count(NumberedFrom(items, first), '\n') == |items|
  {
    if items != [] {
      var digits := Itoa(first) + ". " + items[0];
      assert '\n' !in Itoa(first) by {
        if first < 0 { assert Itoa(first)[1..] == Digits(-first); }
      }
      assert '\n' !in digits;
      CountAbsent(digits, '\n');
      CountAppend(digits, "\n", '\n');
      assert Count("\n", '\n') == 1 by { assert "\n"[..0] == ""; }
      NumberedLineCount(items[1..], first + 1);
      CountAppend(NumberedLine(first, items[0]), NumberedFrom(items[1..], first + 1), '\n');
    }
  }

  const TitleOpen: string := "🍳 *"
  const TitleClose: string := "*\n\n"
  const IngredientsHeader: string := "*Ингредиенты:*\n"
  const InstructionsHeader: string := "\n*Инструкции по приготовлению:*\n"

  /**
   * The message FormatRecipe builds: the title line, the ingredients header, one numbered line
   * per ingredient from 1 in list order, then the instructions header and the instructions.
   */
  function Rendered(recipe: Recipe): string {
    TitleOpen + recipe.title + TitleClose + IngredientsHeader
    + NumberedFrom(recipe.ingredients, 1) + InstructionsHeader + recipe.instructions
  }

  /**
   * Whatever the ingredients, the message opens with the title line and closes with the
   * instructions, verbatim.
   */
  lemma RenderedFrame(recipe: Recipe)
    ensures HasPrefix(Rendered(recipe), TitleOpen + recipe.title + TitleClose)
    ensures var r := Rendered(recipe);
      |recipe.instructions| <= |r| && r[|r| - |recipe.instructions|..] == recipe.instructions
  {
    var title := TitleOpen + recipe.title + TitleClose;
    var body := IngredientsHeader + NumberedFrom(recipe.ingredients, 1) + InstructionsHeader;
    assert Rendered(recipe) == title + (body + recipe.instructions);
    PrefixOfConcat(title, body + recipe.instructions);
    PrefixOfConcat(title + body, recipe.instructions);
  }

  /**
   * In the rendered message the ingredient at (0-based) position `i` is the line numbered
   * `i + 1`, with the earlier ingredients' lines before it and the later ones after it; the title
   * opens the message and the instructions close it verbatim.
   */
  lemma RenderedIngredientAt(recipe: Recipe, i: int)
    requires 0 <= i < |recipe.ingredients|
    ensures var ings := recipe.ingredients;
      Rendered(recipe) ==
        TitleOpen + recipe.title + TitleClose + IngredientsHeader
        + (NumberedFrom(ings[..i], 1) + NumberedLine(i + 1, ings[i]) + NumberedFrom(ings[i + 1..], i + 2))
        + InstructionsHeader + recipe.instructions
  {
    NumberedLineAt(recipe.ingredients, i, 1);
  }

  /** FormatRecipe: builds the rendered message line by line. */
  method FormatRecipe(recipe: Recipe) returns (text: string)
    ensures text == Rendered(recipe)
  {
    var ingredients := recipe.ingredients;
    var head := TitleOpen + recipe.title + TitleClose + IngredientsHeader;
    var lines := "";
    text := head;
    for i := 0 to |ingredients|
      invariant lines == NumberedFrom(ingredients[..i], 1)
      invariant text == head + lines
    {
      var line := NumberedLine(i + 1, ingredients[i]);
      NumberedFromAppend(ingredients[..i], ingredients[i], 1);
      assert ingredients[..i + 1] == ingredients[..i] + [ingredients[i]];
      lines := lines + line;
      text := text + line;
    }
    assert ingredients[..|ingredients|] == ingredients;
    text := text + InstructionsHeader;
    text := text + recipe.instructions;
  }
}
