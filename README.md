# Recipe-recognition Telegram bot — Dafny model

The bot takes a photo of food products from a Telegram user. It asks a vision model to list the
products, asks a text model for a recipe that uses them, stores the recipe for that user and
sends it back. Saved recipes are browsed through inline buttons. Each button carries a short
token (`recipe:<id>`, `delete:<id>`, `list_recipes`) that fully determines what a press does.

This project models the core of that program:

- `wrappers.dfy`: `Option` and `Result`.
- `gostrings.dfy`: the Go library functions the core relies on, with their exact behaviour.
  These are `strings.Index`/`LastIndex` for one character, `strings.HasPrefix`,
  `strings.TrimSpace` (with Go's `unicode.IsSpace` set), `strings.Split` on a newline,
  `strconv.Itoa`, `strconv.Atoi` (including its out-of-range clamping, its check for overflow
  before a later syntax error, and its value 0 on any other syntax error) and the wrapping
  `int32(...)` conversion.
- `structured_output.dfy`: the "first `{` to last `}`" extraction both model adapters apply to a
  free-form reply.
- `vision.dfy`: `OpenAIVision.RecognizeProductsFromImage` after the request: region, decode, the
  line-by-line fallback and the "no products" check.
- `recipes.dfy`: `RecipeGenerator.GenerateRecipe` after the request (region, decode,
  completeness check) and `FormatRecipe`.
- `database.dfy`: `DBManager.GetUserOrCreate`, as a class over a user table keyed by Telegram ID.
- `config.dfy`: `LoadConfig` and `getEnvOrDefault`, over an environment map.
- `bot.dfy`: `handleUpdate` and every handler it calls. Each handler is a method that returns the
  ordered list of outside calls it makes (sends, callback answers, message deletions, database
  queries, file and model requests). Each such method is proved equal to a specification
  function, and lemmas state the properties. A sent message names its text by a `Reply` value
  (the welcome text for a first name, the help text, a stored recipe, ...); `Bot.Render` gives
  the exact characters each one stands for.

The outside world is modelled as parameters. The model replies and `json.Unmarshal` appear as
`Option`-valued functions passed in. Telegram, the HTTP download and the database queries the bot
calls are fields of a `Services` value. What GetUserOrCreate returns inside the bot is the
function `userIdOf` from Telegram ID to internal id.

Where the design description and the code differ, the model follows the code:

- A callback token whose id is not a number is not rejected. `strconv.Atoi`'s error is discarded,
  so such a token acts on recipe 0 (`Bot.MalformedIdIsZero`). The exception is an id whose
  leading digits are already worth more than 2^64-1: `Atoi` stops there with a range error
  before it sees the rest. So `recipe:99999999999999999999x` acts on recipe -1, and the same
  after a '-' acts on recipe 0 (`Bot.OverflowingIdIsClamped`).
- An id beyond the int64 range is clamped by `Atoi` and then wrapped by `int32(...)`. It acts on
  recipe -1 above the range and on recipe 0 below it (`Bot.OutOfRangeIdIsClamped`).
- A token that no branch recognises is not a distinct error either. It is silently dropped and
  the press is not even answered (`Bot.UnrecognisedDataIgnored`).
- Decoding a valid token and encoding it again gives the token back only for the canonical
  decimal form. `recipe:007` decodes to recipe 7, which encodes as `recipe:7`.
- `cmd/bot/main.go` calls `config.LoadConfig(".")`, but `config.go` declares `LoadConfig()`
  without parameters. The model follows `config.go`.

## Model

| member | source | states |
|---|---|---|
| GoStrings.IndexOf | recipe-recognition-bot/internal/vision/openai.go:88 | the index of the first occurrence of the character, -1 exactly when it is absent |
| GoStrings.LastIndexOf | recipe-recognition-bot/internal/vision/openai.go:89 | the index of the last occurrence of the character, -1 exactly when it is absent |
| GoStrings.TrimSpace | recipe-recognition-bot/internal/vision/openai.go:97 | the result is a contiguous piece of the input, only white space is cut on either side, and neither end of the result is white space |
| GoStrings.PrefixOfConcat | recipe-recognition-bot/internal/bot/bot.go:237 | `strings.HasPrefix` holds for `p` followed by anything, and what follows the prefix is exactly what was appended |
| GoStrings.Split | recipe-recognition-bot/internal/vision/openai.go:94 | at least one piece, no piece holds the separator, and joining the pieces with it gives the input back |
| GoStrings.SplitJoin | recipe-recognition-bot/internal/vision/openai.go:94 | splitting a join of separator-free pieces gives exactly those pieces back |
| GoStrings.ItoaCanonical | recipe-recognition-bot/internal/bot/bot.go:220 | `%d` writes a '-' exactly for negatives, then one or more digits with a leading zero only for 0 |
| GoStrings.ParseDecimal | recipe-recognition-bot/internal/bot/bot.go:238 | a value exactly for an optional sign followed by one or more decimal digits |
| GoStrings.Atoi | recipe-recognition-bot/internal/bot/bot.go:238 | the value always lies in the int64 range; success exactly when the text is a decimal int64, and then the value is that number |
| GoStrings.AtoiErrorValue | recipe-recognition-bot/internal/bot/bot.go:238 | the value returned with an error: the int64 bound on the number's side when it is out of range; the bound on the sign's side when the leading digits alone pass 2^64-1, whatever follows; 0 for any other syntax error |
| GoStrings.ToInt32 | recipe-recognition-bot/internal/bot/bot.go:242 | the result is an int32 congruent to the input modulo 2^32, and equal to it when the input is already an int32 |
| GoStrings.ParseItoa | recipe-recognition-bot/internal/bot/bot.go:220 | the decimal text `%d` prints for any integer parses back to that integer |
| GoStrings.AtoiItoa | recipe-recognition-bot/internal/bot/bot.go:238 | Atoi accepts the `%d` text of every int64 and returns that int64 |
| StructuredOutput.JsonRegion | recipe-recognition-bot/internal/vision/openai.go:88-91 | a candidate object exactly when some '{' comes before some '}'; it is a piece of the reply that starts with '{' and ends with '}' |
| StructuredOutput.JsonRegionIsFirstToLast | recipe-recognition-bot/internal/recipes/generator.go:81-87 | the candidate object runs from the first '{' to the last '}', both included |
| Vision.KeptLines | recipe-recognition-bot/internal/vision/openai.go:94-101 | the fallback never yields more items than lines, and every item is non-empty and brace-free |
| Vision.KeptLinesSingle | recipe-recognition-bot/internal/vision/openai.go:96-100 | one line yields its trimmed form when that is non-empty and brace-free, and nothing otherwise |
| Vision.KeptLinesAppend | recipe-recognition-bot/internal/vision/openai.go:96-100 | the fallback over concatenated line lists is the concatenation of the fallbacks, so line order is kept |
| Vision.KeptLinesNonEmpty | recipe-recognition-bot/internal/vision/openai.go:103-104 | one line that survives trimming and the brace test is enough for a non-empty result |
| Vision.Recognize | recipe-recognition-bot/internal/vision/openai.go:78-120 | a successful recognition always returns at least one item |
| Vision.FallbackItems | recipe-recognition-bot/internal/vision/openai.go:94-101 | the loop yields the trimmed kept lines of the reply, in order |
| Vision.RecognizeProductsFromImage | recipe-recognition-bot/internal/vision/openai.go:78-120 | the adapter's outcome equals the specification `Recognize` for every reply and decoder |
| Vision.RegionDecides | recipe-recognition-bot/internal/vision/openai.go:110-120 | with a '{' before a '}', success exactly when the first-'{'-to-last-'}' text decodes to a non-empty list, and that list is the result |
| Vision.DecodeFailureIsFinal | recipe-recognition-bot/internal/vision/openai.go:112-114 | a decoding failure is the result; the line fallback is not tried after it |
| Vision.EmptyItemsRejected | recipe-recognition-bot/internal/vision/openai.go:116-118 | a decoded empty item list is the no-products error |
| Vision.FallbackWithoutRegion | recipe-recognition-bot/internal/vision/openai.go:91-107 | without a '{' before a '}', the decoder is not consulted: the kept lines, or no-products when there are none |
| Vision.FallbackFindsLines | recipe-recognition-bot/internal/vision/openai.go:91-104 | a brace-pair-free reply made of given lines, one of them kept, is recognised as exactly the kept lines |
| Recipes.GenerateRecipe | recipe-recognition-bot/internal/recipes/generator.go:72-99 | a returned recipe is complete and is the decoder's value for the reply's candidate object; a reply without one is the no-JSON error |
| Recipes.GenerateDecodesRegion | recipe-recognition-bot/internal/recipes/generator.go:81-99 | success exactly when the first-'{'-to-last-'}' text decodes to a complete recipe, which is returned unchanged |
| Recipes.IncompleteRejected | recipe-recognition-bot/internal/recipes/generator.go:95-97 | a decoded recipe lacking a title, ingredients or instructions is rejected |
| Recipes.NumberedFromConcat | recipe-recognition-bot/internal/recipes/generator.go:109-111 | the lines of two lists in turn are the lines of the joined list, numbering carried on across the join |
| Recipes.NumberedFromAppend | recipe-recognition-bot/internal/recipes/generator.go:109-111 | adding an ingredient adds its line at the end, numbered after all earlier ones |
| Recipes.NumberedLineAt | recipe-recognition-bot/internal/recipes/generator.go:109-111 | the item at position i is the line numbered first+i, between the lines of the items before and after it |
| Recipes.NumberedLineCount | recipe-recognition-bot/internal/recipes/generator.go:109-111 | items without line breaks give exactly one line per item |
| Recipes.RenderedIngredientAt | recipe-recognition-bot/internal/recipes/generator.go:103-117 | in the rendered recipe, the title opens the text, the i-th ingredient is line i+1 of the list, and the instructions close it verbatim |
| Recipes.RenderedFrame | recipe-recognition-bot/internal/recipes/generator.go:103-117 | whatever the ingredients, the message opens with the title line and ends with the instructions, verbatim |
| Recipes.FormatRecipe | recipe-recognition-bot/internal/recipes/generator.go:103-117 | the builder loop produces the rendered recipe |
| Database.Resolved | recipe-recognition-bot/internal/database/manager.go:80-102 | afterwards the Telegram ID is present with exactly the given profile fields; an existing user keeps its id; an unknown one gets the fresh id; an unchanged profile leaves the table as it was; other users are untouched; the table stays keyed by Telegram ID |
| Database.ResolvedIdempotent | recipe-recognition-bot/internal/database/manager.go:80-102 | resolving the same user twice leaves the table as resolving once |
| Database.DBManager.GetUserOrCreate | recipe-recognition-bot/internal/database/manager.go:80-102 | the table becomes `Resolved` of the old one; the result is the stored record; nothing is written exactly when the stored profile matches; a record is created exactly when the Telegram ID was unknown, and only then is a new id used |
| Config.GetEnvOrDefault | recipe-recognition-bot/internal/config/config.go:45-50 | the variable's value when set and non-empty, the default otherwise |
| Config.MaxRecipesPerUser | recipe-recognition-bot/internal/config/config.go:28-33 | always positive; either 50 or a value Atoi accepted |
| Config.LoadConfig | recipe-recognition-bot/internal/config/config.go:21-43 | fails exactly when app.env cannot be loaded; a loaded config has a positive list limit and non-empty log level and environment |
| Config.MaxRecipesUnset | recipe-recognition-bot/internal/config/config.go:28-29 | an unset or empty variable gives 50 |
| Config.MaxRecipesRejected | recipe-recognition-bot/internal/config/config.go:29-31 | text that is not an int64, or a value that is not positive, gives 50 |
| Config.MaxRecipesAccepted | recipe-recognition-bot/internal/config/config.go:29-31 | the decimal text of a positive int64 gives that number |
| Config.MaxRecipesParsed | recipe-recognition-bot/internal/config/config.go:29-31 | any signed or zero-padded decimal text of a positive int64 gives that number |
| Bot.RouteOf | recipe-recognition-bot/internal/bot/bot.go:79-121 | a command route exactly when there is a command; otherwise a photo; otherwise a press; otherwise non-empty text; otherwise nothing. Command names and keyboard labels pick their handler |
| Bot.CommandOutranksEverything | recipe-recognition-bot/internal/bot/bot.go:81-94 | the route of a command does not depend on the photo, text or press that come with it |
| Bot.PhotoOutranksCallbackAndText | recipe-recognition-bot/internal/bot/bot.go:97-100 | without a command, a photo is handled as a photo whatever else comes with it |
| Bot.CallbackOutranksText | recipe-recognition-bot/internal/bot/bot.go:103-106 | without a command or a photo, a press is handled as a press |
| Bot.DecodeCallback | recipe-recognition-bot/internal/bot/bot.go:237-288 | view and delete exactly for their prefixes, nothing exactly for data that matches no branch, and ids always in the int64 range |
| Bot.EncodedForm | recipe-recognition-bot/internal/bot/bot.go:216-265 | the button data names its kind by its prefix ("recipe:", "delete:", or exactly "list_recipes"), and the text after the prefix is a decimal numeral worth the id |
| Bot.DecodeSuffix | recipe-recognition-bot/internal/bot/bot.go:237-242 | data behind either id prefix is read as Atoi's value for the rest, whether or not Atoi reported an error |
| Bot.DecodeEncode | recipe-recognition-bot/internal/bot/bot.go:220-288 | every token the bot writes decodes back to the same action, for every int64 id |
| Bot.MalformedIdIsZero | recipe-recognition-bot/internal/bot/bot.go:238 | a token whose id is not a number, and whose leading digits are worth at most 2^64-1, acts on recipe 0 |
| Bot.Int64BoundsAsInt32 | recipe-recognition-bot/internal/bot/bot.go:242 | `int32(...)` turns MaxInt64 into -1 and MinInt64 into 0 |
| Bot.OutOfRangeIdIsClamped | recipe-recognition-bot/internal/bot/bot.go:238-242 | an id above the int64 range is read as MaxInt64, which the int32 conversion turns into -1; one below it as MinInt64, which becomes 0 |
| Bot.OverflowingIdIsClamped | recipe-recognition-bot/internal/bot/bot.go:238-242 | leading digits worth more than 2^64-1 decide the id whatever follows them: MaxInt64 (recipe -1), or MinInt64 (recipe 0) after a '-' |
| Bot.RecipeButtons | recipe-recognition-bot/internal/bot/bot.go:216-223 | one button row per recipe, in order, labelled by title and carrying that recipe's view token |
| Bot.BuildRecipeRows | recipe-recognition-bot/internal/bot/bot.go:216-223 | the loop builds exactly those rows |
| Bot.HandleRecipesCommand | recipe-recognition-bot/internal/bot/bot.go:186-228 | the handler's calls equal the list-view specification |
| Bot.ListView | recipe-recognition-bot/internal/bot/bot.go:199-227 | the requester's own recipes are queried under int32 of the configured limit; a query error or no rows gives the empty-state message, otherwise the list message with one button per row |
| Bot.HandleCallbackQuery | recipe-recognition-bot/internal/bot/bot.go:231-289 | the handler's calls equal the press specification |
| Bot.UnrecognisedDataIgnored | recipe-recognition-bot/internal/bot/bot.go:286-289 | data matching no branch makes no call at all |
| Bot.AnsweredOnce | recipe-recognition-bot/internal/bot/bot.go:231-289 | every recognised press is answered exactly once, whatever the database returns |
| Bot.ListAnsweredOnce | recipe-recognition-bot/internal/bot/bot.go:286-288 | a press on "back to the list" is answered exactly once |
| Bot.RecipeAnsweredOnce | recipe-recognition-bot/internal/bot/bot.go:237-283 | a view or delete press is answered exactly once, right after its query |
| Bot.OwnerFromPresser | recipe-recognition-bot/internal/bot/bot.go:237-275 | view and delete resolve the presser first and filter by the presser's user id, with the token's id narrowed to int32 |
| Bot.ListButtonOpensRecipe | recipe-recognition-bot/internal/bot/bot.go:237-264 | pressing a list button shows that recipe with its delete and back buttons, or the not-found message |
| Bot.ItemsList | recipe-recognition-bot/internal/bot/bot.go:334-337 | the loop numbers the recognised items from 1, in order |
| Bot.HandlePhotoMessage | recipe-recognition-bot/internal/bot/bot.go:292-368 | the handler's calls equal the photo specification |
| Bot.PhotoStartsWithStatus | recipe-recognition-bot/internal/bot/bot.go:296-301 | the sender is resolved and told the photo is being processed before anything else |
| Bot.PhotoUsesLastVariant | recipe-recognition-bot/internal/bot/bot.go:304-306 | the file fetched is that of the last photo variant; an empty variant list panics |
| Bot.FetchedThenRecognize | recipe-recognition-bot/internal/bot/bot.go:304-325 | once the last variant's file is located and downloaded, the photo trace goes on with the recognition stage, and nothing before it requests a recipe or saves one |
| Bot.RecognitionFailureStops | recipe-recognition-bot/internal/bot/bot.go:292-331 | after a failed recognition, the photo handler ends with the recognition-failure message; no recipe is requested and nothing is saved |
| Bot.GenerationFailureStops | recipe-recognition-bot/internal/bot/bot.go:292-348 | in the photo handler, the items are shown numbered, generation is requested, and a failure ends the run without saving |
| Bot.SaveThenPresent | recipe-recognition-bot/internal/bot/bot.go:292-367 | the photo handler saves a complete generated recipe under the sender's id, then removes the status message, then sends the rendered recipe, and does nothing after |
| Bot.HelpTrace | recipe-recognition-bot/internal/bot/bot.go:153-176 | a press is answered exactly once and a typed command not at all; the help text then goes out in Markdown to the chat the request came from |
| Bot.HandleHelpCommand | recipe-recognition-bot/internal/bot/bot.go:153-176 | the handler's calls equal the help specification: the press is answered if there is one, then the help text is sent |
| Bot.HandleUpdate | recipe-recognition-bot/internal/bot/bot.go:79-121 | the dispatcher's calls equal the trace of the handler its route selects |
| Bot.IgnoredUpdateIsSilent | recipe-recognition-bot/internal/bot/bot.go:108-121 | an update with no command, photo, press or text makes no call |
| Bot.KeyboardLabelsActAsCommands | recipe-recognition-bot/internal/bot/bot.go:110-114 | the two reply-keyboard labels do what /help and /recipes do |
| Bot.UnknownCommandReply | recipe-recognition-bot/internal/bot/bot.go:90-91 | any other command gets only the unknown-command reply |
| Bot.OtherTextGetsHint | recipe-recognition-bot/internal/bot/bot.go:115-118 | other text gets only the hint |
| Bot.StartTrace | recipe-recognition-bot/internal/bot/bot.go:141-147 | /start sends a reply keyboard, and every label on it, sent back as text, reaches the help or the recipes handler |
| Bot.StartGreets | recipe-recognition-bot/internal/bot/bot.go:124-150 | /start resolves the sender and then sends exactly one message, the welcome text for the sender's first name, to the same chat |
| Bot.WelcomeGreets | recipe-recognition-bot/internal/bot/bot.go:131-139 | the welcome text opens by greeting the user by first name |
| Bot.RecognizedShowsItems | recipe-recognition-bot/internal/bot/bot.go:339 | the recognised-items message opens with its header followed by the numbered items |

## Left out

- `Bot.Start`, the update loop and its goroutine per update: concurrency and the Telegram long-poll
  are not modelled. Each update is handled on its own.
- `SetMyCommands` registration and all logging are left out. Neither affects what a handler does.
- The HTTP requests to the model endpoints, model names, prompts and token budgets are left out.
  The vision and generation replies are parameters, where None means the request failed.
- A reply with an empty `Choices` list would panic at `resp.Choices[0]`. That case is not
  modelled: a reply is always one string.
- `json.Unmarshal` and `json.Marshal` are opaque functions passed in. The ingredients are stored
  as the list itself rather than its JSON text.
- The SQL of the generated queries (`ListUserRecipes` ordering and `LIMIT`, `GetRecipe` and
  `DeleteRecipe` filtering by owner, `SaveRecipe`) is outside the model. The bot only sees their
  answers through `Services`. Whether a failed save or delete is reported is not modelled either,
  because the bot ignores both results.
- `NewDBManager`, `Close` and `RunMigrations` are left out. They only open, close and migrate the
  PostgreSQL connection.
- Database.DBManager.GetUserOrCreate: a lookup fails only when the Telegram ID is absent.
  Transient query errors, and the zero-valued user the bot then goes on with, are folded into the
  `userIdOf` oracle. Creation timestamps are not modelled.
- A callback press whose message is missing, or an update with no sender, would dereference nil.
  The model assumes both are present.
- Strings are sequences of characters, while Go strings are byte sequences. The indices differ
  once non-ASCII text comes before the character looked for: Go counts bytes, the model counts
  characters. The braces, digits and prefixes looked for are ASCII, so the piece cut out of a
  reply (from the first `{` to the last `}`) and the text after a callback prefix are the same
  either way. Only the `TrimSpace` of invalid UTF-8 differs, and that case is not modelled.
- Loading `app.env` into the process environment (`godotenv.Load`) is the boolean parameter
  `envFileLoaded` plus the already-merged environment map.
- `cmd/bot/main.go` (wiring, logger set-up, signal handling) is not part of this model.
