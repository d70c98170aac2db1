/**
 * The bot's per-update handling (`Bot.handleUpdate` and the handlers it calls). Every call the
 * handlers make to Telegram, to the database queries, to the image fetch and to the two model
 * adapters' requests is recorded, in order, as an `Effect`; what such a call answers comes from
 * the `Services` oracles. A handler's trace is the list of effects it produces for one update.
 */
module Bot {
  import opened Wrappers
  import opened GoStrings
  import Vision
  import Recipes

  // ---------------------------------------------------------------------------------------------
  // Updates

  /** The sender of a message or of a button press. */
  datatype TgUser = TgUser(id: int, userName: string, firstName: string, lastName: string)

  /** One size variant of a sent photo; Telegram lists them smallest first. */
  datatype PhotoSize = PhotoSize(fileId: string)

  /**
   * A message. `command` is Some(name) exactly when `IsCommand()` holds, `name` being what
   * `Command()` returns; `photo` is None when the message carries no photo (a nil slice).
   */
  datatype Message = Message(
    messageId: int, from: TgUser, chatId: int,
    command: Option<string>, photo: Option<seq<PhotoSize>>, text: string)

  /** A press of an inline button: its id, who pressed it, the message it sits on and its data. */
  datatype CallbackQuery = CallbackQuery(id: string, from: TgUser, chatId: int, messageId: int, data: string)

  datatype Update = Update(message: Option<Message>, callbackQuery: Option<CallbackQuery>)

  // ---------------------------------------------------------------------------------------------
  // Effects and oracles

  datatype Button = Button(text: string, data: string)

  datatype Markup = NoMarkup | ReplyKeyboard(labels: seq<seq<string>>) | InlineKeyboard(rows: seq<seq<Button>>)

  /** A stored recipe row as the queries return it. */
  datatype RecipeRow = RecipeRow(id: int, title: string, content: string)

  datatype Effect =
    | ResolveUser(telegramId: int, username: string, firstName: string, lastName: string)  // GetUserOrCreate
    | Send(chatId: int, reply: Reply, markdown: bool, markup: Markup)
    | AnswerCallback(callbackId: string)
    | DeleteMessage(chatId: int, messageId: int)
    | QueryListRecipes(userId: int, limit: int)
    | QueryGetRecipe(recipeId: int, userId: int)
    | QueryDeleteRecipe(recipeId: int, userId: int)
    | QuerySaveRecipe(userId: int, title: string, content: string, ingredients: seq<string>)
    | GetFileUrl(fileId: string)
    | DownloadImage(url: string)
    | RequestRecognition(image: seq<bv8>)
    | RequestGeneration(items: seq<string>)
    | Panic  // a run-time panic (index out of range)

  /**
   * What the outside world answers. `userIdOf` gives the internal id GetUserOrCreate returns for
   * a Telegram ID; `processingMessageId` is the id of the sent status message (None when that
   * send failed); `download` is None when `http.Get` fails; `visionReply` and `generationReply`
   * are the model replies (None when the request failed); `decodeItems` and `decodeRecipe` are
   * `json.Unmarshal`.
   */
  datatype Services = Services(
    userIdOf: int -> int,
    listUserRecipes: (int, int) -> Option<seq<RecipeRow>>,
    getRecipe: (int, int) -> Option<RecipeRow>,
    processingMessageId: Option<int>,
    fileUrl: string -> Option<string>,
    download: string -> Option<seq<bv8>>,
    visionReply: seq<bv8> -> Option<string>,
    decodeItems: string -> Option<seq<string>>,
    generationReply: seq<string> -> Option<string>,
    decodeRecipe: string -> Option<Recipes.Recipe>)

  function ResolveEffect(user: TgUser): Effect {
    ResolveUser(user.id, user.userName, user.firstName, user.lastName)
  }

  // ---------------------------------------------------------------------------------------------
  // Texts

  const HelpButton: string := "Помощь"
  const RecipesButton: string := "Мои рецепты"
  const DeleteLabel: string := "🗑 Удалить"
  const BackLabel: string := "« Назад"

  /** Which message text a send carries; `Render` gives the exact text. */
  datatype Reply =
    | WelcomeText(firstName: string)
    | HelpText
    | UnknownCommandText
    | HintText
    | NoRecipesText
    | RecipesListText
    | RecipeNotFoundText
    | DeletedText
    | ProcessingText
    | FileUrlFailedText
    | DownloadFailedText
    | RecognitionFailedText
    | RecognizedText(itemsList: string)
    | GenerationFailedText
    | Verbatim(content: string)  // a stored or freshly formatted recipe

  /**
   * The text sent for each reply; a recipe goes out exactly as stored or formatted.
   * `WelcomeGreets` and `RecognizedShowsItems` state what the two texts built from data show.
   */
  function Render(r: Reply): string {
    match r
    case WelcomeText(firstName) =>
      "Здравствуйте, " + firstName + "!"
      + ("\n\n"
        + "Я бот для распознавания продуктов и генерации рецептов.\n\n"
        + "Отправьте мне фотографию продуктов, и я предложу рецепт.\n\n"
        + "Команды:\n/help - справка\n/recipes - сохраненные рецепты")
    case HelpText =>
      "*Как пользоваться ботом:*\n\n1. Отправьте фото продуктов\n2. Бот распознает продукты \n"
      + "3. Бот предложит рецепт\n4. Вы можете сохранить рецепт\n\n*Команды:*\n"
      + "/start - начать работу\n/help - справка\n/recipes - сохраненные рецепты"
    case UnknownCommandText => "Неизвестная команда. Используйте /help для списка команд."
    case HintText => "Отправьте фото продуктов или используйте команды (/help)."
    case NoRecipesText => "У вас пока нет сохраненных рецептов. Отправьте фото продуктов, чтобы получить рецепт."
    case RecipesListText => "Ваши сохраненные рецепты:"
    case RecipeNotFoundText => "Не удалось найти рецепт."
    case DeletedText => "Рецепт удален. Используйте /recipes для просмотра остальных."
    case ProcessingText => "Обрабатываю фото... Это займет несколько секунд."
    case FileUrlFailedText => "Не удалось загрузить фото. Попробуйте снова."
    case DownloadFailedText => "Ошибка при загрузке изображения."
    case RecognitionFailedText => "Не удалось распознать продукты. Сделайте более четкий снимок."
    case RecognizedText(itemsList) => "Распознанные продукты:\n" + itemsList + "\n\nГенерирую рецепт..."
    case GenerationFailedText => "Не удалось сгенерировать рецепт. Попробуйте снова."
    case Verbatim(content) => content
  }

  // ---------------------------------------------------------------------------------------------
  // Routing

  /** Which handler an update reaches. */
  datatype Route =
    | StartCommand | HelpCommand | RecipesCommand | UnknownCommand
    | PhotoMessage | Callback
    | HelpTextMessage | RecipesTextMessage | OtherText
    | Ignored

  predicate IsCommandRoute(r: Route) {
    r == StartCommand || r == HelpCommand || r == RecipesCommand || r == UnknownCommand
  }

  predicate IsTextRoute(r: Route) {
    r == HelpTextMessage || r == RecipesTextMessage || r == OtherText
  }

  predicate HasCommand(u: Update) {
    u.message.Some? && u.message.value.command.Some?
  }

  predicate HasPhoto(u: Update) {
    u.message.Some? && u.message.value.photo.Some?
  }

  /**
   * handleUpdate's classification. A command comes first, then a photo, then a button press,
   * then non-empty text; any other update is ignored. Among commands, `start`, `help` and
   * `recipes` have handlers and every other name is unknown; among texts, the two reply-keyboard
   * labels have handlers and every other text gets the hint.
   */
  function RouteOf(u: Update): (r: Route)
    ensures IsCommandRoute(r) <==> HasCommand(u)
    ensures r == PhotoMessage <==> !HasCommand(u) && HasPhoto(u)
    ensures r == Callback <==> !HasCommand(u) && !HasPhoto(u) && u.callbackQuery.Some?
    ensures IsTextRoute(r) <==>
      !HasCommand(u) && !HasPhoto(u) && u.callbackQuery.None? && u.message.Some? && u.message.value.text != ""
    ensures r == Ignored <==>
      !HasCommand(u) && !HasPhoto(u) && u.callbackQuery.None? && (u.message.None? || u.message.value.text == "")
    ensures HasCommand(u) ==>
      (r == StartCommand <==> u.message.value.command.value == "start")
      && (r == HelpCommand <==> u.message.value.command.value == "help")
      && (r == RecipesCommand <==> u.message.value.command.value == "recipes")
    ensures IsTextRoute(r) ==>
      (r == HelpTextMessage <==> u.message.value.text == HelpButton)
      && (r == RecipesTextMessage <==> u.message.value.text == RecipesButton)
  {
    if HasCommand(u) then
      match u.message.value.command.value
      case "start" => StartCommand
      case "help" => HelpCommand
      case "recipes" => RecipesCommand
      case _ => UnknownCommand
    else if HasPhoto(u) then PhotoMessage
    else if u.callbackQuery.Some? then Callback
    else if u.message.Some? && u.message.value.text != "" then
      if u.message.value.text == HelpButton then HelpTextMessage
      else if u.message.value.text == RecipesButton then RecipesTextMessage
      else OtherText
    else Ignored
  }

  /** A command decides the route whatever photo, text or button press comes with it. */
  lemma CommandOutranksEverything(m: Message, photo: Option<seq<PhotoSize>>, text: string,
                                  cb: Option<CallbackQuery>, cb2: Option<CallbackQuery>)
    requires m.command.Some?
    ensures RouteOf(Update(Some(m), cb)) == RouteOf(Update(Some(m.(photo := photo, text := text)), cb2))
  {
  }

  /** Without a command, a photo decides the route whatever text or button press comes with it. */
  lemma PhotoOutranksCallbackAndText(m: Message, text: string, cb: Option<CallbackQuery>)
    requires m.command.None? && m.photo.Some?
    ensures RouteOf(Update(Some(m.(text := text)), cb)) == PhotoMessage
  {
  }

  /** Without a command or a photo, a button press decides the route whatever the text. */
  lemma CallbackOutranksText(m: Option<Message>, cb: CallbackQuery)
    requires m.None? || (m.value.command.None? && m.value.photo.None?)
    ensures RouteOf(Update(m, Some(cb))) == Callback
  {
  }

  // ---------------------------------------------------------------------------------------------
  // Callback tokens

  /** What a button press asks for. */
  datatype CallbackAction = ViewRecipe(id: int) | DeleteRecipe(id: int) | ListRecipes

  const ViewPrefix: string := "recipe:"
  const DeletePrefix: string := "delete:"
  const ListToken: string := "list_recipes"

  /** The button data `fmt.Sprintf("recipe:%d", id)`, `fmt.Sprintf("delete:%d", id)`, "list_recipes". */
  function EncodeCallback(a: CallbackAction): string {
    match a
    case ViewRecipe(id) => ViewPrefix + Itoa(id)
    case DeleteRecipe(id) => DeletePrefix + Itoa(id)
    case ListRecipes => ListToken
  }

  /**
   * The three kinds of button data are told apart by their prefix, and the text after "recipe:"
   * or "delete:" is a decimal numeral worth the id.
   */
  lemma EncodedForm(a: CallbackAction)
    ensures var data := EncodeCallback(a);
      (a.ViewRecipe? <==> HasPrefix(data, ViewPrefix))
      && (a.DeleteRecipe? <==> HasPrefix(data, DeletePrefix))
      && (a.ListRecipes? <==> data == ListToken)
      && (!a.ListRecipes? ==> |data| > 7 && ParseDecimal(data[7..]) == Some(a.id))
  {
    match a
    case ViewRecipe(id) =>
      PrefixOfConcat(ViewPrefix, Itoa(id));
      ParseItoa(id);
      assert !HasPrefix(ViewPrefix + Itoa(id), DeletePrefix) by { assert ViewPrefix[0] != DeletePrefix[0]; }
    case DeleteRecipe(id) =>
      PrefixOfConcat(DeletePrefix, Itoa(id));
      ParseItoa(id);
      assert !HasPrefix(DeletePrefix + Itoa(id), ViewPrefix) by { assert DeletePrefix[0] != ViewPrefix[0]; }
    case ListRecipes =>
      assert !HasPrefix(ListToken, ViewPrefix) by { assert ListToken[0] != ViewPrefix[0]; }
      assert !HasPrefix(ListToken, DeletePrefix) by { assert ListToken[0] != DeletePrefix[0]; }
  }

  /**
   * handleCallbackQuery's reading of button data: a prefix test, then `strconv.Atoi(data[7:])`
   * with its error discarded (so the value Atoi returns on error is used), then the literal
   * "list_recipes". None is data that none of the three branches takes.
   */
  function DecodeCallback(data: string): (r: Option<CallbackAction>)
    ensures r.None? <==> !HasPrefix(data, ViewPrefix) && !HasPrefix(data, DeletePrefix) && data != ListToken
    ensures r.Some? && r.value.ViewRecipe? <==> HasPrefix(data, ViewPrefix)
    ensures r.Some? && r.value.DeleteRecipe? <==> HasPrefix(data, DeletePrefix)
    ensures r.Some? && !r.value.ListRecipes? ==> MinInt64 <= r.value.id <= MaxInt64
  {
    if HasPrefix(data, ViewPrefix) then Some(ViewRecipe(Atoi(data[7..]).value))
    else if HasPrefix(data, DeletePrefix) then Some(DeleteRecipe(Atoi(data[7..]).value))
    else if data == ListToken then Some(ListRecipes)
    else None
  }

  /** Every action whose id is an int64 survives encoding and decoding. */
  lemma DecodeEncode(a: CallbackAction)
    requires !a.ListRecipes? ==> MinInt64 <= a.id <= MaxInt64
    ensures DecodeCallback(EncodeCallback(a)) == Some(a)
  {
    match a
    case ViewRecipe(id) =>
      var t := EncodeCallback(a);
      assert t[..7] == ViewPrefix && t[7..] == Itoa(id);
      AtoiItoa(id);
    case DeleteRecipe(id) =>
      var t := EncodeCallback(a);
      assert t[..7] == DeletePrefix && t[7..] == Itoa(id);
      assert !HasPrefix(t, ViewPrefix) by { assert t[0] != ViewPrefix[0]; }
      AtoiItoa(id);
    case ListRecipes =>
      assert !HasPrefix(ListToken, ViewPrefix) by { assert ListToken[0] != ViewPrefix[0]; }
      assert !HasPrefix(ListToken, DeletePrefix) by { assert ListToken[0] != DeletePrefix[0]; }
  }

  /** Data behind either id prefix is read as Atoi's value for the rest, whatever Atoi reports. */
  lemma DecodeSuffix(suffix: string)
    ensures DecodeCallback(ViewPrefix + suffix) == Some(ViewRecipe(Atoi(suffix).value))
    ensures DecodeCallback(DeletePrefix + suffix) == Some(DeleteRecipe(Atoi(suffix).value))
  {
    var v := ViewPrefix + suffix;
    var d := DeletePrefix + suffix;
    assert v[..7] == ViewPrefix && v[7..] == suffix;
    assert d[..7] == DeletePrefix && d[7..] == suffix;
    assert !HasPrefix(d, ViewPrefix) by { assert d[0] != ViewPrefix[0]; }
  }

  /** int32(...) turns the upper int64 bound into -1 and the lower one into 0. */
  lemma Int64BoundsAsInt32()
    ensures ToInt32(MaxInt64) == -1 && ToInt32(MinInt64) == 0
  {
  }

  /**
   * An id that is not a number is read as 0, because the Atoi error is dropped; this holds as
   * long as the digits it starts with are worth at most 2^64-1 (see OverflowingIdIsClamped).
   */
  lemma MalformedIdIsZero(suffix: string)
    requires ParseDecimal(suffix).None? && !RunOverflows(suffix)
    ensures DecodeCallback(ViewPrefix + suffix) == Some(ViewRecipe(0))
    ensures DecodeCallback(DeletePrefix + suffix) == Some(DeleteRecipe(0))
  {
    AtoiErrorValue(suffix);
    DecodeSuffix(suffix);
  }

  /**
   * A number beyond the int64 range is read as Atoi's clamped value, which the handlers then
   * narrow with int32(...): a too-large id queries recipe -1, a too-small one recipe 0.
   */
  lemma OutOfRangeIdIsClamped(suffix: string)
    requires ParseDecimal(suffix).Some?
    requires ParseDecimal(suffix).value > MaxInt64 || ParseDecimal(suffix).value < MinInt64
    ensures var bound := if ParseDecimal(suffix).value > MaxInt64 then MaxInt64 else MinInt64;
      DecodeCallback(ViewPrefix + suffix) == Some(ViewRecipe(bound))
      && DecodeCallback(DeletePrefix + suffix) == Some(DeleteRecipe(bound))
      && ToInt32(bound) == (if bound == MaxInt64 then -1 else 0)
  {
    AtoiErrorValue(suffix);
    DecodeSuffix(suffix);
    Int64BoundsAsInt32();
  }

  /**
   * Digits worth more than 2^64-1 make Atoi stop with a range error before it reaches what
   * follows them, so even data such as `recipe:99999999999999999999x` is read as MaxInt64
   * (recipe -1 after int32(...)), or as MinInt64 (recipe 0) after a '-'.
   */
  lemma OverflowingIdIsClamped(suffix: string)
    requires RunOverflows(suffix)
    ensures var bound := if |suffix| > 0 && suffix[0] == '-' then MinInt64 else MaxInt64;
      DecodeCallback(ViewPrefix + suffix) == Some(ViewRecipe(bound))
      && DecodeCallback(DeletePrefix + suffix) == Some(DeleteRecipe(bound))
      && ToInt32(bound) == (if bound == MaxInt64 then -1 else 0)
  {
    AtoiErrorValue(suffix);
    DecodeSuffix(suffix);
    Int64BoundsAsInt32();
  }

  // ---------------------------------------------------------------------------------------------
  // Counting callback answers

  function Answers(trace: seq<Effect>): nat {
    if trace == [] then 0
    else Answers(trace[..|trace| - 1]) + (if trace[|trace| - 1].AnswerCallback? then 1 else 0)
  }

  lemma {:induction false} AnswersAppend(a: seq<Effect>, b: seq<Effect>)
    ensures Answers(a + b) == Answers(a) + Answers(b)
    decreases |b|
  {
    if b == [] {
      assert a + b == a;
    } else {
      assert (a + b)[..|a + b| - 1] == a + b[..|b| - 1];
      AnswersAppend(a, b[..|b| - 1]);
    }
  }

  lemma {:induction false} NoAnswers(t: seq<Effect>)
    requires forall i :: 0 <= i < |t| ==> !t[i].AnswerCallback?
    ensures Answers(t) == 0
  {
    if t != [] {
      NoAnswers(t[..|t| - 1]);
    }
  }

  // ---------------------------------------------------------------------------------------------
  // The saved-recipes list (handleRecipesCommand)

  /** The keyboard: one row per recipe, in query order, a button titled by the recipe opening it. */
  function RecipeButtons(recipes: seq<RecipeRow>): (rows: seq<seq<Button>>)
    ensures |rows| == |recipes|
    ensures forall i :: 0 <= i < |recipes| ==>
      rows[i] == [Button(recipes[i].title, EncodeCallback(ViewRecipe(recipes[i].id)))]
  {
    if recipes == [] then []
    else
      RecipeButtons(recipes[..|recipes| - 1])
      + [[Button(recipes[|recipes| - 1].title, ViewPrefix + Itoa(recipes[|recipes| - 1].id))]]
  }

  /** The loop building the keyboard rows, one `append` per recipe. */
  method BuildRecipeRows(recipes: seq<RecipeRow>) returns (rows: seq<seq<Button>>)
    ensures rows == RecipeButtons(recipes)
  {
    rows := [];
    for i := 0 to |recipes|
      invariant rows == RecipeButtons(recipes[..i])
    {
      assert recipes[..i + 1][..i] == recipes[..i];
      var button := Button(recipes[i].title, ViewPrefix + Itoa(recipes[i].id));
      rows := rows + [[button]];
    }
    assert recipes[..|recipes|] == recipes;
  }

  /** The requester of a list: the button presser when there is a press, else the message sender. */
  function Requester(u: Update): (TgUser, int)
    requires u.callbackQuery.Some? || u.message.Some?
  {
    if u.callbackQuery.Some? then (u.callbackQuery.value.from, u.callbackQuery.value.chatId)
    else (u.message.value.from, u.message.value.chatId)
  }

  /** handleRecipesCommand's trace. */
  function RecipesListTrace(u: Update, s: Services, maxRecipes: int): seq<Effect>
    requires u.callbackQuery.Some? || u.message.Some?
  {
    var (user, chatId) := Requester(u);
    var answer := if u.callbackQuery.Some? then [AnswerCallback(u.callbackQuery.value.id)] else [];
    var userId := s.userIdOf(user.id);
    var limit := ToInt32(maxRecipes);
    answer + [ResolveEffect(user), QueryListRecipes(userId, limit)]
    + match s.listUserRecipes(userId, limit)
      case None => [Send(chatId, NoRecipesText, false, NoMarkup)]
      case Some(recipes) =>
        if |recipes| == 0 then [Send(chatId, NoRecipesText, false, NoMarkup)]
        else [Send(chatId, RecipesListText, false, InlineKeyboard(RecipeButtons(recipes)))]
  }

  method HandleRecipesCommand(u: Update, s: Services, maxRecipes: int) returns (effects: seq<Effect>)
    requires u.callbackQuery.Some? || u.message.Some?
    ensures effects == RecipesListTrace(u, s, maxRecipes)
  {
    var user: TgUser;
    var chatId: int;
    effects := [];
    if u.callbackQuery.Some? {
      user := u.callbackQuery.value.from;
      chatId := u.callbackQuery.value.chatId;
      effects := effects + [AnswerCallback(u.callbackQuery.value.id)];
    } else {
      user := u.message.value.from;
      chatId := u.message.value.chatId;
    }
    var userId := s.userIdOf(user.id);
    effects := effects + [ResolveEffect(user)];
    var limit := ToInt32(maxRecipes);
    var recipes := s.listUserRecipes(userId, limit);
    effects := effects + [QueryListRecipes(userId, limit)];
    if recipes.None? || |recipes.value| == 0 {
      effects := effects + [Send(chatId, NoRecipesText, false, NoMarkup)];
      return;
    }
    var rows := BuildRecipeRows(recipes.value);
    effects := effects + [Send(chatId, RecipesListText, false, InlineKeyboard(rows))];
  }

  /**
   * The list view queries the requester's own recipes under int32(maxRecipes), and ends with
   * either the empty-state message without a keyboard (query error or no rows) or the list
   * message with one button per row, in order, labelled by title and carrying "recipe:<id>".
   */
  lemma ListView(u: Update, s: Services, maxRecipes: int)
    requires u.callbackQuery.Some? || u.message.Some?
    ensures var t := RecipesListTrace(u, s, maxRecipes);
      var (user, chatId) := Requester(u);
      var userId := s.userIdOf(user.id);
      var result := s.listUserRecipes(userId, ToInt32(maxRecipes));
      |t| >= 3
      && t[|t| - 2] == QueryListRecipes(userId, ToInt32(maxRecipes))
      && (result.None? || result.value == [] ==> t[|t| - 1] == Send(chatId, NoRecipesText, false, NoMarkup))
      && (result.Some? && result.value != [] ==>
            t[|t| - 1].Send? && t[|t| - 1].reply == RecipesListText && t[|t| - 1].markup.InlineKeyboard?
            && |t[|t| - 1].markup.rows| == |result.value|
            && forall i :: 0 <= i < |result.value| ==>
                 t[|t| - 1].markup.rows[i] == [Button(result.value[i].title, ViewPrefix + Itoa(result.value[i].id))])
  {
  }

  // ---------------------------------------------------------------------------------------------
  // Button presses (handleCallbackQuery)

  /** The view message's keyboard: delete this recipe, or go back to the list. */
  function ViewKeyboard(row: RecipeRow): Markup {
    InlineKeyboard([[Button(DeleteLabel, EncodeCallback(DeleteRecipe(row.id))), Button(BackLabel, ListToken)]])
  }

  /** handleCallbackQuery's trace. */
  function CallbackTrace(u: Update, s: Services, maxRecipes: int): seq<Effect>
    requires u.callbackQuery.Some?
  {
    var cb := u.callbackQuery.value;
    var userId := s.userIdOf(cb.from.id);
    match DecodeCallback(cb.data)
    case None => []
    case Some(ViewRecipe(id)) =>
      [ResolveEffect(cb.from), QueryGetRecipe(ToInt32(id), userId), AnswerCallback(cb.id)]
      + (match s.getRecipe(ToInt32(id), userId)
         case None => [Send(cb.chatId, RecipeNotFoundText, false, NoMarkup)]
         case Some(row) => [Send(cb.chatId, Verbatim(row.content), true, ViewKeyboard(row))])
    case Some(DeleteRecipe(id)) =>
      [ResolveEffect(cb.from), QueryDeleteRecipe(ToInt32(id), userId), AnswerCallback(cb.id),
       DeleteMessage(cb.chatId, cb.messageId), Send(cb.chatId, DeletedText, false, NoMarkup)]
    case Some(ListRecipes) => RecipesListTrace(u, s, maxRecipes)
  }

  method HandleCallbackQuery(u: Update, s: Services, maxRecipes: int) returns (effects: seq<Effect>)
    requires u.callbackQuery.Some?
    ensures effects == CallbackTrace(u, s, maxRecipes)
  {
    var cb := u.callbackQuery.value;
    var data := cb.data;
    var user := cb.from;
    effects := [];
    if HasPrefix(data, ViewPrefix) {
      var recipeId := Atoi(data[7..]).value;
      assert DecodeCallback(data) == Some(ViewRecipe(recipeId));
      var userId := s.userIdOf(user.id);
      effects := effects + [ResolveEffect(user)];
      var recipe := s.getRecipe(ToInt32(recipeId), userId);
      effects := effects + [QueryGetRecipe(ToInt32(recipeId), userId)];
      effects := effects + [AnswerCallback(cb.id)];
      if recipe.None? {
        effects := effects + [Send(cb.chatId, RecipeNotFoundText, false, NoMarkup)];
        return;
      }
      var keyboard := InlineKeyboard([[Button(DeleteLabel, DeletePrefix + Itoa(recipe.value.id)), Button(BackLabel, ListToken)]]);
      assert keyboard == ViewKeyboard(recipe.value);
      effects := effects + [Send(cb.chatId, Verbatim(recipe.value.content), true, keyboard)];
      return;
    }
    if HasPrefix(data, DeletePrefix) {
      var recipeId := Atoi(data[7..]).value;
      assert DecodeCallback(data) == Some(DeleteRecipe(recipeId));
      var userId := s.userIdOf(user.id);
      effects := effects + [ResolveEffect(user)];
      effects := effects + [QueryDeleteRecipe(ToInt32(recipeId), userId)];
      effects := effects + [AnswerCallback(cb.id)];
      effects := effects + [DeleteMessage(cb.chatId, cb.messageId)];
      effects := effects + [Send(cb.chatId, DeletedText, false, NoMarkup)];
      return;
    }
    if data == ListToken {
      effects := HandleRecipesCommand(u, s, maxRecipes);
    }
  }

  /** Data that no branch takes does nothing at all, not even answering the press. */
  lemma UnrecognisedDataIgnored(u: Update, s: Services, maxRecipes: int)
    requires u.callbackQuery.Some?
    requires var d := u.callbackQuery.value.data;
      !HasPrefix(d, ViewPrefix) && !HasPrefix(d, DeletePrefix) && d != ListToken
    ensures CallbackTrace(u, s, maxRecipes) == []
  {
  }

  /** A trace with one answer between answer-free parts holds exactly one answer. */
  lemma OneAnswer(head: seq<Effect>, id: string, tail: seq<Effect>)
    requires forall i :: 0 <= i < |head| ==> !head[i].AnswerCallback?
    requires forall i :: 0 <= i < |tail| ==> !tail[i].AnswerCallback?
    ensures Answers(head + [AnswerCallback(id)] + tail) == 1
  {
    NoAnswers(head);
    NoAnswers(tail);
    AnswersAppend(head, [AnswerCallback(id)]);
    AnswersAppend(head + [AnswerCallback(id)], tail);
    assert [AnswerCallback(id)][..0] == [];
  }

  /** Every recognised press is answered exactly once, whatever the database answered. */
  lemma AnsweredOnce(u: Update, s: Services, maxRecipes: int)
    requires u.callbackQuery.Some? && DecodeCallback(u.callbackQuery.value.data).Some?
    ensures Answers(CallbackTrace(u, s, maxRecipes)) == 1
  {
    if DecodeCallback(u.callbackQuery.value.data).value.ListRecipes? {
      ListAnsweredOnce(u, s, maxRecipes);
    } else {
      RecipeAnsweredOnce(u, s, maxRecipes);
    }
  }

  /** A press on "back to the list" is answered first and nowhere else. */
  lemma ListAnsweredOnce(u: Update, s: Services, maxRecipes: int)
    requires u.callbackQuery.Some? && DecodeCallback(u.callbackQuery.value.data) == Some(ListRecipes)
    ensures Answers(CallbackTrace(u, s, maxRecipes)) == 1
  {
    var t := CallbackTrace(u, s, maxRecipes);
    assert t == RecipesListTrace(u, s, maxRecipes);
    var tail := t[1..];
    assert t == [] + [AnswerCallback(u.callbackQuery.value.id)] + tail;
    OneAnswer([], u.callbackQuery.value.id, tail);
  }

  /** A view or delete press is answered right after its query, and nowhere else. */
  lemma RecipeAnsweredOnce(u: Update, s: Services, maxRecipes: int)
    requires u.callbackQuery.Some?
    requires var d := DecodeCallback(u.callbackQuery.value.data); d.Some? && !d.value.ListRecipes?
    ensures Answers(CallbackTrace(u, s, maxRecipes)) == 1
  {
    var cb := u.callbackQuery.value;
    var action := DecodeCallback(cb.data).value;
    var t := CallbackTrace(u, s, maxRecipes);
    var userId := s.userIdOf(cb.from.id);
    var id := ToInt32(action.id);
    var query := if action.ViewRecipe? then QueryGetRecipe(id, userId) else QueryDeleteRecipe(id, userId);
    var tail := t[3..];
    assert t == [ResolveEffect(cb.from), query] + [AnswerCallback(cb.id)] + tail;
    OneAnswer([ResolveEffect(cb.from), query], cb.id, tail);
  }

  /**
   * View and delete reach the database with the id from the button, narrowed to int32, and the
   * owner resolved from whoever pressed the button; the button data names no owner.
   */
  lemma OwnerFromPresser(u: Update, s: Services, maxRecipes: int)
    requires u.callbackQuery.Some?
    ensures var cb := u.callbackQuery.value;
      var t := CallbackTrace(u, s, maxRecipes);
      match DecodeCallback(cb.data)
      case Some(ViewRecipe(id)) =>
        t[0] == ResolveEffect(cb.from) && t[1] == QueryGetRecipe(ToInt32(id), s.userIdOf(cb.from.id))
      case Some(DeleteRecipe(id)) =>
        t[0] == ResolveEffect(cb.from) && t[1] == QueryDeleteRecipe(ToInt32(id), s.userIdOf(cb.from.id))
      case _ => true
  {
  }

  /**
   * Pressing a list button for a stored recipe queries that recipe for the presser, and shows
   * its content with a delete button for it and a back button, or the not-found message.
   */
  lemma ListButtonOpensRecipe(u: Update, s: Services, maxRecipes: int, row: RecipeRow)
    requires MinInt32 <= row.id <= MaxInt32
    requires u.callbackQuery.Some? && u.callbackQuery.value.data == EncodeCallback(ViewRecipe(row.id))
    ensures var cb := u.callbackQuery.value;
      var userId := s.userIdOf(cb.from.id);
      var t := CallbackTrace(u, s, maxRecipes);
      t[1] == QueryGetRecipe(row.id, userId)
      && t[|t| - 1] == match s.getRecipe(row.id, userId)
                       case None => Send(cb.chatId, RecipeNotFoundText, false, NoMarkup)
                       case Some(found) => Send(cb.chatId, Verbatim(found.content), true, ViewKeyboard(found))
  {
    DecodeEncode(ViewRecipe(row.id));
  }

  // ---------------------------------------------------------------------------------------------
  // Photos (handlePhotoMessage)

  /** The loop numbering the recognised items from 1, one `+=` per item. */
  method ItemsList(items: seq<string>) returns (itemsList: string)
    ensures itemsList == Recipes.NumberedFrom(items, 1)
  {
    itemsList := "";
    for i := 0 to |items|
      invariant itemsList == Recipes.NumberedFrom(items[..i], 1)
    {
      Recipes.NumberedFromAppend(items[..i], items[i], 1);
      assert items[..i + 1] == items[..i] + [items[i]];
      itemsList := itemsList + Recipes.NumberedLine(i + 1, items[i]);
    }
    assert items[..|items|] == items;
  }

  /** The trace after the recipe is generated: save it, drop the status message, show it. */
  function PresentTrace(m: Message, s: Services, recipe: Recipes.Recipe): seq<Effect> {
    var text := Recipes.Rendered(recipe);
    [QuerySaveRecipe(s.userIdOf(m.from.id), recipe.title, text, recipe.ingredients),
     DeleteMessage(m.chatId, s.processingMessageId.GetOr(0)),
     Send(m.chatId, Verbatim(text), true, NoMarkup)]
  }

  /** The trace from recognition on, once the image bytes are in hand. */
  function RecognizeTrace(m: Message, s: Services, image: seq<bv8>): seq<Effect> {
    [RequestRecognition(image)]
    + match Vision.Recognize(s.visionReply(image), s.decodeItems)
      case Err(_) => [Send(m.chatId, RecognitionFailedText, false, NoMarkup)]
      case Ok(items) =>
        [Send(m.chatId, RecognizedText(Recipes.NumberedFrom(items, 1)), false, NoMarkup),
         RequestGeneration(items)]
        + (match Recipes.GenerateRecipe(s.generationReply(items), s.decodeRecipe)
           case Err(_) => [Send(m.chatId, GenerationFailedText, false, NoMarkup)]
           case Ok(recipe) => PresentTrace(m, s, recipe))
  }

  /** handlePhotoMessage's trace. */
  function PhotoTrace(m: Message, s: Services): seq<Effect>
    requires m.photo.Some?
  {
    var photos := m.photo.value;
    [ResolveEffect(m.from), Send(m.chatId, ProcessingText, false, NoMarkup)]
    + if |photos| == 0 then [Panic]
      else
        var fileId := photos[|photos| - 1].fileId;
        [GetFileUrl(fileId)]
        + match s.fileUrl(fileId)
          case None => [Send(m.chatId, FileUrlFailedText, false, NoMarkup)]
          case Some(url) =>
            [DownloadImage(url)]
            + match s.download(url)
              case None => [Send(m.chatId, DownloadFailedText, false, NoMarkup)]
              case Some(image) => RecognizeTrace(m, s, image)
  }

  method HandlePhotoMessage(m: Message, s: Services) returns (effects: seq<Effect>)
    requires m.photo.Some?
    ensures effects == PhotoTrace(m, s)
  {
    var user := m.from;
    var chatId := m.chatId;
    var userId := s.userIdOf(user.id);
    effects := [ResolveEffect(user)];
    effects := effects + [Send(chatId, ProcessingText, false, NoMarkup)];
    var sentMessageId := s.processingMessageId.GetOr(0);

    var photos := m.photo.value;
    if |photos| == 0 {
      effects := effects + [Panic];
      return;
    }
    var fileId := photos[|photos| - 1].fileId;
    effects := effects + [GetFileUrl(fileId)];
    var fileUrl := s.fileUrl(fileId);
    if fileUrl.None? {
      effects := effects + [Send(chatId, FileUrlFailedText, false, NoMarkup)];
      return;
    }
    effects := effects + [DownloadImage(fileUrl.value)];
    var photoData := s.download(fileUrl.value);
    if photoData.None? {
      effects := effects + [Send(chatId, DownloadFailedText, false, NoMarkup)];
      return;
    }

    effects := effects + [RequestRecognition(photoData.value)];
    var recognized := Vision.RecognizeProductsFromImage(s.visionReply(photoData.value), s.decodeItems);
    if recognized.Err? {
      effects := effects + [Send(chatId, RecognitionFailedText, false, NoMarkup)];
      return;
    }
    var itemsList := ItemsList(recognized.value);
    effects := effects + [Send(chatId, RecognizedText(itemsList), false, NoMarkup)];

    effects := effects + [RequestGeneration(recognized.value)];
    var recipe := Recipes.GenerateRecipe(s.generationReply(recognized.value), s.decodeRecipe);
    if recipe.Err? {
      effects := effects + [Send(chatId, GenerationFailedText, false, NoMarkup)];
      return;
    }

    var formatted := Recipes.FormatRecipe(recipe.value);
    effects := effects + [QuerySaveRecipe(userId, recipe.value.title, formatted, recipe.value.ingredients)];
    effects := effects + [DeleteMessage(chatId, sentMessageId)];
    effects := effects + [Send(chatId, Verbatim(formatted), true, NoMarkup)];
  }

  /** The user is resolved and told the photo is being processed before anything else. */
  lemma PhotoStartsWithStatus(m: Message, s: Services)
    requires m.photo.Some?
    ensures var t := PhotoTrace(m, s);
      |t| >= 3 && t[0] == ResolveEffect(m.from) && t[1] == Send(m.chatId, ProcessingText, false, NoMarkup)
  {
  }

  /** The file fetched is that of the last (largest) photo variant; no variant at all panics. */
  lemma PhotoUsesLastVariant(m: Message, s: Services)
    requires m.photo.Some?
    ensures var t := PhotoTrace(m, s); var photos := m.photo.value;
      (|photos| == 0 ==> t[2] == Panic && |t| == 3)
      && (|photos| > 0 ==> t[2] == GetFileUrl(photos[|photos| - 1].fileId))
  {
  }

  predicate Generates(t: seq<Effect>) {
    exists i :: 0 <= i < |t| && t[i].RequestGeneration?
  }

  predicate Saves(t: seq<Effect>) {
    exists i :: 0 <= i < |t| && t[i].QuerySaveRecipe?
  }

  /** The file of the last photo variant was located and its bytes, `image`, downloaded. */
  predicate Fetched(m: Message, s: Services, image: seq<bv8>) {
    m.photo.Some? && |m.photo.value| > 0
    && var url := s.fileUrl(m.photo.value[|m.photo.value| - 1].fileId);
    url.Some? && s.download(url.value) == Some(image)
  }

  /** Once the image is in hand, the photo trace goes on with the recognition stage. */
  lemma FetchedThenRecognize(m: Message, s: Services, image: seq<bv8>)
    requires Fetched(m, s, image)
    ensures var t := PhotoTrace(m, s);
      |t| >= 4 && t[4..] == RecognizeTrace(m, s, image)
      && forall i :: 0 <= i < 4 ==> !t[i].RequestGeneration? && !t[i].QuerySaveRecipe?
  {
  }

  /**
   * A failed recognition ends the photo handler with the recognition-failure message: no
   * generation is requested and nothing is saved.
   */
  lemma RecognitionFailureStops(m: Message, s: Services, image: seq<bv8>)
    requires Fetched(m, s, image)
    requires Vision.Recognize(s.visionReply(image), s.decodeItems).Err?
    ensures var t := PhotoTrace(m, s);
      t[|t| - 1] == Send(m.chatId, RecognitionFailedText, false, NoMarkup) && !Generates(t) && !Saves(t)
  {
    FetchedThenRecognize(m, s, image);
    var t := PhotoTrace(m, s);
    assert t == t[..4] + [RequestRecognition(image), Send(m.chatId, RecognitionFailedText, false, NoMarkup)];
  }

  /**
   * After a successful recognition the items are shown numbered from 1, then generation is
   * requested; a failed generation ends the photo handler with its message and nothing is saved.
   */
  lemma GenerationFailureStops(m: Message, s: Services, image: seq<bv8>)
    requires Fetched(m, s, image)
    requires Vision.Recognize(s.visionReply(image), s.decodeItems).Ok?
    requires var items := Vision.Recognize(s.visionReply(image), s.decodeItems).value;
      Recipes.GenerateRecipe(s.generationReply(items), s.decodeRecipe).Err?
    ensures var items := Vision.Recognize(s.visionReply(image), s.decodeItems).value;
      PhotoTrace(m, s)[4..] ==
        [RequestRecognition(image),
         Send(m.chatId, RecognizedText(Recipes.NumberedFrom(items, 1)), false, NoMarkup),
         RequestGeneration(items),
         Send(m.chatId, GenerationFailedText, false, NoMarkup)]
    ensures !Saves(PhotoTrace(m, s))
  {
    FetchedThenRecognize(m, s, image);
    var items := Vision.Recognize(s.visionReply(image), s.decodeItems).value;
    var shown := Send(m.chatId, RecognizedText(Recipes.NumberedFrom(items, 1)), false, NoMarkup);
    var failed := Send(m.chatId, GenerationFailedText, false, NoMarkup);
    var r := RecognizeTrace(m, s, image);
    assert r == [RequestRecognition(image)] + ([shown, RequestGeneration(items)] + [failed]);
    assert r == [RequestRecognition(image), shown, RequestGeneration(items), failed];
    var t := PhotoTrace(m, s);
    assert t == t[..4] + r;
  }

  /**
   * A generated recipe is saved under the sender's user id before it is shown, and it is shown
   * whatever the save did: the photo handler ends with save, status removal and the rendered
   * recipe.
   */
  lemma SaveThenPresent(m: Message, s: Services, image: seq<bv8>)
    requires Fetched(m, s, image)
    requires Vision.Recognize(s.visionReply(image), s.decodeItems).Ok?
    requires var items := Vision.Recognize(s.visionReply(image), s.decodeItems).value;
      Recipes.GenerateRecipe(s.generationReply(items), s.decodeRecipe).Ok?
    ensures var items := Vision.Recognize(s.visionReply(image), s.decodeItems).value;
      var recipe := Recipes.GenerateRecipe(s.generationReply(items), s.decodeRecipe).value;
      var t := PhotoTrace(m, s);
      |t| == 10
      && t[7] == QuerySaveRecipe(s.userIdOf(m.from.id), recipe.title, Recipes.Rendered(recipe), recipe.ingredients)
      && t[8] == DeleteMessage(m.chatId, s.processingMessageId.GetOr(0))
      && t[9] == Send(m.chatId, Verbatim(Recipes.Rendered(recipe)), true, NoMarkup)
      && Recipes.Complete(recipe)
  {
    FetchedThenRecognize(m, s, image);
  }

  // ---------------------------------------------------------------------------------------------
  // handleUpdate

  /**
   * handleStartCommand: registers the sender, then sends the welcome text with a reply keyboard
   * (`StartGreets`); every label on that keyboard, sent back as text, reaches a handler.
   */
  function StartTrace(m: Message): (t: seq<Effect>)
    ensures |t| == 2 && t[1].Send? && t[1].markup.ReplyKeyboard?
    ensures forall row, caption :: row in t[1].markup.labels && caption in row ==>
      RouteOf(Update(Some(m.(command := None, photo := None, text := caption)), None)) in {HelpTextMessage, RecipesTextMessage}
  {
    [ResolveEffect(m.from),
     Send(m.chatId, WelcomeText(m.from.firstName), false, ReplyKeyboard([[HelpButton, RecipesButton]]))]
  }

  /**
   * handleHelpCommand: a press is answered exactly once and a typed command not at all; the
   * help text then goes out, in Markdown, to the chat the request came from.
   */
  function HelpTrace(u: Update): (t: seq<Effect>)
    requires u.callbackQuery.Some? || u.message.Some?
    ensures Answers(t) == (if u.callbackQuery.Some? then 1 else 0)
    ensures |t| > 0 && t[|t| - 1].Send? && t[|t| - 1].reply == HelpText && t[|t| - 1].markdown
    ensures t[|t| - 1].chatId == if u.callbackQuery.Some? then u.callbackQuery.value.chatId else u.message.value.chatId
  {
    if u.callbackQuery.Some? then
      var answer := AnswerCallback(u.callbackQuery.value.id);
      var t := [answer, Send(u.callbackQuery.value.chatId, HelpText, true, NoMarkup)];
      assert t[..1] == [answer] && [answer][..0] == [];
      assert Answers([answer]) == 1;
      t
    else
      var t := [Send(u.message.value.chatId, HelpText, true, NoMarkup)];
      assert t[..0] == [];
      t
  }

  /** handleUpdate's trace: the trace of the handler the route selects. */
  function UpdateTrace(u: Update, s: Services, maxRecipes: int): seq<Effect> {
    match RouteOf(u)
    case StartCommand => StartTrace(u.message.value)
    case HelpCommand => HelpTrace(u)
    case RecipesCommand => RecipesListTrace(u, s, maxRecipes)
    case UnknownCommand => [Send(u.message.value.chatId, UnknownCommandText, false, NoMarkup)]
    case PhotoMessage => PhotoTrace(u.message.value, s)
    case Callback => CallbackTrace(u, s, maxRecipes)
    case HelpTextMessage => HelpTrace(u)
    case RecipesTextMessage => RecipesListTrace(u, s, maxRecipes)
    case OtherText => [Send(u.message.value.chatId, HintText, false, NoMarkup)]
    case Ignored => []
  }

  method HandleUpdate(u: Update, s: Services, maxRecipes: int) returns (effects: seq<Effect>)
    ensures effects == UpdateTrace(u, s, maxRecipes)
  {
    if u.message.Some? && u.message.value.command.Some? {
      var m := u.message.value;
      match m.command.value {
        case "start" =>
          effects := [ResolveEffect(m.from)];
          effects := effects + [Send(m.chatId, WelcomeText(m.from.firstName), false, ReplyKeyboard([[HelpButton, RecipesButton]]))];
        case "help" =>
          effects := HandleHelpCommand(u);
        case "recipes" =>
          effects := HandleRecipesCommand(u, s, maxRecipes);
        case _ =>
          effects := [Send(m.chatId, UnknownCommandText, false, NoMarkup)];
      }
      return;
    }
    if u.message.Some? && u.message.value.photo.Some? {
      effects := HandlePhotoMessage(u.message.value, s);
      return;
    }
    if u.callbackQuery.Some? {
      effects := HandleCallbackQuery(u, s, maxRecipes);
      return;
    }
    effects := [];
    if u.message.Some? && u.message.value.text != "" {
      var m := u.message.value;
      if m.text == HelpButton {
        effects := HandleHelpCommand(u);
      } else if m.text == RecipesButton {
        effects := HandleRecipesCommand(u, s, maxRecipes);
      } else {
        effects := [Send(m.chatId, HintText, false, NoMarkup)];
      }
    }
  }

  method HandleHelpCommand(u: Update) returns (effects: seq<Effect>)
    requires u.callbackQuery.Some? || u.message.Some?
    ensures effects == HelpTrace(u)
  {
    if u.callbackQuery.Some? {
      effects := [AnswerCallback(u.callbackQuery.value.id)];
      effects := effects + [Send(u.callbackQuery.value.chatId, HelpText, true, NoMarkup)];
    } else {
      effects := [Send(u.message.value.chatId, HelpText, true, NoMarkup)];
    }
  }

  /** An update with nothing to route produces no effect at all. */
  lemma IgnoredUpdateIsSilent(u: Update, s: Services, maxRecipes: int)
    requires RouteOf(u) == Ignored
    ensures UpdateTrace(u, s, maxRecipes) == []
  {
  }

  /**
   * The reply keyboard /start installs carries the two labels; sending a label does what the
   * matching command does: "Помощь" what /help does, "Мои рецепты" what /recipes does.
   */
  lemma KeyboardLabelsActAsCommands(m: Message, s: Services, maxRecipes: int)
    requires m.command.None? && m.photo.None?
    ensures StartTrace(m)[1].markup == ReplyKeyboard([[HelpButton, RecipesButton]])
    ensures UpdateTrace(Update(Some(m.(text := HelpButton)), None), s, maxRecipes)
         == UpdateTrace(Update(Some(m.(command := Some("help"))), None), s, maxRecipes)
    ensures UpdateTrace(Update(Some(m.(text := RecipesButton)), None), s, maxRecipes)
         == UpdateTrace(Update(Some(m.(command := Some("recipes"))), None), s, maxRecipes)
  {
  }

  /** A command other than start, help and recipes gets only the unknown-command reply. */
  lemma UnknownCommandReply(m: Message, cb: Option<CallbackQuery>, s: Services, maxRecipes: int)
    requires m.command.Some? && m.command.value !in {"start", "help", "recipes"}
    ensures UpdateTrace(Update(Some(m), cb), s, maxRecipes) == [Send(m.chatId, UnknownCommandText, false, NoMarkup)]
  {
  }

  /** Text that is neither label, with no command, photo or press, gets only the hint. */
  lemma OtherTextGetsHint(m: Message, s: Services, maxRecipes: int)
    requires m.command.None? && m.photo.None? && m.text != "" && m.text != HelpButton && m.text != RecipesButton
    ensures UpdateTrace(Update(Some(m), None), s, maxRecipes) == [Send(m.chatId, HintText, false, NoMarkup)]
  {
  }

  /** /start registers the sender and greets them by first name, before the reply keyboard. */
  lemma StartGreets(m: Message, cb: Option<CallbackQuery>, s: Services, maxRecipes: int)
    requires m.command == Some("start")
    ensures var t := UpdateTrace(Update(Some(m), cb), s, maxRecipes);
      |t| == 2 && t[0] == ResolveEffect(m.from) && t[1].Send? && t[1].chatId == m.chatId
      && t[1].reply == WelcomeText(m.from.firstName)
  {
  }


  /** The welcome text opens by greeting the user by first name. */
  lemma WelcomeGreets(firstName: string)
    ensures HasPrefix(Render(WelcomeText(firstName)), "Здравствуйте, " + firstName + "!")
  {
    var greeting := "Здравствуйте, " + firstName + "!";
    var text := Render(WelcomeText(firstName));
    assert text == greeting + text[|greeting|..];
  }

  /** The recognised-items message opens with its header followed by the numbered items. */
  lemma RecognizedShowsItems(itemsList: string)
    ensures HasPrefix(Render(RecognizedText(itemsList)), "Распознанные продукты:\n" + itemsList)
  {
    var shown := "Распознанные продукты:\n" + itemsList;
    PrefixOfConcat(shown, "\n\nГенерирую рецепт...");
  }
}
