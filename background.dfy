/** The background service worker (src/background/background.js): the two
    lookup tables, the classification of an OpenAI chat-completion outcome,
    the API-key lookup, the shaping of a dictionary entry into its Japanese
    form, and the dispatch of the messages the content script sends. Every
    network and storage access is an input: an `Env` holds what each read
    and each request would return. */
module Background {
  import opened Wrappers
  import opened Strings

  // ---------------------------------------------------------------------
  // translatePartOfSpeech

  /** The label table of `translatePartOfSpeech`. */
  function PartOfSpeechLabel(key: string): Option<string> {
    match key
    case "noun" => Some("名詞")
    case "verb" => Some("動詞")
    case "adjective" => Some("形容詞")
    case "adverb" => Some("副詞")
    case "preposition" => Some("前置詞")
    case "pronoun" => Some("代名詞")
    case "conjunction" => Some("接続詞")
    case "interjection" => Some("感嘆詞")
    case "determiner" => Some("限定詞")
    case _ => None
  }

  /** `translatePartOfSpeech`: the Japanese label of a known tag, whatever its
      case; any other tag as given. */
  function TranslatePartOfSpeech(pos: string): string {
    var translated := PartOfSpeechLabel(ToLower(pos));
    if translated.Some? && translated.value != "" then translated.value else pos
  }

  /** A known tag gets its label in any case; an unknown tag comes back
      unchanged, in its original case. */
  lemma PartOfSpeechCases(pos: string)
    ensures PartOfSpeechLabel(ToLower(pos)).Some? ==>
      && TranslatePartOfSpeech(pos) == PartOfSpeechLabel(ToLower(pos)).value
      && TranslatePartOfSpeech(pos) == TranslatePartOfSpeech(ToLower(pos))
    ensures PartOfSpeechLabel(ToLower(pos)).None? ==> TranslatePartOfSpeech(pos) == pos
  {
    ToLowerIdempotent(pos);
  }

  // ---------------------------------------------------------------------
  // simpleTranslate

  /** The table of `simpleTranslate`; the articles map to the empty string. */
  function SimpleEntry(key: string): Option<string> {
    match key
    case "hello" => Some("こんにちは")
    case "world" => Some("世界")
    case "good" => Some("良い")
    case "bad" => Some("悪い")
    case "yes" => Some("はい")
    case "no" => Some("いいえ")
    case "thank you" => Some("ありがとう")
    case "please" => Some("お願いします")
    case "sorry" => Some("すみません")
    case "excuse me" => Some("すみません")
    case "the" => Some("")
    case "a" => Some("")
    case "an" => Some("")
    case "and" => Some("と")
    case "or" => Some("または")
    case "but" => Some("しかし")
    case "is" => Some("です")
    case "are" => Some("です")
    case "was" => Some("でした")
    case "were" => Some("でした")
    case _ => None
  }

  const SimplePrefix := "[翻訳] "

  /** `simpleTranslate`: the table entry for the whole lower-cased text when
      it is not empty, else the text behind a marker. */
  function SimpleTranslate(text: string): (r: string)
    ensures r != []
    ensures SimpleEntry(ToLower(text)).Some? && SimpleEntry(ToLower(text)).value != "" ==>
      r == SimpleEntry(ToLower(text)).value
    ensures SimpleEntry(ToLower(text)).None? || SimpleEntry(ToLower(text)) == Some("") ==>
      r == SimplePrefix + text
  {
    var entry := SimpleEntry(ToLower(text));
    if entry.Some? && entry.value != "" then entry.value else SimplePrefix + text
  }

  /** The articles map to the empty string, which counts as missing, so they
      fall through to the marker like unknown text, original case kept. */
  lemma ArticlesFallThrough()
    ensures SimpleTranslate("The") == SimplePrefix + "The"
    ensures SimpleTranslate("an") == SimplePrefix + "an"
    ensures SimpleTranslate("Hello") == "こんにちは"
  {
    CapitalArticle();
    LowerArticle();
    CapitalGreeting();
  }

  lemma CapitalArticle()
    ensures SimpleTranslate("The") == SimplePrefix + "The"
  {
    assert ToLower("The") == "the";
  }

  lemma LowerArticle()
    ensures SimpleTranslate("an") == SimplePrefix + "an"
  {
    assert ToLower("an") == "an";
  }

  lemma CapitalGreeting()
    ensures SimpleTranslate("Hello") == "こんにちは"
  {
    assert ToLower("Hello") == "hello";
  }

  // ---------------------------------------------------------------------
  // translateWithOpenAI

  /** `choices[0].message` of a parsed reply; `content` may be null. */
  datatype ChatMessage = ChatMessage(content: Option<string>)

  /** The body of an HTTP response: not JSON (with the parser's message), or
      JSON with an optional `error.message` and an optional first message. */
  datatype ChatBody = Malformed(parseError: string) | ChatJson(errorMessage: Option<string>, message: Option<ChatMessage>)

  /** What `fetch` does: it throws, or it yields a status and a body. */
  datatype HttpOutcome = FetchFailed(error: string) | HttpReply(status: nat, body: ChatBody)

  const ApiKeyMissing := "API key not configured"
  const ServiceUnavailable := "OpenAI service temporarily unavailable (503)"
  const RateLimitExceeded := "Rate limit exceeded (429)"
  const InvalidFormat := "Invalid response format from OpenAI"
  const UnknownError := "Unknown error"
  /** The message a JavaScript engine gives a `TypeError` raised by reading
      `property` off `value` (as V8 words it). */
  function ReadPropertyError(value: string, property: string): string {
    "Cannot read properties of " + value + " (reading '" + property + "')"
  }

  /** What reading `trim` off a null `content` throws. */
  const NullContent := ReadPropertyError("null", "trim")

  predicate IsOk(status: nat) {
    200 <= status <= 299
  }

  /** `errorData.error?.message || 'Unknown error'`, where an unreadable body gives `{}`. */
  function ErrorDetail(body: ChatBody): string {
    if body.ChatJson? && body.errorMessage.Some? && body.errorMessage.value != "" then body.errorMessage.value
    else UnknownError
  }

  function ApiErrorMessage(status: nat, detail: string): string {
    "OpenAI API error: " + NatToString(status) + " - " + detail
  }

  /** The `try` block of `translateWithOpenAI`: the trimmed translation, or
      the message of the error it throws. The request is made only with a key. */
  function OpenAIRequest(key: Option<string>, text: string, api: (string, string) -> HttpOutcome): (r: Result<string, string>)
    ensures r.Ok? ==> Trim(r.value) == r.value
  {
    if key.None? || key.value == "" then Err(ApiKeyMissing)
    else match api(key.value, text)
      case FetchFailed(error) => Err(error)
      case HttpReply(status, body) =>
        if status == 503 then Err(ServiceUnavailable)
        else if status == 429 then Err(RateLimitExceeded)
        else if !IsOk(status) then Err(ApiErrorMessage(status, ErrorDetail(body)))
        else match body
          case Malformed(parseError) => Err(parseError)
          case ChatJson(_, message) =>
            if message.None? then Err(InvalidFormat)
            else if message.value.content.None? then Err(NullContent)
            else
              TrimIdempotent(message.value.content.value);
              Ok(Trim(message.value.content.value))
  }

  /** What the `catch` block rethrows: the two localised messages, chosen by
      looking for "503" first and "429" second anywhere in the message, or
      the error itself. */
  datatype OpenAIError = Unavailable | RateLimited | Rethrown(message: string)

  function Reclassify(message: string): OpenAIError {
    if Contains(message, "503") then Unavailable
    else if Contains(message, "429") then RateLimited
    else Rethrown(message)
  }

  const UnavailableMessage := "OpenAIサービスが一時的に利用できません。しばらく待ってから再試行してください。"
  const RateLimitedMessage := "API使用量の上限に達しました。しばらく待ってから再試行してください。"

  /** The message of the error `translateWithOpenAI` throws. */
  function ErrorMessage(e: OpenAIError): string {
    match e
    case Unavailable => UnavailableMessage
    case RateLimited => RateLimitedMessage
    case Rethrown(message) => message
  }

  /** The message thrown for an error message caught: the unavailable
      message when it mentions 503, else the rate-limit message when it
      mentions 429, else the message itself. */
  lemma ThrownMessage(message: string)
    ensures Contains(message, "503") ==> ErrorMessage(Reclassify(message)) == UnavailableMessage
    ensures !Contains(message, "503") && Contains(message, "429") ==>
      ErrorMessage(Reclassify(message)) == RateLimitedMessage
    ensures !Contains(message, "503") && !Contains(message, "429") ==>
      ErrorMessage(Reclassify(message)) == message
  {
  }

  /** The object `translateWithOpenAI` returns when it does not throw. */
  datatype OpenAIResult = OpenAIResult(success: bool, translation: string, methodName: string)

  /** `translateWithOpenAI`: it returns a successful result or throws. */
  function TranslateWithOpenAI(key: Option<string>, text: string, api: (string, string) -> HttpOutcome)
    : (r: Result<OpenAIResult, OpenAIError>)
    ensures r.Ok? ==> r.value.success && r.value.methodName == "openai"
    ensures r.Ok? ==> Trim(r.value.translation) == r.value.translation
  {
    match OpenAIRequest(key, text, api)
    case Ok(translation) => Ok(OpenAIResult(true, translation, "openai"))
    case Err(message) => Err(Reclassify(message))
  }

  predicate DigitFree(s: string) {
    forall i :: 0 <= i < |s| ==> !IsDigit(s[i])
  }

  /** A message with no digits at all contains no string of digits. */
  lemma {:induction false} NoDigitNoContains(s: string, p: string)
    requires p != [] && forall i :: 0 <= i < |p| ==> IsDigit(p[i])
    requires DigitFree(s)
    ensures !Contains(s, p)
    decreases |s|
  {
    if |s| >= |p| {
      assert s[..|p|][0] == s[0];
      NoDigitNoContains(s[1..], p);
    }
  }

  /** A message with no digits is rethrown as it is. */
  lemma DigitFreeRethrown(s: string)
    requires DigitFree(s)
    ensures Reclassify(s) == Rethrown(s)
  {
    Code503();
    NoDigitNoContains(s, NatToString(503));
    NoDigitNoContains(s, NatToString(429));
  }

  /** A three-digit status contains a three-digit code only when it is that code. */
  lemma ThreeDigitStatus(n: nat, code: nat)
    requires 100 <= n < 1000 && 100 <= code < 1000
    ensures Contains(NatToString(n), NatToString(code)) <==> n == code
  {
    ThreeDigits(n);
    ThreeDigits(code);
    var s, p := NatToString(n), NatToString(code);
    assert s[1..] != [] && |s[1..]| < |p|;
    assert Contains(s, p) <==> s == p;
    if s == p {
      assert n / 100 == code / 100 && n / 10 % 10 == code / 10 % 10 && n % 10 == code % 10;
    }
  }

  lemma Code503()
    ensures NatToString(503) == "503" && NatToString(429) == "429"
  {
    ThreeDigits(503);
    ThreeDigits(429);
  }

  /** Which codes the message of an API error mentions: those its status is
      and those its detail mentions. */
  lemma {:induction false} ApiErrorMentions(status: nat, detail: string, code: nat)
    requires 100 <= status < 1000 && 100 <= code < 1000
    ensures Contains(ApiErrorMessage(status, detail), NatToString(code)) <==>
      status == code || Contains("- " + detail, NatToString(code))
  {
    var p := NatToString(code);
    var x := "OpenAI API error:";
    var y := NatToString(status) + " - " + detail;
    assert ApiErrorMessage(status, detail) == x + [' '] + y;
    ContainsAroundNonDigit(x, ' ', y, p);
    NoDigitNoContains(x, p);
    assert y == NatToString(status) + [' '] + ("- " + detail);
    ContainsAroundNonDigit(NatToString(status), ' ', "- " + detail, p);
    ThreeDigitStatus(status, code);
  }

  /** A detail prefixed with "- " mentions a code exactly when the detail does. */
  lemma DashPrefix(detail: string, code: nat)
    requires 100 <= code < 1000
    ensures Contains("- " + detail, NatToString(code)) <==> Contains(detail, NatToString(code))
  {
    var p := NatToString(code);
    assert "- " + detail == "-" + [' '] + detail;
    ContainsAroundNonDigit("-", ' ', detail, p);
    NoDigitNoContains("-", p);
  }

  lemma KeyMissingDigitFree()
    ensures DigitFree(ApiKeyMissing)
  {
  }

  lemma KeyMissingRethrown()
    ensures Reclassify(ApiKeyMissing) == Rethrown(ApiKeyMissing)
  {
    KeyMissingDigitFree();
    DigitFreeRethrown(ApiKeyMissing);
  }

  /** Without a key no request is made and the error is the missing key. */
  lemma MissingKeyOutcome(key: Option<string>, text: string, api: (string, string) -> HttpOutcome)
    requires key.None? || key.value == ""
    ensures TranslateWithOpenAI(key, text, api) == Err(Rethrown(ApiKeyMissing))
  {
    assert OpenAIRequest(key, text, api) == Err(ApiKeyMissing);
    KeyMissingRethrown();
  }

  /** A message whose only digits are the run `d`, set off by non-digits,
      mentions a code exactly when `d` does. */
  lemma {:induction false} DigitsSetOff(x: string, c: char, d: string, e: char, y: string, p: string)
    requires p != [] && forall i :: 0 <= i < |p| ==> IsDigit(p[i])
    requires DigitFree(x) && DigitFree(y) && !IsDigit(c) && !IsDigit(e)
    ensures Contains(x + [c] + d + [e] + y, p) <==> Contains(d, p)
  {
    assert x + [c] + d + [e] + y == x + [c] + (d + [e] + y);
    ContainsAroundNonDigit(x, c, d + [e] + y, p);
    ContainsAroundNonDigit(d, e, y, p);
    NoDigitNoContains(x, p);
    NoDigitNoContains(y, p);
  }

  lemma UnavailableReclassified()
    ensures Reclassify(ServiceUnavailable) == Unavailable
  {
    assert ServiceUnavailable[40..43] == "503";
    ContainsAt(ServiceUnavailable, "503", 40);
  }

  lemma RateLimitNot503()
    ensures !Contains(RateLimitExceeded, "503")
  {
    var front := "Rate limit exceeded ";
    assert DigitFree(front);
    assert RateLimitExceeded == front + ['('] + "429" + [')'] + [];
    Code503();
    DigitsSetOff(front, '(', "429", ')', [], "503");
    ThreeDigitStatus(429, 503);
  }

  lemma RateLimitMentions429()
    ensures Contains(RateLimitExceeded, "429")
  {
    assert RateLimitExceeded[21..24] == "429";
    ContainsAt(RateLimitExceeded, "429", 21);
  }

  lemma RateLimitReclassified()
    ensures Reclassify(RateLimitExceeded) == RateLimited
  {
    RateLimitNot503();
    RateLimitMentions429();
  }

  /** Status 503 reports the service as unavailable and status 429 the rate limit. */
  lemma StatusCodeOutcomes(key: string, text: string, api: (string, string) -> HttpOutcome)
    requires key != "" && api(key, text).HttpReply?
    ensures api(key, text).status == 503 ==> TranslateWithOpenAI(Some(key), text, api) == Err(Unavailable)
    ensures api(key, text).status == 429 ==> TranslateWithOpenAI(Some(key), text, api) == Err(RateLimited)
  {
    var status := api(key, text).status;
    if status == 503 {
      assert OpenAIRequest(Some(key), text, api) == Err(ServiceUnavailable);
      UnavailableReclassified();
    } else if status == 429 {
      assert OpenAIRequest(Some(key), text, api) == Err(RateLimitExceeded);
      RateLimitReclassified();
    }
  }

  /** A request that never gets a reply is caught like any other error: its
      message is reclassified, and one without digits is rethrown as it is. */
  lemma FetchFailedOutcome(key: string, text: string, api: (string, string) -> HttpOutcome)
    requires key != "" && api(key, text).FetchFailed?
    ensures TranslateWithOpenAI(Some(key), text, api) == Err(Reclassify(api(key, text).error))
    ensures DigitFree(api(key, text).error) ==>
      TranslateWithOpenAI(Some(key), text, api) == Err(Rethrown(api(key, text).error))
  {
    if DigitFree(api(key, text).error) {
      DigitFreeRethrown(api(key, text).error);
    }
  }

  /** A successful status yields the trimmed content of the first message;
      a reply without a first message is an invalid format; a null content
      and an unreadable body are rethrown as they are, unless the parser's
      message happens to mention 503 or 429. */
  lemma SuccessStatusOutcomes(key: string, text: string, api: (string, string) -> HttpOutcome)
    requires key != "" && api(key, text).HttpReply? && IsOk(api(key, text).status)
    ensures var body := api(key, text).body;
      var r := TranslateWithOpenAI(Some(key), text, api);
      && (body.Malformed? ==> r == Err(Reclassify(body.parseError)))
      && (body.ChatJson? && body.message.None? ==> r == Err(Rethrown(InvalidFormat)))
      && (body.ChatJson? && body.message.Some? && body.message.value.content.None? ==>
            r == Err(Rethrown(NullContent)))
      && (body.ChatJson? && body.message.Some? && body.message.value.content.Some? ==>
            r == Ok(OpenAIResult(true, Trim(body.message.value.content.value), "openai")))
  {
    var body := api(key, text).body;
    if body.ChatJson? && body.message.None? {
      assert OpenAIRequest(Some(key), text, api) == Err(InvalidFormat);
      InvalidFormatRethrown();
    } else if body.ChatJson? && body.message.Some? && body.message.value.content.None? {
      assert OpenAIRequest(Some(key), text, api) == Err(NullContent);
      NullContentRethrown();
    } else if body.Malformed? {
      assert OpenAIRequest(Some(key), text, api) == Err(body.parseError);
    } else {
      assert OpenAIRequest(Some(key), text, api) == Ok(Trim(body.message.value.content.value));
    }
  }

  lemma InvalidFormatDigitFree()
    ensures DigitFree(InvalidFormat)
  {
  }

  lemma InvalidFormatRethrown()
    ensures Reclassify(InvalidFormat) == Rethrown(InvalidFormat)
  {
    InvalidFormatDigitFree();
    DigitFreeRethrown(InvalidFormat);
  }

  lemma DigitFreeConcat(a: string, b: string)
    requires DigitFree(a) && DigitFree(b)
    ensures DigitFree(a + b)
  {
    assert forall i :: |a| <= i < |a + b| ==> (a + b)[i] == b[i - |a|];
  }

  lemma ReadPropertyTemplateDigitFree()
    ensures DigitFree("Cannot read properties of ") && DigitFree(" (reading '") && DigitFree("')")
  {
  }

  /** The engine's message has no digits of its own. */
  lemma ReadPropertyDigitFree(value: string, property: string)
    requires DigitFree(value) && DigitFree(property)
    ensures DigitFree(ReadPropertyError(value, property))
  {
    ReadPropertyTemplateDigitFree();
    DigitFreeConcat("Cannot read properties of ", value);
    DigitFreeConcat("Cannot read properties of " + value, " (reading '");
    DigitFreeConcat("Cannot read properties of " + value + " (reading '", property);
    DigitFreeConcat("Cannot read properties of " + value + " (reading '" + property, "')");
  }

  lemma NullContentDigitFree()
    ensures DigitFree(NullContent)
  {
    assert DigitFree("null") && DigitFree("trim");
    ReadPropertyDigitFree("null", "trim");
  }

  lemma NullContentRethrown()
    ensures Reclassify(NullContent) == Rethrown(NullContent)
  {
    NullContentDigitFree();
    DigitFreeRethrown(NullContent);
  }

  /** Any other failing status is an API error carrying the status and the
      detail, unless the detail happens to mention 503 or 429: then the error
      is reported as the service being unavailable or as the rate limit. */
  lemma ApiErrorOutcome(key: string, text: string, api: (string, string) -> HttpOutcome)
    requires key != "" && api(key, text).HttpReply?
    requires var status := api(key, text).status;
      100 <= status < 1000 && !IsOk(status) && status != 503 && status != 429
    ensures var HttpReply(status, body) := api(key, text);
      var detail := ErrorDetail(body);
      TranslateWithOpenAI(Some(key), text, api) ==
        if Contains(detail, "503") then Err(Unavailable)
        else if Contains(detail, "429") then Err(RateLimited)
        else Err(Rethrown(ApiErrorMessage(status, detail)))
  {
    var HttpReply(status, body) := api(key, text);
    var detail := ErrorDetail(body);
    Code503();
    ApiErrorMentions(status, detail, 503);
    ApiErrorMentions(status, detail, 429);
    DashPrefix(detail, 503);
    DashPrefix(detail, 429);
  }

  lemma TokensNot503()
    ensures !Contains("max 429 tokens", "503")
  {
    assert DigitFree("max") && DigitFree("tokens");
    assert "max 429 tokens" == "max" + [' '] + "429" + [' '] + "tokens";
    Code503();
    DigitsSetOff("max", ' ', "429", ' ', "tokens", "503");
    ThreeDigitStatus(429, 503);
  }

  lemma TokensMention429()
    ensures Contains("max 429 tokens", "429")
  {
    assert "max 429 tokens"[4..7] == "429";
    ContainsAt("max 429 tokens", "429", 4);
  }

  lemma TokensDetail()
    ensures Reclassify("max 429 tokens") == RateLimited
  {
    TokensNot503();
    TokensMention429();
  }

  /** A rejected request whose detail mentions 429 is reported as the rate
      limit even though the status says otherwise. */
  lemma BadRequestMentioning429()
    ensures var api := (k: string, t: string) => HttpReply(400, ChatJson(Some("max 429 tokens"), None));
      TranslateWithOpenAI(Some("sk"), "hi", api) == Err(RateLimited)
  {
    var api := (k: string, t: string) => HttpReply(400, ChatJson(Some("max 429 tokens"), None));
    assert api("sk", "hi") == HttpReply(400, ChatJson(Some("max 429 tokens"), None));
    assert ErrorDetail(api("sk", "hi").body) == "max 429 tokens";
    TokensDetail();
    ApiErrorOutcome("sk", "hi", api);
  }

  // ---------------------------------------------------------------------
  // getOpenAIKey

  /** What one `chrome.storage.*.get(['elaSettings'])` yields: it throws, or
      it yields the stored `elaSettings.apiKey` when there is one. */
  datatype StorageRead = ReadFailed | ReadOk(apiKey: Option<string>)

  predicate HasKey(r: StorageRead) {
    r.ReadOk? && r.apiKey.Some? && r.apiKey.value != ""
  }

  /** The key `getOpenAIKey` finds: the local one when set, otherwise the
      synchronised one when set, otherwise none; a read that throws gives none. */
  function StoredKey(local: StorageRead, sync: StorageRead): (key: Option<string>)
    ensures key.Some? ==> key.value != ""
    ensures HasKey(local) ==> key == Some(local.apiKey.value)
    ensures local.ReadFailed? ==> key == None
    ensures local.ReadOk? && !HasKey(local) ==> key == (if HasKey(sync) then Some(sync.apiKey.value) else None)
  {
    if local.ReadFailed? then None
    else if HasKey(local) then Some(local.apiKey.value)
    else if HasKey(sync) then Some(sync.apiKey.value)
    else None
  }

  /** `getOpenAIKey`: read local storage, fall back to sync storage. */
  method GetOpenAIKey(local: StorageRead, sync: StorageRead) returns (key: Option<string>)
    ensures key == StoredKey(local, sync)
  {
    if local.ReadFailed? {
      return None;
    }
    var result := local;
    if !HasKey(result) {
      result := sync;
      if result.ReadFailed? {
        return None;
      }
    }
    if HasKey(result) {
      return Some(result.apiKey.value);
    }
    return None;
  }

  // ---------------------------------------------------------------------
  // Dictionary entries

  datatype Definition = Definition(definition: string, example: Option<string>)
  datatype Meaning = Meaning(partOfSpeech: Option<string>, definitions: Option<seq<Definition>>)
  /** A dictionary entry; the Japanese form has the same shape. */
  datatype Entry = Entry(word: string, phonetic: Option<string>, meanings: Option<seq<Meaning>>)

  /** What the dictionary request does: it throws, or yields a status and a
      body that is an array of entries or cannot be read. */
  datatype DictResponse = DictFailed | DictReply(status: nat, entries: Option<seq<Entry>>)

  /** Everything the background worker reads from outside. */
  datatype Env = Env(
    local: StorageRead, sync: StorageRead,
    openai: (string, string) -> HttpOutcome,
    dictionary: string -> DictResponse)

  /** A reply to the content script. */
  datatype Response = Translated(translation: string, methodName: string) | DefinitionFound(definition: Entry) | Failure(error: string)

  const TranslationFailed := "翻訳に失敗しました"
  const NoDictionaryData := "辞書データが見つかりません"
  const UnknownMessageType := "Unknown message type"

  // ---------------------------------------------------------------------
  // translateText

  /** What `translateText` answers: the OpenAI result when it succeeds, the
      table fallback when it returns without success, and a failure when it
      throws. */
  function TextTranslation(text: string, env: Env): Response {
    match TranslateWithOpenAI(StoredKey(env.local, env.sync), text, env.openai)
    case Ok(result) =>
      if result.success then Translated(result.translation, result.methodName)
      else Translated(SimpleTranslate(text), "simple")
    case Err(_) => Failure(TranslationFailed)
  }

  /** `translateWithOpenAI` never returns without success, so the table
      fallback is never used: a translation comes from OpenAI or there is none. */
  lemma TranslationNeverSimple(text: string, env: Env)
    ensures var r := TextTranslation(text, env);
      && (r.Translated? || r == Failure(TranslationFailed))
      && (r.Translated? ==> r.methodName == "openai" && Trim(r.translation) == r.translation)
  {
  }

  /** Without a key every translation fails, whatever the network would do. */
  lemma NoKeyNoTranslation(text: string, env: Env)
    requires StoredKey(env.local, env.sync) == None
    ensures TextTranslation(text, env) == Failure(TranslationFailed)
  {
  }

  /** `translateText`. */
  method TranslateText(text: string, env: Env) returns (r: Response)
    ensures r == TextTranslation(text, env)
  {
    var apiKey := GetOpenAIKey(env.local, env.sync);
    var openaiResult := TranslateWithOpenAI(apiKey, text, env.openai);
    if openaiResult.Err? {
      return Failure(TranslationFailed);
    }
    if openaiResult.value.success {
      return Translated(openaiResult.value.translation, openaiResult.value.methodName);
    }
    var simpleResult := SimpleTranslate(text);
    return Translated(simpleResult, "simple");
  }

  // ---------------------------------------------------------------------
  // translateDefinitionToJapanese

  /** The translation when the translator succeeded, the English otherwise. */
  function TranslatedOr(r: Response, english: string): string {
    if r.Translated? then r.translation else english
  }

  /** One definition in Japanese: the example is `''` when there is none. */
  function TranslateDefinition(d: Definition, env: Env): Definition {
    Definition(
      TranslatedOr(TextTranslation(d.definition, env), d.definition),
      Some(if d.example.Some? && d.example.value != ""
           then TranslatedOr(TextTranslation(d.example.value, env), d.example.value)
           else ""))
  }

  function TranslateDefinitions(ds: seq<Definition>, env: Env): (r: seq<Definition>)
    ensures |r| == |ds|
  {
    if ds == [] then []
    else TranslateDefinitions(ds[..|ds| - 1], env) + [TranslateDefinition(ds[|ds| - 1], env)]
  }

  /** A meaning can be translated without throwing: it has a part of speech
      and a list of definitions. */
  predicate MeaningOk(m: Meaning) {
    m.partOfSpeech.Some? && m.definitions.Some?
  }


  /** The first two definitions of a meaning, translated, and its part of speech labelled. */
  function TranslateMeaning(m: Meaning, env: Env): Meaning
    requires MeaningOk(m)
  {
    var ds := m.definitions.value;
    Meaning(Some(TranslatePartOfSpeech(m.partOfSpeech.value)),
            Some(TranslateDefinitions(ds[..Min(2, |ds|)], env)))
  }

  function TranslateMeanings(ms: seq<Meaning>, env: Env): (r: seq<Meaning>)
    requires forall i :: 0 <= i < |ms| ==> MeaningOk(ms[i])
    ensures |r| == |ms|
  {
    if ms == [] then []
    else TranslateMeanings(ms[..|ms| - 1], env) + [TranslateMeaning(ms[|ms| - 1], env)]
  }

  /** The work `translateDefinitionToJapanese` can do without throwing: the
      entry has meanings and the first two of them are well formed. */
  predicate Translatable(e: Entry) {
    e.meanings.Some? &&
    var ms := e.meanings.value;
    forall i :: 0 <= i < Min(2, |ms|) ==> MeaningOk(ms[i])
  }

  /** What `translateDefinitionToJapanese` yields: the English entry when it
      throws, else the word, the phonetic (`''` when missing) and the first
      two meanings with their first two definitions each, translated. */
  function JapaneseDefinition(e: Entry, env: Env): Entry {
    if !Translatable(e) then e
    else
      var ms := e.meanings.value;
      Entry(e.word, Some(if e.phonetic.Some? then e.phonetic.value else ""),
            Some(TranslateMeanings(ms[..Min(2, |ms|)], env)))
  }

  /** A definition keeps its English text wherever the translator fails, and
      always has an example, `''` when the English one is missing or empty. */
  lemma TranslateDefinitionFallback(d: Definition, env: Env)
    ensures var t := TranslateDefinition(d, env);
      && (TextTranslation(d.definition, env).Failure? ==> t.definition == d.definition)
      && t.example.Some?
      && (d.example.None? || d.example.value == "" ==> t.example == Some(""))
      && (d.example.Some? && TextTranslation(d.example.value, env).Failure? ==> t.example == d.example)
  {
  }

  lemma {:induction false} TranslateDefinitionsAt(ds: seq<Definition>, env: Env, k: nat)
    requires k < |ds|
    ensures TranslateDefinitions(ds, env)[k] == TranslateDefinition(ds[k], env)
  {
    if k < |ds| - 1 {
      TranslateDefinitionsAt(ds[..|ds| - 1], env, k);
    }
  }

  lemma {:induction false} TranslateMeaningsAt(ms: seq<Meaning>, env: Env, k: nat)
    requires forall i :: 0 <= i < |ms| ==> MeaningOk(ms[i])
    requires k < |ms|
    ensures TranslateMeanings(ms, env)[k] == TranslateMeaning(ms[k], env)
  {
    if k < |ms| - 1 {
      TranslateMeaningsAt(ms[..|ms| - 1], env, k);
    }
  }

  /** The Japanese entry keeps the word, and its phonetic is the English one
      or `''` when that is missing or empty; it is the English entry when the
      source would throw, and otherwise holds the first two meanings, each
      with its part of speech labelled and its first two definitions, each
      translated. */
  lemma JapaneseDefinitionShape(e: Entry, env: Env, k: nat, j: nat)
    ensures JapaneseDefinition(e, env).word == e.word
    ensures Translatable(e) ==>
      JapaneseDefinition(e, env).phonetic
        == Some(if e.phonetic.Some? && e.phonetic.value != "" then e.phonetic.value else "")
    ensures !Translatable(e) ==> JapaneseDefinition(e, env) == e
    ensures Translatable(e) ==>
      && JapaneseDefinition(e, env).meanings.Some?
      && |JapaneseDefinition(e, env).meanings.value| == Min(2, |e.meanings.value|)
    ensures Translatable(e) && k < Min(2, |e.meanings.value|) ==>
      && JapaneseDefinition(e, env).meanings.value[k].partOfSpeech
           == Some(TranslatePartOfSpeech(e.meanings.value[k].partOfSpeech.value))
      && JapaneseDefinition(e, env).meanings.value[k].definitions.Some?
      && |JapaneseDefinition(e, env).meanings.value[k].definitions.value|
           == Min(2, |e.meanings.value[k].definitions.value|)
      && (j < Min(2, |e.meanings.value[k].definitions.value|) ==>
            JapaneseDefinition(e, env).meanings.value[k].definitions.value[j]
              == TranslateDefinition(e.meanings.value[k].definitions.value[j], env))
  {
    if Translatable(e) && k < Min(2, |e.meanings.value|) {
      var ms := e.meanings.value[..Min(2, |e.meanings.value|)];
      TranslateMeaningsAt(ms, env, k);
      var ds := ms[k].definitions.value;
      if j < Min(2, |ds|) {
        TranslateDefinitionsAt(ds[..Min(2, |ds|)], env, j);
      }
    }
  }

  /** The body of the inner loop: one definition and its example, translated. */
  method TranslateOneDefinition(def: Definition, env: Env) returns (d: Definition)
    ensures d == TranslateDefinition(def, env)
  {
    var translatedDef := TranslateText(def.definition, env);
    var definition := TranslatedOr(translatedDef, def.definition);
    var example := "";
    if def.example.Some? && def.example.value != "" {
      var translatedExample := TranslateText(def.example.value, env);
      example := TranslatedOr(translatedExample, def.example.value);
    }
    d := Definition(definition, Some(example));
  }

  /** The inner loop: one translated definition pushed per definition. */
  method TranslateDefinitionList(ds: seq<Definition>, env: Env) returns (definitions: seq<Definition>)
    ensures definitions == TranslateDefinitions(ds, env)
  {
    definitions := [];
    for j := 0 to |ds|
      invariant definitions == TranslateDefinitions(ds[..j], env)
    {
      var definition := TranslateOneDefinition(ds[j], env);
      assert ds[..j + 1][..j] == ds[..j];
      definitions := definitions + [definition];
    }
    assert ds[..|ds|] == ds;
  }

  /** The body of the outer loop for a well-formed meaning. */
  method TranslateOneMeaning(meaning: Meaning, env: Env) returns (m: Meaning)
    requires MeaningOk(meaning)
    ensures m == TranslateMeaning(meaning, env)
  {
    var partOfSpeech := TranslatePartOfSpeech(meaning.partOfSpeech.value);
    var ds := meaning.definitions.value;
    var definitions := TranslateDefinitionList(ds[..Min(2, |ds|)], env);
    m := Meaning(Some(partOfSpeech), Some(definitions));
  }

  /** The first two meanings of an entry, the ones the source translates. */
  function FirstMeanings(e: Entry): seq<Meaning>
    requires e.meanings.Some?
  {
    e.meanings.value[..Min(2, |e.meanings.value|)]
  }

  lemma TranslatableFirst(e: Entry)
    requires e.meanings.Some?
    ensures Translatable(e) <==> forall k :: 0 <= k < |FirstMeanings(e)| ==> MeaningOk(FirstMeanings(e)[k])
  {
    var ms := e.meanings.value;
    assert forall k :: 0 <= k < |FirstMeanings(e)| ==> FirstMeanings(e)[k] == ms[k];
  }

  lemma TranslateMeaningsStep(ms: seq<Meaning>, i: nat, env: Env)
    requires i < |ms| && forall k :: 0 <= k <= i ==> MeaningOk(ms[k])
    ensures TranslateMeanings(ms[..i + 1], env) == TranslateMeanings(ms[..i], env) + [TranslateMeaning(ms[i], env)]
  {
    assert ms[..i + 1][..i] == ms[..i];
  }

  /** `translateDefinitionToJapanese`: the outer loop pushes one meaning per
      input meaning; a meaning without a part of speech or definitions makes
      the source throw, and the English entry is returned. */
  method TranslateDefinitionToJapanese(e: Entry, env: Env) returns (r: Entry)
    ensures r == JapaneseDefinition(e, env)
  {
    if e.meanings.None? {
      return e;
    }
    var meanings := FirstMeanings(e);
    TranslatableFirst(e);
    var result: seq<Meaning> := [];
    for i := 0 to |meanings|
      invariant forall k :: 0 <= k < i ==> MeaningOk(meanings[k])
      invariant result == TranslateMeanings(meanings[..i], env)
    {
      if !MeaningOk(meanings[i]) {
        return e;
      }
      var meaning := TranslateOneMeaning(meanings[i], env);
      TranslateMeaningsStep(meanings, i, env);
      result := result + [meaning];
    }
    assert meanings[..|meanings|] == meanings;
    r := Entry(e.word, Some(if e.phonetic.Some? then e.phonetic.value else ""), Some(result));
  }

  // ---------------------------------------------------------------------
  // lookupWord and handleMessage

  /** `fetchEnglishDefinition`: the first entry of a successful reply, none otherwise. */
  function FetchEnglishDefinition(reply: DictResponse): (e: Option<Entry>)
    ensures e.Some? <==> reply.DictReply? && IsOk(reply.status) && reply.entries.Some? && reply.entries.value != []
    ensures e.Some? ==> e.value == reply.entries.value[0]
  {
    match reply
    case DictFailed => None
    case DictReply(status, entries) =>
      if !IsOk(status) || entries.None? || entries.value == [] then None else Some(entries.value[0])
  }

  /** `lookupWord`. */
  method LookupWord(word: string, env: Env) returns (r: Response)
    ensures var found := FetchEnglishDefinition(env.dictionary(word));
      r == if found.None? then Failure(NoDictionaryData) else DefinitionFound(JapaneseDefinition(found.value, env))
  {
    var englishDefinition := FetchEnglishDefinition(env.dictionary(word));
    if englishDefinition.None? {
      return Failure(NoDictionaryData);
    }
    var japaneseDefinition := TranslateDefinitionToJapanese(englishDefinition.value, env);
    return DefinitionFound(japaneseDefinition);
  }

  /** A message from the content script: its `type`, `word` and `text`. */
  datatype Message = Message(kind: string, word: string, text: string)

  /** `handleMessage`: dispatch on the message type. */
  method HandleMessage(message: Message, env: Env) returns (r: Response)
    ensures message.kind == "LOOKUP_WORD" ==>
      var found := FetchEnglishDefinition(env.dictionary(message.word));
      r == if found.None? then Failure(NoDictionaryData) else DefinitionFound(JapaneseDefinition(found.value, env))
    ensures message.kind == "TRANSLATE_TEXT" ==> r == TextTranslation(message.text, env)
    ensures message.kind != "LOOKUP_WORD" && message.kind != "TRANSLATE_TEXT" ==> r == Failure(UnknownMessageType)
  {
    match message.kind
    case "LOOKUP_WORD" =>
      r := LookupWord(message.word, env);
    case "TRANSLATE_TEXT" =>
      r := TranslateText(message.text, env);
    case _ =>
      r := Failure(UnknownMessageType);
  }
}
