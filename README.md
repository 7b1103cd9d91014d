# English Learning Assistant: a Dafny model of the content script and the background worker

The English Learning Assistant is a browser extension for Japanese learners of
English. On a page that looks English, its content script cuts the text of each
paragraph and heading into pieces. Every English word is wrapped in a span
that carries a guessed part-of-speech tag. Hovering a word asks the background
service worker for a dictionary entry, which is translated into Japanese
through the OpenAI chat API; a translate button does the same for a sentence.
The popup starts and stops the learning mode and changes the settings by
sending messages to the content script.

This project models the two files that do this work:

- `Tagging` (tagging.dfy): the lexical part of `src/content/content-script.js`.
  - `isEnglishWord`: which pieces are English words.
  - `guessPartOfSpeech`: the rule order of the tagger.
  - `detectEnglishText`: the English-page test.
  - `processTextNode`: the capture split `text.split(/(\s+|[.,!?;:()\-"'])/)` and the wrapping of its pieces as a list of tokens (word spans and text nodes).
  - `clearProcessedElements`: the unwrapping of the spans, followed by `Node.normalize`.
- `Session` (session.dfy): the `EnglishLearningAssistant` object as a class.
  - Its fields are `isActive`, `settings` and the set of processed elements.
  - Its methods are `processPage`, `startLearningMode`, `stopLearningMode`, `updateSettings` and `handleMessage`.
  - It also holds the settings spread `{ ...settings, ...patch }` and the arithmetic of `positionTooltip`.
- `Background` (background.dfy): `src/background/background.js`.
  - `translatePartOfSpeech` and `simpleTranslate`: the two lookup tables.
  - `translateWithOpenAI`: the whole decision tree of its `try` block, and the reclassification in its `catch` block.
  - `getOpenAIKey`: the fallback from local storage to sync storage.
  - `translateText`, `fetchEnglishDefinition`, `translateDefinitionToJapanese`, `lookupWord` and `handleMessage`.
- `Strings` (strings.dfy): the JavaScript string operations these rely on, over `seq<char>`.
  - `trim` and the `\s` set; `toLowerCase` on ASCII.
  - `endsWith` and `includes`.
  - The decimal rendering of a number, and `join('')`.
- `Wrappers` (wrappers.dfy): `Option` and `Result`.

Network and storage are inputs. An `Env` value holds what each
`chrome.storage.*.get` would yield, what the OpenAI request would answer for a
key and a text, and what the dictionary request would answer for a word.
The DOM is abstracted:
- a page element is a value with its identity, tag name, computed style, text content, and whether it already holds a word span;
- the children that replace a text node are a sequence of `Token`s.

Among the properties proved:
- Wrapping keeps the text of a node, and clearing undoes wrapping.
- The split alternates text runs and separator matches. Joining the pieces gives the text back.
- A span is made exactly for the pieces that are two or more ASCII letters.
- The tagger's rule order settles which words get which tag (the verb suffixes take "this", "his", "its" and "us").
- `processPage` handles each element once per session, and a second pass handles nothing.
- A translation either comes from OpenAI or fails; the table fallback of `translateText` is never reached.
- Any error message mentioning "503" is reported as the service being unavailable, whatever the status.

## Model

| member | source | states |
|---|---|---|
| Tagging.EnglishWordIsLetters | src/content/content-script.js:328-331 | a word is English exactly when its trim has at least two characters, all ASCII letters of either case |
| Tagging.TooShortWords | src/content/content-script.js:328-331 | the empty string, one letter, and one letter padded with spaces are not English words |
| Tagging.NonLetterRejected | src/content/content-script.js:328-331 | a word without white space that holds any character other than an ASCII letter is not an English word |
| Tagging.DigitsRejected | src/content/content-script.js:330 | "42" is not an English word |
| Tagging.ApostropheRejected | src/content/content-script.js:330 | "don't" is not an English word |
| Tagging.HyphenRejected | src/content/content-script.js:330 | "co-op" is not an English word |
| Tagging.AccentRejected | src/content/content-script.js:330 | "café" is not an English word (the class is a to z only) |
| Tagging.AcceptedWord | src/content/content-script.js:328-331 | " Hello\n" is an English word: trimming and lower-casing come first |
| Tagging.IsEnglishWord | src/content/content-script.js:328-331 | the definition: the trimmed, lower-cased word consists of two or more letters a to z; EnglishWordIsLetters characterises it on the word as written |
| Tagging.GuessCharacterised | src/content/content-script.js:287-326 | for every word, each tag in terms of the lower-cased word: verb iff a verb suffix; adverb iff "ly" and no verb suffix; preposition iff on that list; pronoun and determiner iff on what is left of their lists after the earlier rules; conjunction iff on its list |
| Tagging.GuessIgnoresCase | src/content/content-script.js:288 | the tag of a word equals the tag of its lower-cased form |
| Tagging.GuessPartOfSpeech | src/content/content-script.js:287-288 | the definition: the rules applied to the lower-cased word; GuessCharacterised and GuessIgnoresCase state which word gets which tag |
| Tagging.GuessLower | src/content/content-script.js:291-325 | the definition: verb suffixes, then "ly", then the four word lists in source order, noun by default; characterised by GuessCharacterised |
| Tagging.VerbRuleShadowsLists | src/content/content-script.js:291-293 | "this", "its", "his" and "us" are tagged verb; the suffix rule takes them before the lists are consulted |
| Tagging.HerIsPronoun | src/content/content-script.js:307-322 | "Her" is on the pronoun and the determiner lists and is tagged pronoun, the earlier list |
| Tagging.AdverbAndNoun | src/content/content-script.js:296-325 | the capitalised "Quickly" is tagged adverb; "table", which no rule takes, is tagged noun |
| Tagging.NeverAdjective | src/content/content-script.js:287-326 | no word is ever tagged adjective |
| Tagging.TagName | src/content/content-script.js:269-271 | the `data-pos` value and class suffix of each tag, the strings `guessPartOfSpeech` returns (the definition; distinctness and the missing adjective follow from it) |
| Tagging.ClassName | src/content/content-script.js:269 | the class attribute `ela-word ela-<tag>` of a word span (the definition; WrappedWords states which spans carry it) |
| Tagging.Words | src/content/content-script.js:116 | the words of `split(/\s+/)` after the empty ones are filtered out are non-empty and hold no white space; WordsUnique and WordGapsLayout fix which they are |
| Tagging.WordsKeepText | src/content/content-script.js:116 | the words hold every non-white-space character of the text, in order, and nothing else |
| Tagging.WordsUnique | src/content/content-script.js:116 | whenever the text is white-space gaps around non-empty white-space-free words, with every gap between two words non-empty, those words are exactly the words found: a word runs up to the next white space |
| Tagging.WordGapsLayout | src/content/content-script.js:116 | every text is such a layout of the words found, the gaps being its white space |
| Tagging.OneWord | src/content/content-script.js:116 | "ab" is one word, not two |
| Tagging.KeepLetters | src/content/content-script.js:124 | `replace(/[^a-z]/g, '')`: the result is no longer than the input and holds only the letters a to z |
| Tagging.SampleForm | src/content/content-script.js:124 | the definition: lower-case, then keep only a to z; its result holds only lower-case ASCII letters (KeepLetters) |
| Tagging.CommonCount | src/content/content-script.js:126-130 | the number of sample words on the common list, never more than the number of words |
| Tagging.LooksEnglish | src/content/content-script.js:115-132 | the definition of the verdict: ten or more words, and three or more common words among the first fifty; DetectEnglishText is proved to compute it |
| Tagging.CommonCountAppend | src/content/content-script.js:126-130 | the count of common words over two consecutive parts of the sample is the sum of the counts |
| Tagging.SampleFormExamples | src/content/content-script.js:124 | "The" counts as "the" and "(and)," as "and": lower-casing and dropping all but a to z come before the lookup |
| Tagging.DetectEnglishText | src/content/content-script.js:114-133 | the loop's count is the number of common words among the first fifty; fewer than ten words always gives false; the verdict is ten or more words with at least three common ones in the sample |
| Tagging.SplitJoins | src/content/content-script.js:258 | joining the pieces of the capture split gives the text back |
| Tagging.SplitPieces | src/content/content-script.js:258 | the even pieces hold no separator character; the odd pieces are a non-empty white-space run or one punctuation mark |
| Tagging.SplitSpaceRunsWhole | src/content/content-script.js:258 | the greedy `\s+` takes a whole white-space run: a white-space separator is never followed by an empty text run and a second white-space separator |
| Tagging.SplitUnique | src/content/content-script.js:258 | any list of pieces of odd length that joins to the text, alternates text runs and separator matches, and takes white-space runs whole is the split itself |
| Tagging.SplitKeepsSpaceRun | src/content/content-script.js:258 | "a  b" splits as "a", the two spaces, "b" |
| Tagging.SplitWhole | src/content/content-script.js:258-260 | the split has a single piece, and the node is left alone, exactly when the text holds no separator character |
| Tagging.SplitExample | src/content/content-script.js:258 | "Hi, you" splits as "Hi", ",", "", " ", "you": two adjacent separators leave an empty text run between them |
| Tagging.Split | src/content/content-script.js:258 | the capture split has an odd number of pieces, text runs at both ends; SplitJoins, SplitPieces, SplitSpaceRunsWhole and SplitUnique state the rest |
| Tagging.IsPunct | src/content/content-script.js:258 | the definition of the class `[.,!?;:()\-"']` |
| Tagging.IsSeparator | src/content/content-script.js:258 | the definition: a character the pattern `(\s+\|[.,!?;:()\-"'])` can match, white space or one of those marks |
| Tagging.WrapTextNodeKeepsText | src/content/content-script.js:264-280 | the node list that replaces a text node shows exactly the text of that node |
| Tagging.WrapPiece | src/content/content-script.js:265-276 | the node a piece becomes always shows the piece itself (span or text node) |
| Tagging.TextOf | src/content/content-script.js:257 | the definition of `textContent` over a node list: the texts of the nodes, in order; WrapTextNodeKeepsText and ClearSpansKeepsText state what it keeps |
| Tagging.WrapPieces | src/content/content-script.js:264-277 | one node per piece, in order: node i is the node of piece i |
| Tagging.WrapTextNode | src/content/content-script.js:257-280 | the definition of the replacement: the node itself when the split has one piece, the wrapped pieces otherwise; WrapTextNodeKeepsText and WrappedWords state its properties |
| Tagging.WrappedWords | src/content/content-script.js:264-276 | piece i becomes a span iff it is an English word; the span shows the piece, has at least two ASCII letters, sets `data-word` to the lower-cased piece and `data-pos` to its guessed tag |
| Tagging.WrapWord | src/content/content-script.js:265-276 | one piece becomes the span or the text node the wrapping specification gives |
| Tagging.WrapWords | src/content/content-script.js:264-277 | the loop appends one node per piece, in order, giving the wrapping specification of the whole list |
| Tagging.ProcessTextNode | src/content/content-script.js:255-285 | the fragment equals the wrapping specification: one piece leaves the node as it was, else one node per piece |
| Tagging.NormalizeIsNormal | src/content/content-script.js:662 | after `normalize` no text node is empty and no two text nodes are adjacent |
| Tagging.NormalizeAllText | src/content/content-script.js:662 | a list of text nodes normalises to one node holding their text, or to nothing when that text is empty |
| Tagging.Normalize | src/content/content-script.js:662 | `Node.normalize` keeps the text of the node list |
| Tagging.ClearSpans | src/content/content-script.js:658-661 | every node becomes a text node, one for one |
| Tagging.ClearProcessed | src/content/content-script.js:656-664 | the definition: unwrap the spans, then normalise; ClearUndoesWrap states that it undoes wrapping |
| Tagging.ClearSpansKeepsText | src/content/content-script.js:658-661 | replacing every span by a text node of its text content keeps the text |
| Tagging.ClearUndoesWrap | src/content/content-script.js:656-664 | clearing a wrapped text node gives back one text node with the original text, as normalising the untouched node would |
| Session.MergeLaws | src/content/content-script.js:65 | the spread keeps the keys a patch leaves out and takes the ones it names; merging the same patch twice changes nothing; two merges are one merge of the combined patch |
| Session.Merge | src/content/content-script.js:65 | the definition of `{ ...settings, ...patch }`, each key taken from the patch when present (also line 106); MergeLaws states its laws |
| Session.ShouldProcessElement | src/content/content-script.js:166-190 | the definition: not SCRIPT, STYLE or NOSCRIPT, not hidden by `display` or `visibility`, ten or more characters of trimmed text, and no word span inside; PendingSound states that every handled element passes it |
| Session.DedupSpec | src/content/content-script.js:152 | `[...new Set(elements)]` keeps every element of the list and holds each element once |
| Session.Dedup | src/content/content-script.js:152 | the definition: each element once, at its first occurrence; DedupSpec states what it keeps |
| Session.Pending | src/content/content-script.js:154-159 | the definition of one pass: an element is handled when its identity is not yet recorded and it passes the test; PendingSound, PendingComplete and PendingNone state its properties |
| Session.PageWork | src/content/content-script.js:136-159 | the definition: nothing when tagging is off, else the pending elements of the deduplicated page; ProcessPage is proved to compute it |
| Session.PendingSound | src/content/content-script.js:154-159 | every element a pass handles comes from the page, passes `shouldProcessElement` and was not processed before; no identity is handled twice |
| Session.PendingComplete | src/content/content-script.js:154-159 | every page element that passes `shouldProcessElement` and was not processed before is handled, or an element with its identity is |
| Session.PendingNone | src/content/content-script.js:154-159 | a pass over a page where every element was processed or fails the test handles nothing |
| Session.SecondPassIdle | src/content/content-script.js:154-158 | each element is processed at most once per session: after a pass records its elements, a second pass over the same page handles nothing |
| Session.LearningAssistant.constructor | src/content/content-script.js:3-18 | a new assistant is inactive, has the default settings and no processed elements |
| Session.LearningAssistant.ProcessPage | src/content/content-script.js:135-164 | the handled elements are exactly the pending ones of the deduplicated page (none when tagging is off); the processed set grows by exactly their identities; nothing else changes |
| Session.LearningAssistant.StartLearningMode | src/content/content-script.js:63-84 | the settings are merged first; a page that is not English fails with the Japanese message and nothing else changes; otherwise the page is processed and the mode becomes active |
| Session.LearningAssistant.StopLearningMode | src/content/content-script.js:86-103 | the mode becomes inactive, the processed set is emptied (line 675) and the settings are kept |
| Session.LearningAssistant.UpdateSettings | src/content/content-script.js:105-112 | the settings are merged, the mode is kept, and the page is processed again only when the mode is active |
| Session.LearningAssistant.HandleMessage | src/content/content-script.js:32-61 | START merges the settings, answers success exactly on an English page, then becomes active and records the processed elements, and otherwise keeps the mode and the processed set; STOP empties the set and deactivates; UPDATE merges and, when active, records the processed elements; CHECK answers the mode and changes nothing; an unknown type answers "Unknown message type" and changes nothing |
| Session.PositionTooltip | src/content/content-script.js:434-448 | the tooltip's left page coordinate plus its width of 300 never exceeds the viewport width; it is aligned with the word's page x exactly when that sum fits, and otherwise its right edge is at 10 less than the viewport width |
| Session.TooltipPlacement | src/content/content-script.js:437-448 | the tooltip sits 8 below the word with its bottom edge no lower than the window's bottom edge, or, when that would cross the bottom edge, ends 8 above the word |
| Background.PartOfSpeechCases | src/background/background.js:164-178 | a known tag gets its Japanese label whatever its case; an unknown tag comes back unchanged, in its original case |
| Background.PartOfSpeechLabel | src/background/background.js:165-175 | the definition: the nine entries of the label table, none for any other key |
| Background.TranslatePartOfSpeech | src/background/background.js:177 | the definition of `translations[pos.toLowerCase()] \|\| pos`; PartOfSpeechCases states its cases |
| Background.SimpleTranslate | src/background/background.js:302-329 | the result is never empty; a non-empty table entry for the lower-cased text is returned; a missing or empty entry gives the text behind the "[翻訳] " marker |
| Background.SimpleEntry | src/background/background.js:304-325 | the definition: the twenty entries of the table, the three articles mapped to the empty string, none for any other key |
| Background.ArticlesFallThrough | src/background/background.js:315-328 | "The" and "an" map to the empty string, which counts as missing, so they fall through to the marker; "Hello" gets its entry |
| Background.OpenAIRequest | src/background/background.js:207-262 | a translation that the request yields is already trimmed |
| Background.TranslateWithOpenAI | src/background/background.js:205-279 | when it returns, the result is successful, its method is "openai" and the translation is trimmed |
| Background.MissingKeyOutcome | src/background/background.js:207-210 | without a key no request is made and the missing-key error is rethrown as it is |
| Background.StatusCodeOutcomes | src/background/background.js:235-243 | status 503 is reported as the service being unavailable and status 429 as the rate limit |
| Background.FetchFailedOutcome | src/background/background.js:212-277 | a request that gets no reply is caught like any other error: its message is reclassified, and a message without digits is rethrown as it is |
| Background.IsOk | src/background/background.js:245 | the definition of `response.ok`, a status from 200 to 299 (also line 95) |
| Background.SuccessStatusOutcomes | src/background/background.js:245-262 | on a 2xx status: a reply without a first message is an invalid format; a null content raises the engine's TypeError; an unreadable body rethrows the parser's error (reclassified like any message); otherwise the trimmed content is the translation |
| Background.ApiErrorOutcome | src/background/background.js:245-248 | any other failing status throws the API error with the status and the detail, unless the detail mentions 503 or 429, which wins over the status |
| Background.BadRequestMentioning429 | src/background/background.js:268-275 | a 400 reply whose detail mentions 429 is reported as the rate limit |
| Background.UnavailableReclassified | src/background/background.js:268-270 | the 503 error's own message mentions 503 and is replaced by the Japanese unavailability message |
| Background.RateLimitReclassified | src/background/background.js:273-275 | the 429 error's message does not mention 503 but does mention 429, so it is replaced by the Japanese rate-limit message |
| Background.DigitFreeRethrown | src/background/background.js:264-277 | a message with no digits is rethrown unchanged |
| Background.ApiErrorMentions | src/background/background.js:247 | the API error message mentions a three-digit code exactly when the status is that code or the detail mentions it |
| Background.KeyMissingRethrown | src/background/background.js:209 | the missing-key message is rethrown unchanged |
| Background.InvalidFormatRethrown | src/background/background.js:253 | the invalid-format message is rethrown unchanged |
| Background.NullContentRethrown | src/background/background.js:256 | the TypeError of a null content is rethrown unchanged |
| Background.Reclassify | src/background/background.js:267-277 | the definition of the `catch` block: "503" anywhere first, then "429" anywhere, else the error unchanged; DigitFreeRethrown, ApiErrorOutcome and the per-message lemmas state its outcomes |
| Background.ErrorMessage | src/background/background.js:269-277 | the definition of the message thrown: the two localised messages, or the caught error's own |
| Background.ThrownMessage | src/background/background.js:267-277 | the message thrown is the localised unavailable message when the caught message mentions "503", else the localised rate-limit message when it mentions "429", else the caught message itself |
| Background.ErrorDetail | src/background/background.js:246-247 | the definition of `errorData.error?.message \|\| 'Unknown error'`, with `{}` for an unreadable body; ApiErrorOutcome states what it leads to |
| Background.ApiErrorMessage | src/background/background.js:247 | the definition of the API error message; ApiErrorMentions states which codes it mentions |
| Background.ReadPropertyError | src/background/background.js:256 | the definition of the TypeError message thrown when `.trim()` is read off a null content; ReadPropertyDigitFree states that it adds no digits |
| Background.StoredKey | src/background/background.js:281-300 | the local key when set, else the synchronised key when set, else none; an empty key counts as none; a failing read gives none |
| Background.HasKey | src/background/background.js:287 | the definition of `result.elaSettings && result.elaSettings.apiKey`: a read that succeeded with a non-empty key (also line 291) |
| Background.GetOpenAIKey | src/background/background.js:281-300 | the method's result is the key that specification gives |
| Background.TranslationNeverSimple | src/background/background.js:180-203 | `translateText` answers an OpenAI translation (trimmed, method "openai") or the failure message, never the table fallback |
| Background.NoKeyNoTranslation | src/background/background.js:196-210 | without a stored key every translation fails with "翻訳に失敗しました", whatever the network would do |
| Background.TextTranslation | src/background/background.js:180-203 | the definition of the answer: the OpenAI result on success, the table fallback on a result without success, the failure message on a throw; TranslationNeverSimple and NoKeyNoTranslation state its outcomes |
| Background.TranslateText | src/background/background.js:180-203 | the method answers what the translation specification gives |
| Background.TranslateDefinitionFallback | src/background/background.js:126-148 | a definition, or an example, whose translation fails stays in English; the example is always present, `''` when missing or empty |
| Background.TranslateDefinition | src/background/background.js:127-141 | the definition of one translated definition; TranslateDefinitionFallback states its fallbacks |
| Background.TranslatedOr | src/background/background.js:131 | the definition of `translated.success ? translated.translation : english` (also line 138) |
| Background.TranslateDefinitions | src/background/background.js:126-150 | one translated definition per definition: the list keeps its length |
| Background.TranslateMeaning | src/background/background.js:118-152 | the definition of one translated meaning; JapaneseDefinitionShape states its shape |
| Background.TranslateMeanings | src/background/background.js:117-153 | one translated meaning per meaning: the list keeps its length |
| Background.JapaneseDefinition | src/background/background.js:108-162 | the definition of the Japanese entry; JapaneseDefinitionShape states its shape and TranslateDefinitionToJapanese is proved to compute it |
| Background.Translatable | src/background/background.js:117-124 | the definition of an entry the function can handle without throwing: it has meanings and each of the first two is well formed |
| Background.MeaningOk | src/background/background.js:119-124 | the definition of a meaning that does not throw: it has a part of speech to lower-case and a definitions list to slice |
| Background.JapaneseDefinitionShape | src/background/background.js:108-162 | the word is kept; malformed input gives back the English entry; otherwise the phonetic is the English one or `''` when that is missing or empty, and the first two meanings follow, each with its part of speech labelled and its first two definitions translated one by one |
| Background.TranslateOneDefinition | src/background/background.js:127-141 | the inner loop's body yields the translated definition |
| Background.TranslateDefinitionList | src/background/background.js:124-150 | the inner loop yields one translated definition per definition, in order |
| Background.TranslateOneMeaning | src/background/background.js:117-152 | the outer loop's body yields the labelled meaning with its first two definitions translated |
| Background.TranslateDefinitionToJapanese | src/background/background.js:108-162 | the result is the Japanese entry the specification gives, including the English entry when a meaning lacks its part of speech or definitions |
| Background.FetchEnglishDefinition | src/background/background.js:91-106 | an entry exactly for a 2xx reply whose body is a non-empty array, and then its first entry |
| Background.LookupWord | src/background/background.js:68-89 | no entry answers the no-data message; otherwise the Japanese form of the entry |
| Background.HandleMessage | src/background/background.js:46-66 | `LOOKUP_WORD` answers the lookup, `TRANSLATE_TEXT` the translation, and any other type "Unknown message type" |
| Strings.TrimIdempotent | src/content/content-script.js:265-266 | trimming a trimmed piece again (as `isEnglishWord` does) changes nothing |
| Strings.ToLowerIdempotent | src/content/content-script.js:288 | lower-casing twice is lower-casing once |
| Strings.Trim | src/content/content-script.js:329 | the definition of `trim`: leading and then trailing white space dropped; TrimStartSpec, TrimEndSpec, TrimIdempotent, TrimNoSpace and TrimAllSpace state what it drops |
| Strings.TrimStartSpec | src/content/content-script.js:329 | the leading part `trim` drops is all white space, and what remains is a suffix that does not start with white space |
| Strings.TrimEndSpec | src/content/content-script.js:329 | the trailing part `trim` drops is all white space, and what remains is a prefix that does not end with white space |
| Strings.IsSpace | src/content/content-script.js:258 | the definition: the characters JavaScript counts as white space, the set `\s` matches and `trim` strips |
| Strings.ToLower | src/content/content-script.js:288 | `toLowerCase` keeps the length and maps each character on its own, ASCII capitals to small letters, every other character to itself |
| Strings.EndsWith | src/content/content-script.js:291-296 | the definition of `endsWith`, compared from the back; EndsWithSlice states that it holds exactly when the last characters are the suffix |
| Strings.EndsWithSlice | src/content/content-script.js:291 | `s.endsWith(t)` holds exactly when t is no longer than s and the last \|t\| characters of s are t |
| Strings.Contains | src/background/background.js:268 | the definition of `includes`; ContainsAt and ContainsAroundNonDigit state when it holds |
| Strings.ContainsAt | src/background/background.js:268 | `includes` holds whenever the piece occurs at some position |
| Strings.ContainsAroundNonDigit | src/background/background.js:268-273 | a string of digits occurs around a non-digit character exactly when it occurs on one side of it |
| Strings.NatToString | src/background/background.js:247 | the decimal rendering of a status is a non-empty string of digits |

## Left out

- src/popup/popup.js: the popup is not part of this model. Besides sending the messages that `HandleMessage` receives, it writes `elaSettings`, including the API key, to sync or local storage (lines 42-66) and tests the key with a request to the OpenAI models endpoint (lines 200-243). The model takes the storage contents as the given `Env` and does not model how they got there.
- DOM traversal: `querySelectorAll`, the `TreeWalker` of `processTextNodes` with its filter on short nodes and nodes inside spans, and `replaceChild`. The page is given as the list of elements the selectors return, and a text node as its text.
- Session.LearningAssistant.ProcessPage: `processTextElement` is not applied to the element values; `Tagging.ProcessTextNode` models what it does to each text node. The source's `try`/`catch` around it is not modelled because it cannot be reached on these values.
- Session.ShouldProcessElement: whether an element holds a word span is read from the element value, so spans created earlier in the same pass are not seen.
- Tooltip: `showDictionary`, `showTooltip`, `hideTooltip`, `updateTooltipContent`, the tooltip fields, the 300 ms and 10 ms timers and the event listeners. They are UI and timers; only the placement arithmetic of `positionTooltip` is modelled.
- Translation buttons: `addTranslationButtons`, `detectSentences`, `translateElement` and `showTranslationResult` are DOM and UI work. What they ask of the background worker is `Background.TextTranslation`.
- The content script's `lookupWord`: it forwards one message to the background worker, which `Background.HandleMessage` models.
- `onFirstInstall` and the listener setup: they only write default settings to storage and register listeners.
- Asynchrony: every `await` is taken to complete before the next step. The unawaited `processPage` of `updateSettings` and interleaved messages are not modelled.
- Strings.ToLower: only the ASCII letters are mapped; JavaScript's full Unicode case mapping is not modelled.
- Lengths are counts of `char` values, not of UTF-16 code units, so `trim().length` agrees with the source only for text in the Basic Multilingual Plane.
- Background.PartOfSpeechLabel and Background.SimpleEntry: keys inherited from `Object.prototype` (such as "constructor") are not looked up.
- Session.PositionTooltip, Session.TooltipPlacement: the rectangle of `getBoundingClientRect()`, `scrollX`, `scrollY`, `innerWidth` and `innerHeight` are floating-point pixel values in the source; the model takes them as integers, so fractional pixels and rounding are not modelled.
- Session.PositionTooltip: the horizontal test compares the tooltip's page x-coordinate (`rect.left + scrollX`) with the viewport width `innerWidth`, as the source does. With the page scrolled horizontally, the tooltip can therefore be placed outside the visible area. The model states the bound as written and does not claim that the tooltip stays on screen.
- Background.NullContent: the TypeError message is worded as V8 words it; other engines word it differently. `ChatMessage.content` being `None` stands both for a null `content` and for a missing one; for a missing one V8 says "of undefined" rather than "of null". Both messages hold no digits and are rethrown alike, and `translateText` turns either into the same failure, so nothing observable differs.
- Background.OpenAIRequest: the request body (model, prompt, `max_tokens`, temperature) is not modelled. The answer is a function of the key and the text.
- The outer `catch` blocks of `handleMessage`, `lookupWord` and `translateDefinitionToJapanese` are not modelled separately. The only throw a modelled input can cause is a malformed meaning, which is modelled.
