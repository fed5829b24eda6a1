# Colour palette app: chat service and component state, in Dafny

This project models the core of a colour-palette web application.

- **The chat service.** The rule-based assistant classifies a message by keywords. It answers with complementary, similar, random or mixed colour suggestions, or with a critique of the palette's size. The LLM-backed assistant guards on its configuration. It turns how the HTTP request ended into a reply and parses hex codes and colour names out of the answer text with the two regular expressions of the source. A factory picks one of the two services.
- **The application state and its `setState`.** An object or an updater function is merged over the previous state.
- **The component state logic of six components:**
  - the import dialog turns lines of text into colours;
  - the save dialog overwrites the selected palette or appends a new one;
  - a colour item has a drag id, a code label, a shown colour that follows its picker, and a remove control;
  - the colour picker keeps a local colour while dragging and commits it on a click outside;
  - the chat window has an input, a loading flag, and a history that gains the user's entry and then the answer;
  - the export tabs generate ShadCN styles and show a text chosen in a fixed order of precedence.

The modules follow the source's layout:

| module | file |
|---|---|
| `Wrappers`, `Text`, `ColorMath`, `Entities` | shared: the option type, the JavaScript string operations the core uses, colour arithmetic, records |
| `RuleEngine`, `LlmEngine`, `ChatService` | `services/ChatService.js` |
| `AppContext` | `contexts/AppContext.jsx` |
| `ImportModal`, `SaveModal`, `ColorItem`, `ColorPicker`, `ChatModal`, `ExportModalTabs` | the component of the same name |

How each part is modelled:

- **Pure code** becomes datatypes and functions. Its loops (the generators of the rule service, the `exec` loop and the fallback loop of the LLM parser) are methods proved equal to the functions that specify them.
- **Component state** that React updates in place becomes a class. Its fields are the `useState` variables and its methods are the handlers. The shared state is a `Store` whose only mutator is `SetState`, and `SetState` is proved to merge exactly the way `_setState` does.
- **Asynchronous handlers** are split at their `await`. A begin method covers the part before the `await` and a complete method covers the part after it. An end-to-end method composes the two.
- **Environment inputs** the source reads become parameters:
  - `Math.random()` is a sequence of draws in [0, 1);
  - `ntc.name(hex)[1]` is a function `nameOf`;
  - the result of `fetch` is an `LlmOutcome`;
  - `new Date().toISOString()`, `uuid()` and `findInObject` are parameters.

## Model

| member | source | states |
|---|---|---|
| Text.ToLowerCase | services/ChatService.js:24 | Every character is mapped by the letter-case mapping and the length is kept |
| Text.ToUpperCase | components/ColorItem.jsx:114 | Every character is mapped by the upper-case letter mapping and the length is kept |
| Text.LowerCaseIdempotent | services/ChatService.js:24 | Lower-casing an already lower-cased message changes nothing |
| Text.ContainsIn | services/ChatService.js:34-46 | `includes` is true when the word occurs at some index |
| Text.ContainsWitness | services/ChatService.js:34-46 | `includes` is true only when an occurrence exists, and the proof returns its index |
| Text.TrimStart | components/ChatModal.jsx:34 | The result is a suffix of the input, every dropped character is whitespace, and the result does not start with whitespace |
| Text.TrimEnd | components/ChatModal.jsx:34 | The result is a prefix of the input, every dropped character is whitespace, and the result does not end with whitespace |
| Text.Trim | components/ChatModal.jsx:34 | `trim()` is a slice of the input with only whitespace before and after it, and it neither starts nor ends with whitespace |
| Text.SliceTrimmed | components/ChatModal.jsx:34 | Cutting leading whitespace and then trailing whitespace leaves a slice with only whitespace around it |
| Text.TrimDetermined | components/ChatModal.jsx:34 | Any slice with only whitespace around it that neither starts nor ends with whitespace is the result of `trim()` |
| Text.TrimmedUnique | components/ChatModal.jsx:34 | At most one slice of a text has only whitespace around it and neither starts nor ends with whitespace |
| Text.TrimKeeps | components/ChatModal.jsx:39 | A text with no whitespace at either end trims to itself |
| Text.TrimAllWhitespace | components/ChatModal.jsx:34 | A blank input trims to the empty text, so the send guard refuses it |
| Text.Split | components/ImportModal.jsx:30 | `split('\n')` gives at least one piece, and no piece contains the separator |
| Text.JoinSplit | components/ImportModal.jsx:29-30 | Joining the pieces of a split with the separator gives the text back |
| Text.SplitJoin | components/ImportModal.jsx:29-30 | Splitting separator-free pieces after joining them gives the pieces back |
| Text.SplitCount | components/ImportModal.jsx:30 | There is one piece more than there are newlines |
| Text.PadStart | services/ChatService.js:74 | `padStart(width, fill)` has length max(|s|, width): the fill characters first, then the text unchanged |
| Text.PadStartSnoc | services/ChatService.js:74 | Padding distributes over a final character |
| Text.Decimal | components/ColorItem.jsx:60 | Formatting an index gives at least one decimal digit and nothing else |
| Text.ParseDecimalOfDecimal | components/ColorItem.jsx:60 | Reading back the decimal digits of an index gives the index |
| Text.DecimalInjective | components/ColorItem.jsx:60 | Different indices have different decimal texts |
| Text.RemoveFirst | components/ColorItem.jsx:60 | `replace('#', '')` removes the first `#` and keeps every other character in order; without a `#` the text is unchanged |
| Text.RemoveFirstCons | components/ColorItem.jsx:60 | When the first character is not `#`, removing the first `#` of the rest removes the first `#` of the whole |
| ColorMath.HexToRgb | services/ChatService.js:151-158 | `_hexToRgb` returns channels exactly for an optional `#` followed by six hex digits of either case |
| ColorMath.ParseHex | services/ChatService.js:154-156 | `parseInt(s, 16)` of n digits is below 16^n |
| ColorMath.ToHexString | services/ChatService.js:162 | `toString(16)` of a number prints at least one digit |
| ColorMath.FixedHex | services/ChatService.js:74 | Fixed-width hex digits have the given width and are lower-case hex |
| ColorMath.ParseFixedHex | services/ChatService.js:154-156 | Fixed-width digits of n read back as n when n fits |
| ColorMath.ParseHexConcat | services/ChatService.js:152-156 | The value of concatenated hex digits is the first part's value shifted by the second part's width, plus the second part's value |
| ColorMath.ToHexStringLeadingOne | services/ChatService.js:162 | `(16^k + v).toString(16)` is a `1` followed by the k fixed-width digits of v |
| ColorMath.PaddedToHexString | services/ChatService.js:74 | `v.toString(16).padStart(k, '0')` is the k fixed-width digits of v |
| ColorMath.HexOfChannels | services/ChatService.js:151-163 | Six digits of r*65536 + g*256 + b behind a `#` parse back to (r, g, b) |
| ColorMath.SixDigitValue | services/ChatService.js:152-156 | The 24-bit value of six digits is the channels' weighted sum |
| ColorMath.RgbToHexDigits | services/ChatService.js:162 | The `1 << 24` trick prints seven digits, and dropping the first leaves the six fixed-width digits of the channels |
| ColorMath.RgbToHex | services/ChatService.js:161-163 | `_rgbToHex` always gives `#` plus six lower-case hex digits |
| ColorMath.RgbToHexRoundTrip | services/ChatService.js:151-163 | `_hexToRgb(_rgbToHex(r, g, b))` gives back (r, g, b) |
| ColorMath.XorWithOnes | services/ChatService.js:74 | XOR with k one-bits subtracts from the mask, for values below 2^k |
| ColorMath.XorInvolution | services/ChatService.js:74 | XOR with 0xFFFFFF stays within 24 bits and undoes itself |
| ColorMath.ComplementHex | services/ChatService.js:74 | The XOR complement always prints as `#` plus six lower-case hex digits, whichever form the input had |
| ColorMath.ComplementDigits | services/ChatService.js:74 | The printed complement is the six digits of 0xFFFFFF − v, where v is the colour's value |
| ColorMath.ComplementChannels | services/ChatService.js:74 | Those six digits have channels 255 − r, 255 − g, 255 − b |
| ColorMath.ComplementInvertsChannels | services/ChatService.js:74 | The complement of a `#`-colour inverts every channel |
| ColorMath.InvertedChannels | services/ChatService.js:74 | Inverting the weighted sum inverts each channel |
| ColorMath.ChannelsOfValue | services/ChatService.js:152-156 | A `#`-colour's value is the weighted sum of its parsed channels |
| ColorMath.ComplementTwice | services/ChatService.js:74 | Complementing twice gives a colour with the original channels |
| ColorMath.CanonicalIsHexColor | services/ChatService.js:151-163 | Every generated colour is accepted by `_hexToRgb` |
| ColorMath.Clamp | services/ChatService.js:95-97 | `Math.max(0, Math.min(255, v))` keeps values in range and otherwise pins them to 0 or 255 |
| ColorMath.Jitter | services/ChatService.js:95-97 | `Math.floor(x * 60 - 30)` lies in [−30, 29] for a draw x in [0, 1) |
| ColorMath.ClampedJitterClose | services/ChatService.js:95-97 | A jittered and clamped channel stays within 30 of the original |
| ColorMath.WithHash | services/ChatService.js:27 | The result starts with `#`; an input starting with `#` is kept, and any other input gets a `#` in front |
| ColorMath.WithHashIdempotent | components/ImportModal.jsx:31 | Adding the `#` twice is adding it once |
| RuleEngine.NormalizeColors | services/ChatService.js:27 | The palette is prefixed entry by entry, and its length and order are kept |
| RuleEngine.Take | services/ChatService.js:69 | `slice(0, n)` is the prefix of length min(|s|, n) |
| RuleEngine.ParsableColors | services/ChatService.js:70-71 | The colours that `if (!rgb) continue` lets through all parse |
| RuleEngine.ParsableColorsAll | services/ChatService.js:70-71 | When every colour parses, none is skipped |
| RuleEngine.ParsableColorsNone | services/ChatService.js:70-71 | When no colour parses, nothing comes through |
| RuleEngine.ParsableSnoc | services/ChatService.js:69-71 | One loop round adds the colour exactly when it parses |
| RuleEngine.ComplementariesSnoc | services/ChatService.js:69-81 | One round of the complement loop pushes the entry of a parsable colour and nothing otherwise |
| RuleEngine.Complementaries | services/ChatService.js:66-84 | One complement entry per parsable colour, never more than there are colours |
| RuleEngine.GenerateComplementaryColors | services/ChatService.js:66-84 | The loop over the first three colours gives one complement entry per parsable colour, in order |
| RuleEngine.SimilarsSkip | services/ChatService.js:90-92 | A colour that does not parse draws nothing and adds nothing |
| RuleEngine.SimilarsPush | services/ChatService.js:90-105 | A parsable colour adds the entry jittered with the next three draws |
| RuleEngine.GenerateSimilarColors | services/ChatService.js:87-109 | The loop gives the specified similar entries and consumes three draws per parsable colour |
| RuleEngine.SimilarEntry | services/ChatService.js:94-100 | A similar entry is canonical hex, and each of its channels lies within 30 of the source colour's channel |
| RuleEngine.SimilarsClose | services/ChatService.js:87-109 | Every similar suggestion is canonical hex within 30 per channel of the colour it comes from |
| RuleEngine.Similars | services/ChatService.js:87-109 | One jittered entry per parsable colour, never more than there are colours |
| RuleEngine.Randoms | services/ChatService.js:112-130 | Exactly `count` entries |
| RuleEngine.RandomsPush | services/ChatService.js:115-126 | A round of the random loop pushes the entry made from the next three draws |
| RuleEngine.GenerateRandomColors | services/ChatService.js:112-130 | The loop gives `count` random entries and consumes three draws per entry |
| RuleEngine.AnalyzePalette | services/ChatService.js:133-148 | Each of the four advice texts is chosen exactly for its size range: 0, 1, more than 5, or 2 to 5 (this one with the count in decimal) |
| RuleEngine.ClassifyFirstMatch | services/ChatService.js:34-57 | The branch taken mentions one of its keywords, and no earlier branch's keyword occurs |
| RuleEngine.ClassifyBranches | services/ChatService.js:34-57 | The first keyword family mentioned, in the order of the `if` chain, is the branch taken; with none, the generic one |
| RuleEngine.Respond | services/ChatService.js:30-62 | The `if` chain with its generator calls gives the specified reply for the branch taken |
| RuleEngine.MixColors | services/ChatService.js:49-56 | The generic branch's three generator calls and slices give the specified mix |
| RuleEngine.ComplementaryContainsComplement | services/ChatService.js:34 | The test for "complementary" is subsumed by the one for "complement" |
| RuleEngine.ProcessMessage | services/ChatService.js:22-63 | The method resolves to the specified rule reply for the lower-cased message and the prefixed palette |
| RuleEngine.GenericReply | services/ChatService.js:49-56 | The generic list is at most two complements, then at most two similar colours, then exactly one random colour drawn after the similar draws |
| RuleEngine.RuleReply | services/ChatService.js:22-63 | On the lower-cased message, the first keyword family present decides: complement gives one entry per parsable colour among the first three; similar the same; random exactly five; analyze the count-based critique of the palette and no suggestions; otherwise the generic text with one to five suggestions |
| RuleEngine.TopicReply | services/ChatService.js:33-57 | Per branch: at most three suggestions, one per parsable colour, for complement and similar; five for random; none and the critique for analyze; one to five for the generic mix |
| RuleEngine.GenericMix | services/ChatService.js:52-56 | Twice min(2, parsable colours) entries and then one more, the last being the random entry drawn after the similar pass |
| RuleEngine.ComplementEntryWellFormed | services/ChatService.js:74-80 | A complement entry is canonical hex named by the lookup |
| RuleEngine.SimilarEntryWellFormed | services/ChatService.js:99-105 | A similar entry is canonical hex named by the lookup |
| RuleEngine.RandomEntryWellFormed | services/ChatService.js:116-126 | A random entry is canonical hex named by the lookup |
| RuleEngine.ComplementariesWellFormed | services/ChatService.js:66-84 | Every complement suggestion is well formed |
| RuleEngine.ComplementariesAt | services/ChatService.js:66-84 | There is one complement per parsable colour, and each is well formed |
| RuleEngine.SimilarsWellFormed | services/ChatService.js:87-109 | Every similar suggestion is well formed |
| RuleEngine.SimilarsAt | services/ChatService.js:87-109 | There is one similar entry per parsable colour, and each is well formed |
| RuleEngine.RandomsWellFormed | services/ChatService.js:112-130 | Every random suggestion is well formed |
| RuleEngine.RandomsAt | services/ChatService.js:112-130 | Each random entry is well formed |
| RuleEngine.MixWellFormed | services/ChatService.js:52-56 | Concatenating slices of well-formed lists keeps every entry well formed |
| RuleEngine.RuleReplyWellFormed | services/ChatService.js:22-63 | Every suggestion of every branch is `#` plus six lower-case digits named by the lookup |
| RuleEngine.ParsableColorsPrefixed | services/ChatService.js:27 | The colours the generators read all start with `#` |
| RuleEngine.FirstColorsPrefixed | services/ChatService.js:27 | The generators see at most three colours, each starting with `#` |
| LlmEngine.ReplyText | services/ChatService.js:231 | Content that is present and non-empty is the reply text; otherwise the text is the fixed default |
| LlmEngine.ErrorReply | services/ChatService.js:272-278 | The `catch` reply has no suggestions, and its message quotes the error right after the fixed prefix |
| LlmEngine.TokenAt | services/ChatService.js:235 | The alternation tries six digits first and falls back to three; the token found is `#` plus 6 or 3 hex digits, and neither longer alternative was possible |
| LlmEngine.HexTokensWellFormed | services/ChatService.js:239 | Every token `match(hexCodeRegex)` returns is `#` plus six or three hex digits |
| LlmEngine.HexTokensNeedHash | services/ChatService.js:239 | A text without `#` yields no token |
| LlmEngine.HexTokens | services/ChatService.js:235-239 | Every token is `#` plus six or three hex digits, and there is none exactly when no position of the text starts one |
| LlmEngine.HexTokensSound | services/ChatService.js:235-239 | Every token found is the slice of the text where the regex matches, at strictly increasing, non-overlapping positions from where the scan starts |
| LlmEngine.TokensCons | services/ChatService.js:235-239 | A token in front of the tokens found from its end keeps them in order and without overlap |
| LlmEngine.HexTokensFirst | services/ChatService.js:235-239 | The first position that starts a token gives the first token found |
| LlmEngine.HexTokensFindAny | services/ChatService.js:235-239 | A token anywhere in the text means the scan finds at least one |
| LlmEngine.HexTokensNone | services/ChatService.js:235-239 | When no position starts a token, the scan finds none |
| LlmEngine.TwoTokens | services/ChatService.js:235-239 | `"Try #AABBCC and #112233"` yields `#AABBCC` then `#112233` |
| LlmEngine.FirstTokenAtStart | services/ChatService.js:244 | A text that opens with a token yields that token first |
| LlmEngine.FirstNameChar | services/ChatService.js:236 | The lazy `[^\n]*?` stops at the first name character and crosses no newline |
| LlmEngine.RunEnd | services/ChatService.js:236 | The greedy `[A-Za-z\s]+` runs to the end of the run of name characters |
| LlmEngine.AltMatch | services/ChatService.js:236 | A match with either alternative is `#`, then the digits, then a maximal run of name characters |
| LlmEngine.MatchAt | services/ChatService.js:236 | A match anchored at a position has that shape |
| LlmEngine.NextMatch | services/ChatService.js:243 | `exec` from `lastIndex` finds a well-placed match at or after it |
| LlmEngine.NextMatchLeftmost | services/ChatService.js:243 | The match `exec` returns is the leftmost one, and no earlier start matches |
| LlmEngine.MatchedHex | services/ChatService.js:244 | The hex taken from the matched text is a hex token |
| LlmEngine.NamedColorsStep | services/ChatService.js:243-256 | One round of the `exec` loop pushes the entry of the match and resumes at its end |
| LlmEngine.NamedPassRound | services/ChatService.js:243-256 | One round preserves the loop invariant |
| LlmEngine.NamedPassDone | services/ChatService.js:243 | When no match is left, what was pushed is the whole pass |
| LlmEngine.EntryOfMatch | services/ChatService.js:244-255 | The loop body computes the specified entry for a match |
| LlmEngine.NamedPass | services/ChatService.js:242-256 | The `while` loop over `exec` gives exactly the specified named entries |
| LlmEngine.ChosenNameAccepted | services/ChatService.js:245-250 | The chosen name is the lookup's or a run of at least three name characters that starts and ends with a letter, and it is the trimmed capture whenever that has at least three characters |
| LlmEngine.ChosenName | services/ChatService.js:245-250 | A trimmed capture shorter than three characters gives the lookup name; a longer one is kept as the name |
| LlmEngine.NamedEntryShape | services/ChatService.js:244-255 | Each named entry is a hex token with an accepted name, and the name is the trimmed capture when that has at least three characters |
| LlmEngine.NamedColorsShape | services/ChatService.js:243-256 | Every entry of the named pass has that shape |
| LlmEngine.NamedColorsFrom | services/ChatService.js:242-256 | Every entry of the `exec` loop carries a hex token, and each match takes at least five characters of the text |
| LlmEngine.TrailingTokenBacktracks | services/ChatService.js:236 | On `#ABCDEF` the regex backtracks to three digits and takes `DEF` as the name |
| LlmEngine.TrailingMatch | services/ChatService.js:236 | The match found in `#ABCDEF` is the three-digit one |
| LlmEngine.TrailingEntry | services/ChatService.js:244-255 | The entry for that match is (`#ABCDEF`, `DEF`) |
| LlmEngine.TrailingHex | services/ChatService.js:244 | The hex of that match is the six-digit token of the whole matched text |
| LlmEngine.KeptName | services/ChatService.js:245-250 | A captured name of three capital letters is kept |
| LlmEngine.FallbackPass | services/ChatService.js:259-266 | The fallback loop gives one lookup-named entry per hex token, in order |
| LlmEngine.ProcessMessage | services/ChatService.js:174-279 | The method resolves to the specified reply for the configuration and the request's outcome |
| LlmEngine.LlmReply | services/ChatService.js:174-279 | Missing endpoint or key gives the fixed text and no suggestions; a rejected or thrown request gives no suggestions and quotes the error; an answer keeps its text, and its suggestions are hex tokens, empty exactly when the text holds no token |
| LlmEngine.NotConfiguredReply | services/ChatService.js:176-182 | With no endpoint or no key, the reply is the fixed text with no suggestions, whatever the request would have done |
| LlmEngine.ErrorRepliesQuote | services/ChatService.js:223-226 | A non-ok status or a thrown error gives no suggestions and a message that contains the error |
| LlmEngine.RejectedMessageQuotesStatus | services/ChatService.js:225 | The status code appears in the rejected-request message |
| LlmEngine.AnswerTextKept | services/ChatService.js:231 | Answered content is the reply text unchanged; missing or empty content gives the default text |
| LlmEngine.FallbackWhenUnnamed | services/ChatService.js:259-266 | When the named pass finds nothing, the suggestions are the hex tokens in text order, each named by the lookup |
| LlmEngine.NamedWhenFound | services/ChatService.js:258-266 | When the named pass finds something, its entries are the suggestions |
| LlmEngine.ParsedSuggestionsShape | services/ChatService.js:233-266 | Every parsed suggestion is a hex token with the lookup's name or an accepted name |
| LlmEngine.ParsedSuggestions | services/ChatService.js:238-266 | Every suggestion is a hex token, and the list is empty exactly when the text holds no hex token |
| ChatService.NewLlmService | services/ChatService.js:168-172 | The LLM service holds the configuration's endpoint and key |
| ChatService.CreateChatService | services/ChatService.js:283-285 | An LLM service is made exactly when `useLLM` is set, and it is made from the configuration |
| ChatService.ProcessMessage | services/ChatService.js:11-13 | The call goes to the chosen service's own `processMessage` |
| ChatService.Reply | services/ChatService.js:22-279 | A rule service suggests at most five colours; an LLM service without endpoint or key gives the fixed text and none; an LLM request that did not answer gives none |
| ChatService.DefaultConfigNeverCalls | services/ChatService.js:168-182 | An LLM service made from the default empty settings always answers with the not-configured text |
| ChatService.RuleServiceIgnoresOutcome | services/ChatService.js:283-285 | The rule service's reply does not depend on any LLM request |
| AppContext.Spread | components/ColorItem.jsx:21-24 | `{ ...prevState }` names every key |
| AppContext.Override | contexts/AppContext.jsx:24-32 | A key the object names takes its value; any other key keeps its current one |
| AppContext.Merge | contexts/AppContext.jsx:29-32 | Every key the object names takes the object's value, and every other key keeps the previous one |
| AppContext.KeysOfMerge | contexts/AppContext.jsx:29-32 | The same, key by key, for the fields the merge builds |
| AppContext.Apply | contexts/AppContext.jsx:22-34 | The object, or the updater's result on the previous state, sets the keys it names and leaves every other key as it was |
| AppContext.MergeKeys | contexts/AppContext.jsx:22-34 | A merge sets every named key to the object's value and keeps every other key |
| AppContext.MergeEmpty | contexts/AppContext.jsx:29-32 | Merging `{}` changes nothing |
| AppContext.MergeIdempotent | contexts/AppContext.jsx:29-32 | Merging the same object twice is merging it once |
| AppContext.MergeThen | contexts/AppContext.jsx:22-34 | Two merges in a row are one merge of the combined object |
| AppContext.MergeFull | contexts/AppContext.jsx:24-27 | An object naming every key gives the same state whatever came before |
| AppContext.MergeSpread | contexts/AppContext.jsx:24-27 | Merging the spread of a state gives that state |
| AppContext.SpreadWithColors | components/ColorItem.jsx:18-25 | An updater returning `{ ...prev, colors }` changes the colours and nothing else |
| AppContext.Store.constructor | contexts/AppContext.jsx:6-20 | The provider starts from the initial state |
| AppContext.Store.SetState | contexts/AppContext.jsx:22-34 | `setState` merges the object, or the updater's result on the previous state, over the previous state |
| ImportModal.ImportedColors | components/ImportModal.jsx:29-31 | There is one colour per line, so one more than the newlines, and each is the line itself when it starts with `#` and `#` plus the line otherwise |
| ImportModal.ImportRoundTrip | components/ImportModal.jsx:29-31 | Writing `#`-colours one per line and importing them gives the same colours back |
| ImportModal.ImportIdempotent | components/ImportModal.jsx:29-31 | Imported colours are importable, and exporting and re-importing them changes nothing |
| ImportModal.ImportDialog.constructor | components/ImportModal.jsx:17 | The dialog opens with no submission in progress |
| ImportModal.ImportDialog.OnSubmit | components/ImportModal.jsx:24-37 | For a validated text the colours are replaced by the imported ones, no other key changes, and the dialog closes with the submitting flag cleared |
| SaveModal.SelectedPalette | components/SaveModal.jsx:21-25 | `palettes[paletteIndex] \|\| {}` finds a palette exactly for an index in range |
| SaveModal.Saved | components/SaveModal.jsx:39-65 | Only the palettes and the selection change; an overwrite keeps the count and the selection and gives the selected palette the current colours; otherwise one palette with the current colours, new id and name is appended and selected; every other palette stays |
| SaveModal.SaveOverwrites | components/SaveModal.jsx:39-46 | For the selected palette's own name, only that palette changes: it keeps its id and name and takes the current colours |
| SaveModal.SaveAppends | components/SaveModal.jsx:47-66 | Any other name appends a palette of the current colours under the new id, keeps the earlier palettes, and selects the new one |
| SaveModal.SaveWithoutSelection | components/SaveModal.jsx:25 | With no palette at the index, any name appends |
| SaveModal.SaveStoresColors | components/SaveModal.jsx:36-71 | After saving, some palette has the submitted name and the current colours, and the colours are kept |
| SaveModal.SaveKeepsIdsDistinct | components/SaveModal.jsx:47-54 | A fresh id keeps the palette ids distinct |
| SaveModal.SaveDialog.constructor | components/SaveModal.jsx:27 | The dialog opens with no submission in progress |
| SaveModal.SaveDialog.OnSubmit | components/SaveModal.jsx:34-71 | For a validated name the state becomes the specified saved state, and the dialog closes with the submitting flag cleared |
| ColorPicker.ChosenColor | components/ColorPicker.jsx:44 | `color.hex \|\| color` is the picker's hex, or the plain text itself |
| ColorPicker.ReplaceAtKeepsOthers | components/ColorPicker.jsx:43-44 | Only the entry at the index changes; the length and every other entry stay |
| ColorPicker.ReplaceAtSame | components/ColorPicker.jsx:43-44 | Writing back the value an entry already holds changes nothing |
| ColorPicker.OpenFlags.constructor | components/ColorPicker.jsx:63-64 | No picker is open at first |
| ColorPicker.OpenFlags.Close | components/ColorPicker.jsx:28-31 | Closing sets this index's flag to false and keeps the others |
| ColorPicker.Picker.constructor | components/ColorPicker.jsx:9 | The local colour starts as the parent's colour |
| ColorPicker.Picker.SyncColor | components/ColorPicker.jsx:11-13 | A new parent colour resets the local one |
| ColorPicker.Picker.CommitColorChange | components/ColorPicker.jsx:41-50 | The chosen colour is written at this picker's index, and no other key changes |
| ColorPicker.Picker.HandleChange | components/ColorPicker.jsx:52-59 | The local colour becomes the chosen one, and a listener gets this index and that colour |
| ColorPicker.Picker.HandleClickOutside | components/ColorPicker.jsx:17-33 | A click outside commits a changed local colour and closes this picker; any other click changes nothing |
| ColorItem.RemoveAt | components/ColorItem.jsx:19-20 | `splice(index, 1)` past the end leaves the colours as they are |
| ColorItem.RemoveAtDropsOne | components/ColorItem.jsx:19-20 | Exactly the entry at the index goes, and the others keep their order and multiplicity |
| ColorItem.RemoveNeverEmpties | components/ColorItem.jsx:119-129 | The remove control shows only for more than one colour, so removing never empties the palette |
| ColorItem.RemoveItem | components/ColorItem.jsx:17-26 | Removing changes the colours as specified and no other key |
| ColorItem.DigitsThenDash | components/ColorItem.jsx:60 | In digits, a dash and a rest, both parts are determined by the text |
| ColorItem.DraggableId | components/ColorItem.jsx:60 | The id is `color-`, the index's decimal digits, a dash, and then the colour without its leading `#`, or the colour itself when it has none |
| ColorItem.DraggableIdInjective | components/ColorItem.jsx:58-60 | Two items share a drag id only at the same index with the same colour (up to its first `#`) |
| ColorItem.CodeLabel | components/ColorItem.jsx:114 | The label is the colour without its first character, upper-cased character by character: one character shorter, or empty |
| ColorItem.CodeLabelRoundTrip | components/ColorItem.jsx:114 | For a canonical colour the label is six characters, and lower-casing it and adding `#` gives the colour back |
| ColorItem.Item.constructor | components/ColorItem.jsx:56 | The shown colour starts as the palette's colour |
| ColorItem.Item.SyncColor | components/ColorItem.jsx:64-66 | A new palette colour is shown at once |
| ColorItem.Item.HandleLocalColorChange | components/ColorItem.jsx:69-73 | Only a report for this item's index changes the shown colour, and the drag id is unchanged |
| ColorItem.Item.PickerChanged | components/ColorItem.jsx:134-141 | A change in the item's own picker makes the item show the picked colour and keeps the drag id |
| ChatModal.UserEntry | components/ChatModal.jsx:37-41 | The user's entry is the trimmed input, marked as the user's, with no suggestions |
| ChatModal.AnswerEntry | components/ChatModal.jsx:56-78 | A resolved call records the reply's message and suggestions; a thrown one records the apology without suggestions |
| ChatModal.AppendEntryUpdate | components/ChatModal.jsx:43-45 | The history updater appends the entry and changes nothing else |
| ChatModal.Chat.constructor | components/ChatModal.jsx:14-19 | The window opens with an empty input, nothing loading, and the service for the current settings |
| ChatModal.Chat.SettingsChanged | components/ChatModal.jsx:22-24 | The service follows the settings |
| ChatModal.Chat.SetMessage | components/ChatModal.jsx:14 | The input holds the typed text |
| ChatModal.Chat.BeginSend | components/ChatModal.jsx:33-49 | A non-blank input while nothing loads appends the user's entry, clears the input, sets loading and returns the trimmed text; otherwise nothing changes |
| ChatModal.Chat.CompleteSend | components/ChatModal.jsx:56-81 | The answer's entry is appended and loading ends, whatever the outcome |
| ChatModal.Chat.Ask | components/ChatModal.jsx:53 | The call resolves to the current service's reply |
| ChatModal.Chat.HandleSendMessage | components/ChatModal.jsx:33-82 | A send goes ahead exactly when allowed; it appends the user's entry and then the answer's and ends with an empty input and nothing loading; otherwise nothing changes |
| ChatModal.Chat.HandleKeyDown | components/ChatModal.jsx:84-89 | Enter without Shift starts a send; any other key changes nothing |
| ChatModal.Chat.HandleAddColor | components/ChatModal.jsx:91-96 | The suggestion's hex is appended to the palette, and no other key changes |
| ExportModalTabs.IsLlmConfigured | components/ExportModalTabs.jsx:30 | The tab's configured test holds exactly when the settings make an LLM service that would not answer with the not-configured text |
| ExportModalTabs.ContentPrecedence | components/ExportModalTabs.jsx:95-106 | The text is decided first by the configuration, then by loading, then by an error, then by the styles or the placeholder |
| ExportModalTabs.ShadcnContent | components/ExportModalTabs.jsx:95-106 | Not configured, then loading, then an error quoted after `Error: `, then truthy styles, else the placeholder |
| ExportModalTabs.ErrorContentQuotes | components/ExportModalTabs.jsx:103 | An error's text starts with `Error: ` and quotes the error |
| ExportModalTabs.ExportTabs.constructor | components/ExportModalTabs.jsx:23-27 | The first tab is active, and there are no styles, no loading and no error |
| ExportModalTabs.ExportTabs.ButtonShowsWithPlaceholder | components/ExportModalTabs.jsx:105-110 | Whenever the generate button shows, the tab shows the placeholder |
| ExportModalTabs.ExportTabs.BeginGeneration | components/ExportModalTabs.jsx:33-37 | Generation starts exactly when there are no styles yet; then loading is set and the error cleared |
| ExportModalTabs.ExportTabs.CompleteGeneration | components/ExportModalTabs.jsx:47-59 | A success stores the styles, an unsuccessful result stores its message, a thrown error stores it behind the failure prefix, and loading ends in every case |
| ExportModalTabs.ExportTabs.GenerateShadcnStyles | components/ExportModalTabs.jsx:33-60 | Existing styles make the call do nothing; otherwise the outcome is stored and loading is off afterwards |
| ExportModalTabs.ExportTabs.HandleTabChange | components/ExportModalTabs.jsx:63-68 | The tab becomes active, and generation starts exactly for the ShadCN tab when there are no styles, nothing is loading and the LLM is configured |

## Left out

- The LLM request itself is an input to the model, not part of it. That covers building the palette context with colour names, the prompt text, the `fetch` call with its headers and body, and decoding the JSON. The model takes how the request ended as an `LlmOutcome`.
- Colour names: `ntc.name` is a separate library. It appears as the parameter `nameOf`.
- `Math.random()` appears as a sequence of draws in [0, 1). The draws are not random here.
- Clocks appear as timestamp parameters, and `uuid()` and `findInObject` as parameters.
- Cookies: `setCookie` in the save dialog writes browser storage and does not change the state modelled here.
- Rendering is not modelled:
  - markup, styles and the text colour from `adjustTextColor`;
  - the colour name shown under each item;
  - `react-beautiful-dnd` and its transform workaround;
  - scrolling the chat to the bottom;
  - `preventDefault`;
  - adding and removing the document listener;
  - `console` output.
- Form validation by Formik and Yup appears only as the preconditions of the submit methods. `formik.resetForm` is left out, and `closeModal` is the dialog's `isOpen` flag.
- Concurrency: the model runs one handler at a time. Between the two phases of an asynchronous handler, nothing else happens unless the caller interleaves the begin and complete methods itself.
- Text.ToLowerCase: maps only the ASCII letters. JavaScript's full Unicode case mapping is not modelled.
- Text.ToUpperCase: maps only the ASCII letters, as above.
- ImportModal.ImportDialog.OnSubmit: lengths are counted in characters, not in the UTF-16 code units `Yup.string().min(6)` counts, so a text of fewer than six characters that is six code units long is excluded here.
- ColorItem.CodeLabel: `substr(1)` drops one character, not one UTF-16 code unit; the two differ only for a colour that starts with a character outside the Basic Multilingual Plane.
- Values of other JavaScript types are not modelled. Colours, messages and settings are always strings here. A configuration field that is `undefined` (read with `|| ''`) and the `= {}` and `= []` defaults of destructuring are therefore not modelled.
- ExportModalTabs.ExportTabs.GenerateShadcnStyles: what `generateShadCNStyles` returns is an abstract `GenerationOutcome`. The service in this revision defines no such method, so in the running code the call always throws, and the model's `Thrown` case covers that.
- ColorPicker.Picker.CommitColorChange: requires the index to be inside the palette. JavaScript's write past the end of an array, which leaves holes, is not modelled.
- SaveModal.SaveDialog.OnSubmit: models the palettes as values. The source sets `colors` on the palette object it shares with the previous state, so the old state's palette changes too; that aliasing is not captured.
- ChatModal.Chat.HandleKeyDown: models only the part of `handleSendMessage` that runs before its `await`. The rest is `CompleteSend`, and the two together are `HandleSendMessage`.
- ChatModal.Chat.Ask: neither modelled service throws, so the call always resolves. The `Threw` outcome of `HandleSendMessage` covers a service that would throw.
