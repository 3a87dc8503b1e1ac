# emojitell, modelled in Dafny

emojitell turns text into emoji text. This project models its core.

- **The local converter** (`lib/emoji-converter.ts`) has a static table of 48 words, each with its candidate emojis, grouped into themed categories. It has two modes:
  - *emojify*: each known word is replaced by one or more of its emojis, chosen by the emoji style (`standard`, `minimal`, `expressive`, `random`);
  - *emoji combo*: every word becomes an emoji. An unknown word takes the first entry whose key is contained in the word or contains it, and otherwise the `📝` placeholder.
- **The converter form** (`components/emoji-converter-form.tsx`):
  - its state: input, style, mode, output, loading flag, error and custom emojis;
  - the line-prefix mode (`addEmojiToLines`), which puts one emoji and a space in front of every non-blank line, using the form's own seven-entry table;
  - the server-sent-event reader, which appends the `response` of every `data: ` frame to the output;
  - `handleConvert`, which falls back to the local converter when the translation service fails.
- **The custom-emoji dialog** (`components/custom-emoji-dialog.tsx`) validates a word and a whitespace- or comma-separated emoji list before handing them on.
- **The page** (`app/page.tsx`) records a custom emoji; a later entry for the same word replaces the earlier one.
- **The saved-message store** (`lib/local-storage.ts`) keeps a list of records under one key of the browser's storage. New records go first; records are deleted by id.
- **The worker** (`components/api.js`) routes each request (`OPTIONS`, `GET`, `POST`, legacy recommendation queries), caps the input at 1000 characters, chooses the prompt from the mode and reports errors with fixed status codes and messages.

## Module layout

- `Wrappers` (`wrappers.dfy`): `Option` and `Result`.
- `Text` (`text.dfy`): the JavaScript string operations involved:
  - `split(/\s+/)` and `split(/[\s,]+/)` as `SplitRuns`, and `split(literal)` as `SplitOn`;
  - `join`, `trim`, `toLowerCase`, `startsWith`, `includes`, `slice` and the punctuation strip;
  - round-trip and shape lemmas for all of these.
- `EmojiMaps` (`emoji_maps.dfy`): a JavaScript object with string keys, as an ordered association list.
  - `Assign` is `{...d, [k]: v}`.
  - `Spread` is `{...base, ...over}`.
  - `Glyph` is a non-empty string without whitespace. `Candidates` is a non-empty list of glyphs.
- `EmojiConverter` (`emoji_converter.dfy`): `lib/emoji-converter.ts`.
- `TranslationApi` (`translation_api.dfy`): the mode values and the three kinds of reply a translation request can give back to the form:
  - a JSON text;
  - an error;
  - a stream of chunks, possibly ended by an exception.
- `ConverterForm` (`converter_form.dfy`): the form as the class `Form`, with the line-prefix mode and the stream reader.
- `CustomEmojiDialog` (`custom_emoji_dialog.dfy`): the checks as the function `Validate`, and the dialog as the class `Dialog`.
- `Page` (`page.dfy`): the custom-emoji update of the page.
- `LocalStorage` (`local_storage.dfy`): the store as the class `MessageStore`.
- `Worker` (`worker.dfy`): the request handler as the method `Fetch`, with the AI binding as a parameter.

`Math.random()` is a parameter: a `RandomSource` maps the position of a word or line to a draw in `[0, 1)`. The selected index is `floor(draw * n)`, as in the source. The same holds for `Date.now()`, the generated id, the remote AI call and `JSON.parse` of a stream payload: each is a parameter the caller provides.

Three behaviours of the converter are easy to miss when reading it:
- **Case in emojify.** A word without an emoji is emitted lower-cased. The words come from `text.toLowerCase()` (`lib/emoji-converter.ts:84`), so the `return word` at `lib/emoji-converter.ts:110` gives back the lower-cased word, although the comment above it speaks of the original word.
- **Combo style.** On an exact hit, emoji combo applies the style (`lib/emoji-converter.ts:137-148`): all candidates run together for `expressive`, a random candidate for `random`, and the first candidate otherwise.
- **Similar-word fallback.** The fallback (`lib/emoji-converter.ts:151-156`) takes the first key in table order that contains the cleaned word or is contained in it. So a short word such as `i` picks up the emoji of an unrelated key such as `surprise`.

## Model

| member | source | states |
|---|---|---|
| EmojiConverter.RandomIndex | lib/emoji-converter.ts:101 | `Math.floor(Math.random() * n)` is always a valid index below `n` |
| EmojiConverter.RandomPick | lib/emoji-converter.ts:101 | the random style picks a member of the candidates |
| EmojiConverter.Glued | lib/emoji-converter.ts:99 | the candidates run together form one glyph that starts with the primary candidate |
| EmojiConverter.EmojifySelect | lib/emoji-converter.ts:95-106 | minimal gives the primary emoji; expressive gives all run together; random gives a member; standard and any other style give the first two |
| EmojiConverter.ComboSelect | lib/emoji-converter.ts:137-148 | expressive gives all candidates run together; random gives a member; every other style gives the primary one |
| EmojiConverter.Combined | lib/emoji-converter.ts:81 | `{ ...emojiMap, ...customEmojis }`; what a lookup in it gives is stated by `EmojiConverter.CombinedLookup` |
| EmojiConverter.Words | lib/emoji-converter.ts:84 | the words of `text.toLowerCase().split(/\s+/)` are whitespace-free, at least one, and only the first and the last may be empty |
| EmojiConverter.EmojifyWord | lib/emoji-converter.ts:87-111 | a word whose stripped form is a key gives the style's choice of its candidates; any other word is given back as it is; so the unit is the word or one emoji |
| EmojiConverter.ConvertToEmojis | lib/emoji-converter.ts:75-114 | `convertToEmojis`; its meaning, one unit per word, is stated by `EmojiConverter.ConvertToEmojisUnits` |
| EmojiConverter.FirstSimilar | lib/emoji-converter.ts:151-156 | the first key in iteration order that contains the cleaned word or is contained in it, and no entry when none does |
| EmojiConverter.ComboWord | lib/emoji-converter.ts:131-159 | an exact hit uses the style's choice; otherwise the primary glyph of the first similar key; otherwise the placeholder `📝` |
| EmojiConverter.GenerateEmojiMessage | lib/emoji-converter.ts:117-163 | `generateEmojiMessage`; its meaning is stated by `EmojiConverter.GenerateEmojiMessageUnits` and `EmojiConverter.GenerateEmojiMessageOnlyEmoji` |
| EmojiConverter.ConvertToEmojisUnits | lib/emoji-converter.ts:75-114 | the output splits back into one unit per lower-cased word: the style's choice on a hit of the stripped word, the word itself on a miss |
| EmojiConverter.GenerateEmojiMessageUnits | lib/emoji-converter.ts:117-163 | the output splits back into exactly one `ComboWord` unit per word |
| EmojiConverter.GenerateEmojiMessageOnlyEmoji | lib/emoji-converter.ts:117-163 | emoji combo never emits text of its own: every unit is the placeholder, a candidate, or all of an entry's candidates run together |
| EmojiConverter.UnitsSplitShaped | lib/emoji-converter.ts:113 | units that are either the split words or glyphs can be joined by spaces and split back |
| EmojiConverter.EmptyCleanWord | lib/emoji-converter.ts:89-159 | a word that is empty once stripped is kept by emojify and, in combo, becomes the first entry's primary glyph, because every key contains `""` |
| EmojiConverter.EmojiMapFacts | lib/emoji-converter.ts:2-62 | the table has 48 entries, no empty key, and `happy` first |
| EmojiConverter.CombinedLookup | lib/emoji-converter.ts:81 | custom keys shadow static ones; other words resolve as in the static table; static keys keep their order |
| EmojiConverter.CombinedEmptyWord | lib/emoji-converter.ts:81-159 | without an empty custom key, an empty word becomes `happy`'s primary glyph in combo (`😊` unless overridden) and is kept by emojify |
| EmojiMaps.KeyIndex | lib/emoji-converter.ts:91 | the index of the first entry with that key, and none when no entry has it |
| EmojiMaps.Assign | app/page.tsx:14-17 | an existing key keeps its place and the size; a new key is appended at the end; the keys in front are unchanged |
| EmojiMaps.AssignLookupSame | app/page.tsx:14-17 | after the update the key maps to the new emojis |
| EmojiMaps.AssignLookupOther | app/page.tsx:14-17 | every other key maps as before |
| EmojiMaps.AssignUniqueKeys | app/page.tsx:14-17 | the update keeps keys unique |
| EmojiMaps.IndexOfKeyAt | lib/emoji-converter.ts:91 | the first position holding a key is what the lookup finds |
| EmojiMaps.SpreadLookup | lib/emoji-converter.ts:81 | in `{...base, ...over}` a key of `over` resolves to `over`'s value, any other key to `base`'s |
| EmojiMaps.SpreadKeepsOrder | lib/emoji-converter.ts:81 | the spread keeps `base`'s keys in their order at the front |
| EmojiMaps.SpreadUniqueKeys | lib/emoji-converter.ts:81 | the spread of a map with unique keys has unique keys |
| EmojiMaps.GlyphsHaveNoWhitespace | lib/emoji-converter.ts:2-62 | no candidate emoji contains whitespace |
| Text.FreeOfWhitespaceMeans | lib/emoji-converter.ts:84 | a whitespace-free string has no character that `\s` matches |
| Text.LeadingSpaceMeans | components/emoji-converter-form.tsx:57 | the leading run `trim` removes is whitespace and stops at a non-whitespace character |
| Text.TrailingSpaceMeans | components/emoji-converter-form.tsx:57 | the same for the trailing run |
| Text.TrimMeans | components/emoji-converter-form.tsx:57 | `trim()` is empty exactly for all-whitespace strings; otherwise it neither starts nor ends with whitespace |
| Text.Prefix | components/api.js:77 | `slice(0, n)` yields a prefix of length `min(n, length)` |
| Text.JoinNoSeparator | lib/emoji-converter.ts:113 | joining separator-free parts with a separator-free string gives a separator-free string |
| Text.JoinStartsWithFirst | lib/emoji-converter.ts:99 | a join starts with its first part |
| Text.FirstSeparator | lib/emoji-converter.ts:84 | the position of the first separator character, with none before it |
| Text.RunLength | lib/emoji-converter.ts:84 | the length of the run of separators at the front, as the regex quantifier `+` consumes it |
| Text.SplitRuns | lib/emoji-converter.ts:84 | a regular-expression split always yields at least one piece, so `""` yields `[""]` |
| Text.SplitRunsShaped | lib/emoji-converter.ts:84 | `split(/\s+/)` yields separator-free pieces, of which only the first and last may be empty |
| Text.SplitRunsFirstPiece | lib/emoji-converter.ts:84 | a string that does not start with a separator has a non-empty first piece |
| Text.SplitShapedTail | lib/emoji-converter.ts:84 | the tail of a split result is a split result |
| Text.SplitRunsCons | lib/emoji-converter.ts:84 | splitting a piece, a space and a rest gives the piece followed by the split of the rest |
| Text.SplitRunsJoin | lib/emoji-converter.ts:113 | joining split-shaped parts by single spaces and splitting again gives the parts back |
| Text.IndexOf | components/emoji-converter-form.tsx:133 | a found separator lies inside the string |
| Text.IndexOfMeans | components/emoji-converter-form.tsx:133 | the found index is the first occurrence; no index means no occurrence |
| Text.IndexOfAbsentHead | components/emoji-converter-form.tsx:133 | a separator whose first character is absent is not found |
| Text.IndexOfFirst | components/emoji-converter-form.tsx:133 | the first occurrence is what is found |
| Text.SplitOn | components/emoji-converter-form.tsx:193 | a literal split always yields at least one piece |
| Text.SplitOnPiecesLackSeparator | components/emoji-converter-form.tsx:193 | `split("\n")` pieces contain no newline |
| Text.SplitOnJoin | components/emoji-converter-form.tsx:239 | newline-free lines joined by `\n` split back into the same lines |
| ConverterForm.LineWords | components/emoji-converter-form.tsx:200 | the first `min(3, n)` words of the `n` words of the lower-cased line, as a prefix of its split |
| ConverterForm.LineSelect | components/emoji-converter-form.tsx:216-230 | random picks a member; every other style the primary emoji |
| ConverterForm.LineEmoji | components/emoji-converter-form.tsx:204-234 | the first of the words whose stripped form is a key decides the emoji; with none, the placeholder |
| ConverterForm.PrefixLine | components/emoji-converter-form.tsx:196-237 | a blank line is kept; any other line is kept whole behind one emoji and one space |
| ConverterForm.LineDict | components/emoji-converter-form.tsx:207 | `{ ...emojiMap, ...customEmojis }` over the form's own table; what a lookup in it gives is stated by `ConverterForm.LineDictLookup` |
| ConverterForm.AddEmojiToLines | components/emoji-converter-form.tsx:191-240 | `addEmojiToLines`; its meaning, line for line, is stated by `ConverterForm.AddEmojiToLinesLines` |
| ConverterForm.AddEmojiToLinesLines | components/emoji-converter-form.tsx:191-240 | the output has exactly the input's lines, each prefixed or kept |
| ConverterForm.PrefixLineNoNewline | components/emoji-converter-form.tsx:236 | prefixing adds no newline, so lines stay lines |
| ConverterForm.LineDictLookup | components/emoji-converter-form.tsx:207 | custom keys win and other keys resolve in the form's own table only |
| ConverterForm.LocalMapFacts | components/emoji-converter-form.tsx:487-497 | the form's table is the library's emotion category, seven entries |
| ConverterForm.DogInLibraryOnly | components/emoji-converter-form.tsx:487-497 | `dog` is a key of the library's table but not of the form's, and the line-prefix mode gives the words `["dog"]` the placeholder in every style |
| Text.JoinEmptyAppend | components/emoji-converter-form.tsx:143 | appending pieces one after another: the `join("")` of two runs of pieces is that of the first followed by that of the second |
| ConverterForm.FramesTextAppend | components/emoji-converter-form.tsx:133-150 | segments of a chunk contribute in order |
| ConverterForm.StreamTextAppend | components/emoji-converter-form.tsx:124-152 | chunks contribute in arrival order |
| ConverterForm.FrameText | components/emoji-converter-form.tsx:135-144 | what one segment adds; its meaning is stated by `ConverterForm.DataFrame`, `ConverterForm.SkippedSegment` and `ConverterForm.Form.ReadSegment` |
| ConverterForm.DataFrame | components/emoji-converter-form.tsx:135-143 | a `data: ` frame adds the `response` of its parsed payload |
| ConverterForm.OtherSegment | components/emoji-converter-form.tsx:135 | a segment with no whitespace at either end whose first character is not `d` cannot start with `data: ` and adds nothing; `ConverterForm.SkippedSegment` states the general case |
| ConverterForm.SkippedSegment | components/emoji-converter-form.tsx:135-148 | a segment that is not a data frame, or whose payload does not parse, is skipped without affecting its neighbours |
| ConverterForm.TwoFramesOneChunk | components/emoji-converter-form.tsx:128-150 | two frames in one chunk add both responses, in order |
| ConverterForm.FrameCutAcrossChunks | components/emoji-converter-form.tsx:128-150 | a frame cut between two chunks is lost, while the same bytes in one chunk are not |
| ConverterForm.FirstHalfChunk | components/emoji-converter-form.tsx:133-148 | a chunk holding a data frame whose payload does not parse adds nothing |
| ConverterForm.SecondHalfChunk | components/emoji-converter-form.tsx:133-150 | a chunk whose only segment is not a data frame adds nothing |
| ConverterForm.OneFrameChunk | components/emoji-converter-form.tsx:128-150 | a chunk holding one frame adds that frame's response |
| ConverterForm.NoDoubleNewline | components/emoji-converter-form.tsx:133 | a text without `\n\n` is one segment |
| ConverterForm.SegmentsOfTwo | components/emoji-converter-form.tsx:133 | two newline-free segments joined by `\n\n` split back into both |
| ConverterForm.TrimIdentity | components/emoji-converter-form.tsx:135 | a segment without surrounding whitespace is its own trim |
| ConverterForm.ExampleText | components/emoji-converter-form.tsx:46-50 | the sample of each mode; `ConverterForm.ExampleTextNotBlank` states that each passes the blank guard |
| ConverterForm.LocalConvert | components/emoji-converter-form.tsx:93-103 | the local converter of the current mode; `ConverterForm.Form.HandleConvert` states when its result becomes the output |
| ConverterForm.LocalConvertNotEmpty | components/emoji-converter-form.tsx:159-178 | for a text that passes the blank guard, the local fallback of every mode is non-empty, so a failed request still leaves output |
| ConverterForm.Form.constructor | components/emoji-converter-form.tsx:35-42 | the initial state: empty input and output, standard style, emojify mode, not loading, no error |
| ConverterForm.Form.ChangeMode | components/emoji-converter-form.tsx:381-384 | changing the mode clears the output and changes nothing else |
| ConverterForm.Form.SetInput | components/emoji-converter-form.tsx:355 | only the input changes |
| ConverterForm.ExampleTextNotBlank | components/emoji-converter-form.tsx:46-50 | every sample text passes the blank-input guard |
| ConverterForm.Form.ExampleClick | components/emoji-converter-form.tsx:52-54 | the sample of the current mode replaces the input, which is then not blank; nothing else changes |
| ConverterForm.Form.Clear | components/emoji-converter-form.tsx:470-474 | input, output and error are reset, and the rest is unchanged |
| ConverterForm.Form.ReadChunk | components/emoji-converter-form.tsx:128-151 | one chunk appends exactly the responses of its data frames to the output |
| ConverterForm.Form.ReadSegment | components/emoji-converter-form.tsx:135-148 | one segment appends its response when its trimmed text is a data frame whose payload parses, and nothing otherwise |
| ConverterForm.Form.ReadStream | components/emoji-converter-form.tsx:120-152 | the read loop appends exactly the responses of all frames of all chunks, in order |
| ConverterForm.Form.HandleConvert | components/emoji-converter-form.tsx:56-188 | a blank input changes nothing. A JSON reply sets its text. A stream sets the text of its frames. A failure, or an exception in the stream, falls back to the local conversion, whose output is then non-empty, and records the error. Loading ends in every case |
| CustomEmojiDialog.KeepNonBlank | components/custom-emoji-dialog.tsx:53 | a piece is kept exactly when it is a non-blank piece of the input, and the result is no longer than the input |
| CustomEmojiDialog.KeepNonBlankAppend | components/custom-emoji-dialog.tsx:53 | the filter keeps the relative order: filtering two runs of pieces is filtering each and appending the results |
| CustomEmojiDialog.SplitEmojiList | components/custom-emoji-dialog.tsx:51-53 | the emoji list of the field; its meaning is stated by `CustomEmojiDialog.EmojiListGlyphs`, `CustomEmojiDialog.EmojiListJoin` and `CustomEmojiDialog.EmojiListEmpty` |
| CustomEmojiDialog.Validate | components/custom-emoji-dialog.tsx:29-65 | an accepted word is `word.toLowerCase().trim()` and is not empty; the list is the split field and, concatenated, is the field without whitespace and commas |
| CustomEmojiDialog.EmojiListGlyphs | components/custom-emoji-dialog.tsx:51-53 | every listed emoji is non-empty and has no whitespace or comma |
| CustomEmojiDialog.EmojiListJoin | components/custom-emoji-dialog.tsx:51-53 | the list loses nothing but separators and keeps the order |
| CustomEmojiDialog.EmojiListEmpty | components/custom-emoji-dialog.tsx:51-62 | the list is empty exactly when the field holds separators only |
| CustomEmojiDialog.KeepNonBlankJoin | components/custom-emoji-dialog.tsx:51-53 | dropping the blank pieces loses no characters |
| CustomEmojiDialog.SplitRunsUnseparated | components/custom-emoji-dialog.tsx:52 | the split pieces, concatenated, are the field without separators |
| CustomEmojiDialog.UnseparatedAround | components/custom-emoji-dialog.tsx:52 | deleting separators keeps the text before the first run and drops the run |
| CustomEmojiDialog.UnseparatedKeepsFront | components/custom-emoji-dialog.tsx:52 | a separator-free front is kept as it is |
| CustomEmojiDialog.UnseparatedDropsRun | components/custom-emoji-dialog.tsx:52 | a front run of separators disappears |
| CustomEmojiDialog.UnseparatedNone | components/custom-emoji-dialog.tsx:52 | a separator-free text loses nothing |
| CustomEmojiDialog.UnseparatedEmpty | components/custom-emoji-dialog.tsx:52 | nothing remains exactly when everything is a separator |
| CustomEmojiDialog.ToLowerKeepsWhitespace | components/custom-emoji-dialog.tsx:65 | lower-casing neither creates nor removes whitespace |
| CustomEmojiDialog.NormalisedWordNotEmpty | components/custom-emoji-dialog.tsx:32-39 | the normalised word is empty exactly when the word is blank |
| CustomEmojiDialog.ValidateOutcomes | components/custom-emoji-dialog.tsx:29-65 | each rejection exactly for its inputs, in order; acceptance exactly when the word is not blank and the field has a non-separator character |
| CustomEmojiDialog.OnlyCommasRejected | components/custom-emoji-dialog.tsx:41-62 | a field of commas passes the blank check and is then rejected as invalid |
| CustomEmojiDialog.Dialog.constructor | components/custom-emoji-dialog.tsx:24-26 | both fields empty, the dialog closed |
| CustomEmojiDialog.Dialog.SetWord | components/custom-emoji-dialog.tsx:24 | only the word changes |
| CustomEmojiDialog.Dialog.SetEmojis | components/custom-emoji-dialog.tsx:25 | only the emoji field changes |
| CustomEmojiDialog.Dialog.SetOpen | components/custom-emoji-dialog.tsx:26 | only the open flag changes |
| CustomEmojiDialog.Dialog.HandleSubmit | components/custom-emoji-dialog.tsx:29-76 | the outcome is `Validate` of the fields; success clears both fields and closes; a refusal leaves the dialog as it was |
| Page.AddCustomEmoji | app/page.tsx:13-18 | the word now maps to the new emojis; every other word is unchanged; unique keys stay unique |
| Page.AssignLeavesOthers | app/page.tsx:14-17 | no other key's value changes |
| Page.AddCustomEmojiReplaces | app/page.tsx:13-18 | a second list for the same word replaces the first and does not grow the map |
| Page.AddCustomEmojiIdempotent | app/page.tsx:13-18 | adding the same pair twice is adding it once |
| Page.Overlay | app/page.tsx:11-18 | the custom emojis built from any sequence of submissions have unique keys |
| Page.SubmittedWordTakesEffect | app/page.tsx:13-18 | after a submission, both the converter's and the form's tables map the word to the submitted emojis |
| LocalStorage.Stamp | lib/local-storage.ts:22-26 | the record has the draft's fields with the given id and time |
| LocalStorage.WithoutId | lib/local-storage.ts:63 | no surviving record has the deleted id |
| LocalStorage.WithoutIdMembers | lib/local-storage.ts:63 | a record survives exactly when it was there and has another id |
| LocalStorage.WithoutIdAppend | lib/local-storage.ts:63 | the filter keeps the relative order |
| LocalStorage.WithoutAbsentId | lib/local-storage.ts:61-68 | deleting an absent id changes nothing |
| LocalStorage.WithoutIdIdempotent | lib/local-storage.ts:61-68 | deleting twice is deleting once |
| LocalStorage.SaveThenDelete | lib/local-storage.ts:19-68 | deleting the freshly saved id restores the list |
| LocalStorage.MessageStore.constructor | lib/local-storage.ts:16 | the store starts from the given window flag and stored value |
| LocalStorage.MessageStore.GetMessages | lib/local-storage.ts:42-58 | the stored list, or empty without a window, a value or a parsable value |
| LocalStorage.MessageStore.SaveMessage | lib/local-storage.ts:19-39 | the stamped record goes in front of the existing ones, nothing is dropped, and without a window nothing is stored |
| LocalStorage.MessageStore.DeleteMessage | lib/local-storage.ts:61-68 | the stored list becomes the old list without that id |
| LocalStorage.MessageStore.ClearAllMessages | lib/local-storage.ts:71-75 | the key is removed and nothing is read back |
| LocalStorage.SaveThenDeleteRestores | lib/local-storage.ts:19-68 | save followed by delete of the new id leaves the list read before |
| Worker.Param | components/api.js:25-31 | a parameter is absent exactly when no pair has its name, and otherwise its value is that of the first pair with the name |
| Worker.InputText | components/api.js:25-47 | GET takes `query`, else `text`, else `''`; POST takes `text`, else `query`, else `''`, where an empty value counts as absent; `Worker.PreferenceReversed` states the difference |
| Worker.ModeOf | components/api.js:25-47 | the mode parameter or field, `emoji-combo` by default on GET and `emojify` on POST; `Worker.Fetch` states how it selects the prompt |
| Worker.StyleOf | components/api.js:25-47 | the style parameter or field, `standard` by default |
| Worker.StreamRequested | components/api.js:25-47 | streaming for the parameter value `true` or a body field `true`; `Worker.Fetch` states the streamed and the JSON replies |
| Worker.IsLegacy | components/api.js:25-34 | a GET with `query` and without `mode`, or a POST with a non-empty `query` and no non-empty `mode`; `Worker.EmptyLegacyQueryUsesText` and `Worker.Fetch` state its routing |
| Worker.LegacyQuery | components/api.js:25-34 | the text a legacy request hands to the recommender; `Worker.EmptyLegacyQueryUsesText` states the empty-query case |
| Worker.TemplateFor | components/api.js:82-122 | each of the three modes selects its own prompt, and everything else the default |
| Worker.AiErrorText | components/api.js:168-180 | the 500 message is `Error processing with AI: ` followed by the error's message, or by `Unknown error` when the message is empty |
| Worker.Recommend | components/api.js:188-231 | an empty query gives 400 `No query provided`. Otherwise the AI is asked with the recommendation prompt, in streaming mode, on at most 100 characters of the query. The answer becomes a stream |
| Worker.Fetch | components/api.js:2-181 | preflight for `OPTIONS`. 400 for a POST body that is not JSON. Legacy queries are routed to the recommender. 400 `No text provided` for empty text and for other methods. Otherwise one AI call on at most 1000 characters with the mode's prompt; its answer is streamed or sent as JSON, and its failure becomes a 500 |
| Worker.PreferenceReversed | components/api.js:25-47 | GET prefers `query` over `text`, while POST prefers `text` over `query` |
| Worker.EmptyLegacyQueryUsesText | components/api.js:25-34 | a GET with an empty `query` and no `mode` is still a legacy request, and the recommender is asked about the `text` parameter instead |

## Left out

- Rendering, toasts, clipboard copy, sharing and saving from the form (`handleSave`, `handleShare`, `handleCopy`) are left out; they are user-interface effects with no logic worth proving.
- The form declares a setter for its emoji style but never calls it, so `ConverterForm.Form` has no operation that changes `emojiStyle`; it stays `standard` after construction. The tab switch (`activeTab`) has no effect on conversion and is left out.
- `lib/api.ts` is not part of this model. Its effect on the form is the three reply kinds of `TranslationApi.ApiReply`: a JSON text, an error string, or a stream of decoded chunks that may end with an exception.
- `fetch`, the stream reader, `TextDecoder`, the remote AI binding, `Math.random`, `Date.now`, `generateId` and `JSON.parse` of a stream payload are parameters. Byte decoding across chunk boundaries is therefore not modelled; chunks arrive as decoded strings.
- Strings are sequences of code points, whereas JavaScript counts UTF-16 units. Lengths, `slice(0, 1000)` and `slice(0, 100)` differ from the source for text beyond the Basic Multilingual Plane.
- `ToLower` maps only `A`–`Z`; JavaScript's `toLowerCase` also folds other scripts. The whitespace class is the one ECMAScript gives `\s` (white space and line terminators), spelled out character by character.
- Objects are ordered association lists in insertion order. JavaScript lists integer-like keys first, so a custom key such as `"1"` would be iterated earlier than the model says. Inherited object properties are not modelled: in the source a lower-cased word such as `constructor` finds `Object.prototype.constructor` in the lookup, which the model treats as a miss.
- JSON values that are not strings (a numeric `text`, a `mode` that is an object) are not modelled; request fields are optional strings. `stream` is modelled only as the test `=== true`.
- `LocalStorage.MessageStore.GetMessages`: a stored value that parses to something other than a list of records is not represented.
- `ConverterForm.Form.ReadStream`: the chunk value is taken to be present; the `if (value)` test for an empty read and the final `done` read are not represented separately.
- `ConverterForm.Form.HandleConvert`: `translatedText` missing from a JSON reply is not represented, and a reply's mode is one of the three `TranslationApi.Mode` values.
- `LocalStorage.MessageStore.SaveMessage`: storage quota errors and the `console.error` paths of the browser storage are not modelled; a write always succeeds.
