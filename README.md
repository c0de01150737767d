# EchoChamber reaction engine, in Dafny

EchoChamber is a SillyTavern extension. After each AI message it asks a language model for a burst of fake audience reactions, such as a Discord chat, a Twitter feed or an MST3K riff, and shows them in a side panel. This project models the logic behind that panel and proves properties of it:

- **Generation pipeline** (`Generation`, index.js 171-441):
  - the gates that stop a run early;
  - the history window taken from the chat;
  - the reaction count and "narrator" styles;
  - the prompt text;
  - routing to one of four backends (a connection profile, Ollama, an OpenAI-compatible server, or the host's own `generateRaw`), with the request each one sends and how each reply is read;
  - the classification of a thrown error as a cancel or a failure.
- **Reaction parser** (`ReactionParser`, index.js 368-419): the line-by-line state machine that turns a completion into `(name, body)` records, and the display pass that picks the records to show.
  - The line pattern at index.js 386 is modelled by its backtracking order, not by the comment above it.
  - `ReactionFormat` adds a round trip: records written one per line as `name: body` parse back to themselves.
- **Style table** (`Styles`, index.js 447-484, 718-735, 984-1192, 1664-1684):
  - built-in and custom chat styles, hidden built-ins and the prompt cache;
  - the style list and the prompt lookup;
  - the editor's select, save and delete;
  - creation from the template form, including the template prompt builder;
  - file-name sanitising on export and import.
  - Each edit is a transition of a `Table` value. The class `StyleStore` performs it in place and is proved to make exactly that transition.
- **connection_utils.js** (`ConnectionUtils`): the bounded poll for the connection manager, profile lookup by name, the message array and the reply-shape chain of `generateWithProfile`.
- **Support modules**:
  - `JsString`: ECMAScript `trim`, `split`, `join`, ASCII `toLowerCase`, decimal printing.
  - `JsValues`: the JavaScript values a reply can be, truthiness, property reads with and without `?.`, and the TypeErrors they throw.
  - `Backend`: requests and responses.
  - `Optional` and `Seqs`: generic helpers.

Anything the extension only hands to the host, the browser or the network is a parameter:
- `cleanMessage`;
- the fetch of prompt files;
- `fetch`, `sendRequest` and `generateRaw`, as their outcomes;
- `JSON.stringify`;
- the clock (`Date.now()` as `now`);
- the answer to `confirm()`;
- whether the user pressed Cancel;
- the undeclared identifier `sys`, whose absence is the `ReferenceError` its evaluation throws.

## Model

| member | source | states |
|---|---|---|
| ReactionParser.StripTags | index.js:369 | cleaning never lengthens the completion and leaves text without '<' alone |
| ReactionParser.StripTagsRemovesTag | index.js:369 | every `<discordchat>`/`</discordchat>` in any ASCII letter case is removed wherever it stands, the text around it cleaned as if it were absent |
| ReactionParser.StripTagsSplitAtLt | index.js:369 | no tag reaches across a '<': the text before one is cleaned independently |
| ReactionParser.CompletionLines | index.js:369-370 | the lines are the trimmed, tag-free completion split on '\n' only: at least one line, none holding '\n', joining them gives the cleaned text back |
| ReactionParser.MatchLine | index.js:386 | defines the two capture groups by the pattern's backtracking order; MatchLineShape, FirstColonSplit and NumberedNameLosesDigit state what they are |
| ReactionParser.MatchLineShape | index.js:386 | every match splits the line at a colon into a non-empty name with no line terminator and a non-empty body that runs to the end of the line |
| ReactionParser.TailOfPlainText | index.js:386 | `:\s*(.+)$` on text without line terminators and with no trailing whitespace captures that text with its leading whitespace dropped |
| ReactionParser.FirstColonSplit | index.js:385-386 | the lazy name splits at the FIRST colon with a character on each side (not the last, as the comment says); with no such colon there is no match |
| ReactionParser.NumberedNameLosesDigit | index.js:386 | backtracking order: a marker run followed directly by ": body" yields the run's last character as the name ("12: x" gives "2") |
| ReactionParser.StripNameNoise | index.js:388 | the result holds none of `*`, `_`, `"`, backtick and is no longer than the input; text without them is unchanged |
| ReactionParser.CleanName | index.js:388-390 | every name has at most 40 characters and none of the four stripped characters |
| ReactionParser.Classify | index.js:377-398 | a trimmed line is blank iff empty, noise iff only noise characters, a `name: body` line iff the pattern matches, an unmatched line otherwise; names are well formed |
| ReactionParser.AppendToLast | index.js:379-395 | only the last (open) record's content grows; every other record and the count stay |
| ReactionParser.ParseCompletion | index.js:369-401 | the loop yields exactly the records of scanning the completion's lines one step at a time |
| ReactionParser.ParsedNamesWellFormed | index.js:388-390 | every parsed name has at most 40 characters and no `*`, `_`, `"`, backtick |
| ReactionParser.Step | index.js:377-399 | defines one line's effect by its kind (blank, noise, `name: body`, unmatched); StepNamed, StepLength, StepKeeps and the line-effect lemmas state it |
| ReactionParser.ParseLines | index.js:376-401 | defines the records after scanning the lines in order; RecordCount, ScanOrderKept and ParsedNamesWellFormed state its properties |
| ReactionParser.StepNamed | index.js:387-393 | a `name: body` line appends its record |
| ReactionParser.StepLength | index.js:376-400 | one line adds a record iff it is a `name: body` line, or an unmatched line with no record open |
| ReactionParser.RecordCount | index.js:376-401 | the record count is the number of `name: body` lines plus one exactly when the first content line is unmatched; there are no records iff no line is content |
| ReactionParser.NoiseLinesIgnored | index.js:382 | removing every noise line changes nothing: noise never creates nor extends a record |
| ReactionParser.BlankLineEffect | index.js:378-380 | a blank line creates no record, and appends "\n\n" to the open record unless it already ends with it |
| ReactionParser.BlankLinesCollapse | index.js:379 | a second blank line in a row changes nothing |
| ReactionParser.UnmatchedLineEffect | index.js:394-399 | an unmatched line extends the open record after one space, or starts a 'User' record when none is open |
| ReactionParser.RepeatedNamesKept | index.js:392-393 | the same `name: body` line twice gives two records: names are not deduplicated |
| ReactionParser.StepKeeps | index.js:376-400 | one line never removes nor renames a record; only the last one's content may change |
| ReactionParser.ScanOrderKept | index.js:376-401 | reading more lines keeps every earlier record in place with its name: records are appended in scan order |
| ReactionParser.QualifyingAppend | index.js:403-407 | the qualifying records of a concatenation are those of each part, in order |
| ReactionParser.QualifyingMembers | index.js:405-406 | a record qualifies, trimmed, iff some parsed record has trimmed content of at least two characters |
| ReactionParser.QualifyingTrimmed | index.js:405-406 | every qualifying body is trimmed and has at least two characters |
| ReactionParser.TakeAtMost | index.js:404 | takes the first min(count, n) records, none when the count is not positive |
| ReactionParser.Select | index.js:403-407 | defines the display as the first `userCount` qualifying records, trimmed; SelectBounds, ShortRecordsSkipped and StopsAtCount state its properties |
| ReactionParser.SelectBounds | index.js:403-408 | at most `userCount` records are shown, they are the first qualifying ones in scan order, and each body is trimmed with length at least 2 |
| ReactionParser.ShortRecordsSkipped | index.js:405 | a record whose trimmed body is shorter than 2 is skipped and does not count toward the limit |
| ReactionParser.StopsAtCount | index.js:404 | once `userCount` records are shown, the records after them are never looked at |
| ReactionParser.SelectForDisplay | index.js:403-408 | the loop shows exactly the first `userCount` qualifying records |
| ReactionParser.DisplayFor | index.js:403-419 | "No valid chat lines generated." iff nothing qualifies; otherwise between 1 and `userCount` records |
| ReactionParser.RenderCompletion | index.js:369-419 | parse then select, giving the display of the completion |
| ReactionParser.EllipsisLineAsWritten | index.js:382 | with the class as written, a line holding only '…' is appended to the open record |
| ReactionParser.EllipsisLineIntended | index.js:382 | with the intended class the '…' line is skipped |
| ReactionParser.SeparatorLinesSkipped | index.js:382 | with the intended class every line of full stops, ellipses, hyphens and underscores is skipped |
| ReactionFormat.MatchFormatLine | index.js:386-391 | a record written as `name: body` (name without colon, marker start or surrounding noise) is matched back to that name and body |
| ReactionFormat.ListMarkerSkipped | index.js:386 | behind any run of list-marker characters and a space, such a line still gives the same name and body |
| ReactionFormat.ClassifyFormatLine | index.js:377-393 | such a line is a `name: body` line whatever the noise class, when the class has no colon |
| ReactionFormat.ParseFormatLines | index.js:376-401 | scanning the written lines gives the records back |
| ReactionFormat.CompletionRoundTrip | index.js:369-401 | a completion of readable records, one per line, parses back to exactly those records |
| Generation.ContextDepth | index.js:223 | the depth is 2 when unset or 0, and is otherwise clamped to 2..8 |
| Generation.HistoryWindow | index.js:222-250 | defines the history as a slice of the chat; HistoryWindowShape states which one |
| Generation.HistoryWindowShape | index.js:222-250 | with user input included the history is exactly the last min(depth, n) messages; without, the last message alone |
| Generation.SelectHistory | index.js:222-250 | the two backward loops and the slices produce exactly that window |
| Generation.WalkBack | index.js:228-230 | the first loop stops at index max(0, n - depth) |
| Generation.NearestUserAtOrBefore | index.js:233-238 | the second loop finds the nearest user message at or before the start, or leaves the start alone |
| Generation.CutFromEarlierStart | index.js:240-244 | slicing from any earlier start and keeping the last `depth` gives the same window: the user-message search has no effect |
| Generation.HistoryTextLines | index.js:252 | the history text is the `name: cleaned message` lines of the window joined by '\n' |
| Generation.ReactionCount | index.js:256-258 | the count is 1 for `nsfw_ava`, `nsfw_kai` and `hypebot`, 5 when unset or 0, and otherwise clamped to 1..20 |
| Generation.TruePrompt | index.js:268-278 | defines the prompt text; PromptLayout, NarratorPromptIgnoresCount and CountedPromptStatesCount state its layout |
| Generation.PromptLayout | index.js:264-278 | the prompt starts with the story header, holds the history, then the count demand and the style prompt after the instruction header, and ends with the closing lines |
| Generation.NarratorPromptIgnoresCount | index.js:264-277 | a narrator prompt does not depend on the count |
| Generation.CountedPromptStatesCount | index.js:264-277 | other prompts carry the count in decimal followed by a space, so different counts give different prompts |
| Generation.RouteFor | index.js:283-366 | a profile iff the source is `profile` and a preset is named; Ollama and OpenAI by their names; the host's generation for everything else |
| Generation.EndpointTrailingSlash | index.js:318-341 | one trailing '/' of the base URL is dropped before the path is appended; a second one is kept |
| Generation.ProfileReply | index.js:312-315 | defines the reading of a profile reply; RepliesCompared relates it to `extractContent` |
| Generation.RepliesCompared | index.js:312-315 | the profile reply agrees with `extractContent` of connection_utils.js where both accept; a `text`-only reply is stringified here, and every reply refused there is stringified here |
| Generation.ProfileCall | index.js:283-315 | a request is sent iff the preset names a profile and the request service exists; it carries the profile id, the style prompt as system message, the prompt as user message and 512 tokens. An unknown profile throws "Profile '<preset>' not found", a missing service "ConnectionManagerRequestService not available"; a sent request's failure is rethrown and its reply is returned as the profile reply reading gives it |
| Generation.ProfileMessagesCompared | index.js:292-301 | those messages are the ones connection_utils.js builds for a non-empty system prompt; the budgets differ (512 against 500) |
| Generation.OllamaCall | index.js:317-338 | no model returns early with nothing sent; with one, the unbound `sys` throws before any fetch; otherwise the request goes to `/api/generate` with 2048 context, 512 predicted tokens and the closing tag as stop. A failed fetch is rethrown, a non-ok reply throws "Ollama API Error(<status>)", and an ok one returns `data.response` (or throws reading it) |
| Generation.OpenAICall | index.js:339-357 | the request goes to `/chat/completions` with the prompt as one user message, 500 tokens and `local-model` when no model is set. A failed fetch is rethrown, a non-ok reply throws "API Error: <status>", and an ok reply returns `choices[0].message.content` or throws the TypeError of reading it; a result comes only from an ok reply |
| Backend.ChoiceContentStrict | index.js:357 | `data.choices[0].message.content` throws exactly when one of the values read is nullish |
| Generation.HostCall | index.js:358-366 | without `generateRaw` it throws "generateRaw not available in context"; with it, the unbound `sys` throws; otherwise `generateRaw` gets the prompt, its value is returned and its failure rethrown |
| Generation.Dispatch | index.js:283-366 | defines the backend call of each route; DispatchSendsPrompt and DispatchQuits state what is sent and when the run quits |
| Generation.DispatchSendsPrompt | index.js:283-366 | every request sent carries the prompt and is of its route's kind; only a profile request carries the style prompt separately; nothing is returned without a request |
| Generation.DispatchQuits | index.js:319-323 | the run returns early only for Ollama without a model |
| Generation.AsText | index.js:369 | only a string result can be cleaned; a nullish one throws the TypeError of reading `replace` |
| Generation.Failure | index.js:423-438 | an error is shown as a cancel iff it is an AbortError, its message mentions "aborted", or the user cancelled; otherwise its message is shown |
| Generation.AbortedMessageLooksCancelled | index.js:423 | a plain Error whose message ends in "aborted" (a network failure text, say) shows as a cancel even when the user cancelled nothing |
| Generation.Finish | index.js:368-439 | defines the panel after the call; FinishOutcomes states its outcomes |
| Generation.FinishOutcomes | index.js:368-439 | a user cancel never shows as a failure; a rendered panel comes only from a string result and shows between 1 and the count of records |
| Generation.Generate | index.js:171-441 | the run is the specification's run, and the style table changes as loading the style prompt changes it, only when the run goes ahead |
| Generation.Request | index.js:221-439 | the prompt is built from the history window, style prompt and count, sent through the route, and the outcome shown |
| Generation.Conclude | index.js:368-439 | the panel is the one determined by the call's outcome |
| Generation.GenerateSpec | index.js:171-441 | defines the whole run; GatesStopEarly, RequestCarriesPrompt, ShownWithinCount and CancelAndNoModel state its properties |
| Generation.GatesStopEarly | index.js:171-188 | disabled, empty chat or a last user message: nothing is requested, no style is loaded, and the panel names the gate |
| Generation.RequestCarriesPrompt | index.js:221-366 | a request is made only past the gates and carries the prompt built from the history window |
| Generation.ShownWithinCount | index.js:256-419 | a rendered panel shows between 1 and the count, at most 20, records, and exactly 1 for a narrator style |
| Generation.CancelAndNoModel | index.js:319-439 | past the gates, a user cancel never shows as a failure, and the processing status stays only for Ollama without a model |
| Styles.StyleFile | index.js:473 | a built-in style's file, `discordtwitch.md` for any other id |
| Styles.AllStyles | index.js:461-468 | defines the style list; AllStylesShape and VisibleMembers state its contents and order |
| Styles.AllStylesShape | index.js:461-468 | the list is the built-ins in order then the custom styles in key order; an entry is listed iff it is a built-in or a custom style under its name, and its id is not hidden |
| Styles.VisibleMembers | index.js:466 | the filter keeps exactly the entries whose id is not hidden |
| Styles.DefaultListing | index.js:453-468 | with nothing hidden and no custom style the list is the ten built-ins |
| Styles.ChatStylePrompt | index.js:470-483 | defines the prompt a load returns; CustomShadowsBuiltIn, LoadIsCached, FailedLoadRetried and UnknownStyleUsesDefaultFile state it |
| Styles.LoadState | index.js:470-483 | defines the table after a load, which caches any fetched prompt, empty included; an empty entry is ignored by the next load (index.js 472); the same lemmas state it |
| Styles.CustomShadowsBuiltIn | index.js:471 | a custom style's prompt wins over cache and file, and nothing is cached |
| Styles.LoadIsCached | index.js:472-478 | after a load that fetched non-empty text, the next load gives the same prompt without fetching |
| Styles.FailedLoadRetried | index.js:474-483 | a failed fetch gives the fallback prompt and caches nothing |
| Styles.UnknownStyleUsesDefaultFile | index.js:473 | an unknown style reads `discordtwitch.md` |
| Styles.StyleStore.LoadChatStyle | index.js:470-483 | returns the custom prompt, else the non-empty cached prompt, else the fetched file (cached), else the fallback |
| Styles.Without | index.js:1160 | a key stays listed iff it was listed and is not the deleted one |
| Styles.WithoutSplit | index.js:1160 | with each key listed once, deleting the key between `p` and `q` leaves exactly `p` then `q`: the other keys keep their order |
| Styles.RemoveShortens | index.js:1160 | a key listed once is removed from exactly one place |
| Styles.SelectSpec | index.js:718-735 | defines the selection transition as a load followed by the selection; SelectKeepsStyles states what it keeps |
| Styles.SelectKeepsStyles | index.js:718-735 | selecting a style changes neither the list nor any custom style; only the cache may gain the loaded prompt |
| Styles.StyleStore.SelectInEditor | index.js:718-735 | the style becomes the selection and the editor shows its prompt as `loadChatStyle` gives it |
| Styles.SaveSpec | index.js:1105-1138 | defines the save transition; SaveCustomInPlace, SaveBuiltInAsCopy and SaveWellFormed state it |
| Styles.SaveCustomInPlace | index.js:1122-1127 | saving a custom style rewrites its name and prompt in place: same key order, same selection |
| Styles.SaveBuiltInAsCopy | index.js:1128-1138 | saving a built-in adds, last, a `" (Custom)"` copy under `custom_<id>_<now>`, which becomes the selection |
| Styles.SaveWellFormed | index.js:1105-1138 | saving keeps each custom key listed once in key order |
| Styles.StyleStore.SaveFromEditor | index.js:1105-1138 | with no selection or a blank name nothing changes; otherwise the transition above |
| Styles.DeleteSpec | index.js:1153-1168 | defines the delete transition; DeleteCustomRemoves, DeleteBuiltInHides, DeleteNeedsConfirmation and DeleteWellFormed state it |
| Styles.DeleteCustomRemoves | index.js:1158-1168 | deleting a confirmed custom style removes only that key: the other custom styles, their key order (one entry shorter), the hidden list and the cache stay; it leaves the list, and the selection is cleared |
| Styles.DeleteBuiltInHides | index.js:1161-1168 | deleting a confirmed built-in appends its id to the hidden list and no listed entry has it |
| Styles.DeleteNeedsConfirmation | index.js:1154-1162 | without a selection or without confirmation nothing changes |
| Styles.DeleteWellFormed | index.js:1153-1168 | deleting keeps each custom key listed once |
| Styles.StyleStore.DeleteFromEditor | index.js:1153-1168 | performs exactly that deletion |
| Styles.OrDefault | index.js:990-1000 | a field's trimmed text, or the default when it is blank |
| Styles.ToneDescription | index.js:1033-1035 | the custom tone only when `custom` is picked and the field is not blank; else the tone's description, or "varied and natural" |
| Styles.LengthDescription | index.js:1050 | a known length's description; an unknown key prints as "undefined" |
| Styles.Picked | index.js:1053-1061 | one text per ticked box, and the text of each ticked box at the position given by the number of ticked boxes before it: exactly the ticked texts, in box order; none iff no box is ticked |
| Styles.TemplatePrompt | index.js:1037-1071 | defines the easy form's prompt as the trimmed template text; TemplateTrimDropsFinalBreak states what the trim removes |
| Styles.TemplateTrimDropsFinalBreak | index.js:1037-1071 | the final `trim()` removes only the line break after the last section, and the prompt starts with the identity or the FORMAT line |
| Styles.TemplateStyle | index.js:988-1071 | an advanced form gives nothing iff its prompt is blank, and otherwise its trimmed prompt; the easy form always gives a style, whose prompt starts with the identity or the FORMAT line; every name and prompt is non-empty and the prompt trimmed |
| Styles.CreateSpec | index.js:1081-1093 | defines the creation transition; CreateAddsStyle and CreateWellFormed state it |
| Styles.CreateAddsStyle | index.js:1081-1093 | the new style is stored under `custom_<now>`, listed last and selected |
| Styles.CreateWellFormed | index.js:1081-1086 | creating keeps each custom key listed once |
| Styles.StyleStore.CreateFromTemplate | index.js:984-1093 | performs exactly the creation |
| Styles.SanitizeId | index.js:1185 | same length, every character a lowercase ASCII letter, digit or '_', each one mapped on its own |
| Styles.SanitizeChar | index.js:1185 | lowercase ASCII letters and digits stay, ASCII capitals are lowered, every other character becomes '_' |
| Styles.SanitizeIdempotent | index.js:1672 | sanitising twice changes nothing more |
| Styles.ExportFileName | index.js:1175-1185 | nothing without an id; otherwise the name field, or the id when the field is empty, each character sanitised, followed by ".md" |
| Styles.StripMdSuffix | index.js:1671 | the last three characters are dropped exactly when they are '.', 'm' or 'M', 'd' or 'D'; otherwise the name is unchanged |
| Styles.ExportImportRoundTrip | index.js:1671-1672 | an exported file imported again is named by the sanitised export name, and its id embeds that text |
| Styles.ImportSpec | index.js:1664-1675 | defines the import transition; ImportWellFormed and ExportImportRoundTrip state it |
| Styles.ImportWellFormed | index.js:1664-1675 | importing keeps each custom key listed once |
| Styles.StyleStore.ImportStyle | index.js:1664-1675 | stores the file's text under `custom_<sanitised name>_<now>` with the name without ".md" |
| ConnectionUtils.WaitForConnectionManager | connection_utils.js:18-28 | at most `maxAttempts` polls; true iff some poll within them sees the manager, and then at the first such poll |
| ConnectionUtils.FindProfile | connection_utils.js:40 | the first profile with that name, none iff no profile has it |
| ConnectionUtils.GetProfileByName | connection_utils.js:33-44 | a profile iff the manager shows up within 10 polls, its list can be read and names it; then the first such profile |
| ConnectionUtils.BuildMessages | connection_utils.js:61-66 | a system message first only when the system prompt is not empty, and always exactly one user message, last |
| ConnectionUtils.BuildMessagesIsProfileMessages | connection_utils.js:61-66 | any array of that shape is the message array the profile request carries |
| ConnectionUtils.ExtractContent | connection_utils.js:90-105 | a truthy `content` first, else a plain string, else a truthy `choices[0].message.content`, else a truthy `text`, each returned as it is; any other shape throws "Invalid response format from API" |
| ConnectionUtils.StringReplyKept | connection_utils.js:93-95 | a string reply is returned as it is, even when empty |
| ConnectionUtils.GenerateWithProfile | connection_utils.js:50-110 | a missing profile throws "Connection profile not found: <name>" before any request; otherwise the request carries the profile id, the messages and 500 tokens, and its reply goes through the extraction |
| JsString.TrimIdempotent | index.js:377 | `trim` is idempotent |
| JsString.TrimEmptyIff | index.js:377-378 | a line trims to empty iff it is all whitespace |
| JsString.SplitJoin | index.js:370 | splitting a join of separator-free pieces gives the pieces back |

## Left out

- DOM and UI work is not modelled: setting the status and panel HTML, `formatMessage` (its HTML and clock), modals, resize handlers and CSS. A panel is an abstract value.
- `cleanMessage` (index.js 208-215) is a function parameter. It decodes entities through a DOM element.
- Network and host calls are parameters: `fetch`, `sendRequest`, `generateRaw`, the fetch of prompt files and `response.json()`. Their outcomes are inputs, and a rejected `response.json()` is one of those outcomes.
- Timers, `debounce`, `AbortController`, the delay between polls and every `await` interleaving are left out. Cancelling shows only as its outcome: an error and the `userCancelled` flag.
- `temperature: 0.7` and the `stream`, `signal`, `extractData`, `includePreset` and `includeInstruct` options are not part of the modelled requests, because nothing the extension decides depends on them.
- `JSON.stringify` is a parameter, and so are the logging calls that stringify. The `console.log` of a reply at connection_utils.js 86 is assumed not to throw.
- Settings arrive already parsed, as integers or absent (`Option<int>`). `parseInt` and Number coercion are not modelled; `|| 5` and `|| 2` are treated as applying to absent or 0.
- `!chat` for a missing chat is the empty chat.
- Strings are sequences of Unicode scalar values (Dafny's `char`), not of UTF-16 code units. A character outside the Basic Multilingual Plane, such as an emoji, has length 1 here and 2 in JavaScript. Two length rules therefore differ for such text:
  - ReactionParser.QualifyingMembers, ReactionParser.Select: the two-character minimum at index.js 405 counts code units in JavaScript. A record whose trimmed body is one astral character ("A: 😀") is shown by the source and skipped here.
  - ReactionParser.CleanName: the 40-character cut at index.js 390 counts code units in JavaScript, so a name holding astral characters is cut at a different place there, possibly between the two halves of a surrogate pair.
  - `toLowerCase` is modelled on ASCII letters only.
  - SanitizeId: a few non-ASCII letters that JavaScript lowercases into ASCII or into two characters (the Kelvin sign, 'İ') are mapped to '_' here. A character outside the Basic Multilingual Plane (an emoji) becomes one '_' here and two in JavaScript, where `replace(/[^a-z0-9]/g, '_')` without the `u` flag replaces each surrogate half (index.js 1185, 1672); the exported file name and the imported id differ accordingly.
- Property lookups are modelled as plain map lookups. A name inherited from `Object.prototype` (such as `custom_styles["toString"]` or `toneDescriptions["constructor"]`) is truthy in JavaScript and not here.
- `Object.keys` order is modelled as insertion order. Integer-like keys, which JavaScript lists first in numeric order, are not modelled. No generated id is integer-like.
- The `typeof … !== 'string'` checks at index.js 1075 and 1112 are left out, because the fields read there are always strings.
- The noise class at index.js 382 is a parameter of the parser. The class as written and the class evidently intended are both defined; see Findings.
- The ids `custom_<now>` and `custom_<id>_<now>` are assumed fresh where a lemma says "listed last" (CreateAddsStyle, SaveBuiltInAsCopy). If the clock repeats, `Put` overwrites in place, as the source does.
- `exportStyle` and the import handler are modelled only for the names and table changes they make. The Blob download and `FileReader` are not modelled.
- `getProfileByName` and `generateWithProfile` take the manager's profile list as one fixed value (`ProfileList`). A list that changes between polls is not modelled.

## Findings

| source | as written | input that shows it | evidently intended | confidence | as-written member | corrected member |
|---|---|---|---|---|---|---|
| index.js:382 | the noise class holds 'â', '€' and '¦', which is a UTF-8 "…" read as Windows-1252, and not '…' itself | a completion line "…" after a record "A: hi": the record becomes "hi …" | '…' lines are skipped like "..." and "---" | high; not executed | ReactionParser.EllipsisLineAsWritten | ReactionParser.EllipsisLineIntended |
