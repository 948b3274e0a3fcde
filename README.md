# DDA.az design system and learning-app core, in Dafny

This project models the logic of the DDA.az driving-licence learning app and of the tools
that turn its design tokens into Figma documents, CSS and a React Native theme:

- **The Figma plugin** (`figma-plugin/code.js`) builds a Figma document of 34 phone screens,
  a design system and a flow map. The model covers these pieces:
  - the document itself (pages, paint and text styles, the font pair in force, the progress
    percentages posted to the plugin's UI), and the dispatch of UI messages to batch operations;
  - font selection with its fallback list;
  - the placement of screens on a four-column grid and of the dark variants in a row below it;
  - the `switch` that selects a builder per screen, with its fallback to the default design;
  - the home screens' action grid and the shared header, tab-bar, button and card builders;
  - the flow map's name-resolved connectors, and `hexToRgb`.
- **The mistakes store** (`src/lib/mistakesStore.ts`) is an insertion-ordered set of question
  ids with subscribers that are notified only when the set actually changes.
- **The exam and practice sessions** (`ExamRunScreen.tsx`, `PracticeInline.tsx`) are state
  machines over the current question, the answers, a countdown and the mistakes store.
  `ResultsScreen.tsx` holds the 80% pass mark and `formatTime` shows the countdown.
- **The build scripts** turn the design tokens into other forms:
  - `generate-tokens.mjs` produces CSS custom properties and a React Native theme;
  - `validate.mjs` checks the tokens, the asset manifest and the CSV files;
  - `export-to-figma.js` produces the Figma export document.

Mutable objects of the source are Dafny classes: the mistakes store, the practice card, the
exam session, the validator's error flag, the Figma document and a screen frame. Their methods
are proved against specification functions. Pure code (the scripts' transforms, `hexToRgb`,
`formatTime`, the pass mark) is written as functions, with lemmas for round trips, exact
characterisations and invariants. JavaScript's own string and object operations are modelled
once, in `JsText` and `JsonValue`: `trim`, `split`, `padStart`, `parseInt`, `String(n)`,
`Object.entries` and property assignment.

Host services are parameters of the model rather than calls:
- the font list and the fonts that fail to load (`FigmaFonts.FontHost`);
- what each screen builder that is not spelled out draws, and whether it throws
  (`ScreenRegistry.Drawing`);
- the contents of the files the scripts read, as an optional parsed value or text, with `None`
  for a read or parse that throws;
- the export timestamp.

## Model

| member | source | states |
|---|---|---|
| TimeFormat.JsRemainder | src/lib/utils.ts:15 | `seconds % 60` with JavaScript's sign rule: in `[0, 60)` for a non-negative dividend, in `(-60, 0]` and minus the remainder of the magnitude for a negative one |
| TimeFormat.ParseTime | src/lib/utils.ts:13-17 | the reader used as the partner of `formatTime`: only a text with a colon after at least one character reads as a time |
| TimeFormat.SecondsField | src/lib/utils.ts:15-16 | the padded seconds of a non-negative time are exactly two decimal digits whose value is the remainder |
| TimeFormat.ColonAfterDigits | src/lib/utils.ts:16 | in "minutes:seconds" the first colon is the one right after the minute digits |
| TimeFormat.ParseTimeOf | src/lib/utils.ts:16 | a digits-colon-two-digits text below 60 seconds reads back as 60·minutes + seconds |
| TimeFormat.ParseFieldsOf | src/lib/utils.ts:16 | the two fields of a well-formed time give 60·minutes + seconds |
| TimeFormat.FormatTimeRoundTrip | src/lib/utils.ts:13-17 | every non-negative number of seconds, formatted and read back, is itself |
| TimeFormat.FormatTime | src/lib/utils.ts:13-17 | the text of a non-negative number of seconds reads back as that number |
| TimeFormat.FormatTimeInjective | src/lib/utils.ts:13-17 | two different non-negative times are never shown with the same text |
| TimeFormat.ExamStartShown | src/components/screens/ExamRunScreen.tsx:12 | the exam's initial 874 seconds show as "14:34" |
| TimeFormat.NegativeInput | src/lib/utils.ts:14-16 | a negative input keeps JavaScript's floor and remainder: −5 shows as "-1:-5" |
| ResultsScreen.PassMark | src/components/screens/ResultsScreen.tsx:9 | `Math.ceil(total * 0.8)` is the least mark whose five-fold reaches four times the total |
| ResultsScreen.Passed | src/components/screens/ResultsScreen.tsx:9 | passing is scoring at least 80%: 5·score ≥ 4·total |
| ResultsScreen.TenQuestionPassMark | src/components/screens/ResultsScreen.tsx:9 | for the ten-question exam the mark is 8: 8/10 passes and 7/10 fails |
| ResultsScreen.PassedMonotone | src/components/screens/ResultsScreen.tsx:9 | a better score on the same total never turns a pass into a fail |
| ResultsScreen.Extremes | src/components/screens/ResultsScreen.tsx:9 | a full score passes; a zero score fails whenever there is a question |
| MistakesStore.Deleted | src/lib/mistakesStore.ts:15 | `Set.delete` keeps every other element, drops the given one and changes nothing when it is absent |
| MistakesStore.Store.constructor | src/lib/mistakesStore.ts:3-4 | a new store has no ids, no subscribers and no notifications |
| MistakesStore.Store.NotifySubscribers | src/lib/mistakesStore.ts:42-44 | one call per subscriber, in subscription order, appended to the call log |
| MistakesStore.Store.Add | src/lib/mistakesStore.ts:6-11 | a new id is appended and every subscriber is notified once; a known id changes neither the ids nor the call log |
| MistakesStore.RoundsCount | src/lib/mistakesStore.ts:42-44 | in k rounds of notification each subscriber is called exactly k times, and nothing else is called |
| MistakesStore.Store.Remove | src/lib/mistakesStore.ts:13-18 | a known id is removed (the others keep their order) and the subscribers are notified; an unknown id changes nothing |
| MistakesStore.Store.Clear | src/lib/mistakesStore.ts:20-25 | the store ends empty; the subscribers are notified only when it was not empty already |
| MistakesStore.Store.Has | src/lib/mistakesStore.ts:27-29 | true exactly when the id is stored |
| MistakesStore.Store.GetAll | src/lib/mistakesStore.ts:31-33 | the ids in insertion order |
| MistakesStore.Store.Subscribe | src/lib/mistakesStore.ts:35-36 | the callback joins the subscribers once; subscribing it again changes nothing |
| MistakesStore.Store.Unsubscribe | src/lib/mistakesStore.ts:37-39 | the returned function removes the callback, whether or not it is still subscribed |
| MistakesStore.DeletedKeepsNoDuplicates | src/lib/mistakesStore.ts:15 | deleting keeps a duplicate-free list duplicate-free (the `Set` invariant) |
| MistakesStore.InsertedKeepsNoDuplicates | src/lib/mistakesStore.ts:8 | adding keeps a duplicate-free list duplicate-free (the `Set` invariant) |
| MistakesStore.AddThenRemove | src/lib/mistakesStore.ts:6-18 | adding a new id and removing it restores the store exactly, order included |
| MistakesStore.RemoveThenAdd | src/lib/mistakesStore.ts:6-18 | removing a stored id and adding it back keeps the same ids but moves that one to the end |
| MistakesStore.CountAppend | src/lib/mistakesStore.ts:42-44 | the calls of a callback in a concatenated log add up |
| MistakesStore.CountNoDuplicates | src/lib/mistakesStore.ts:43 | a callback occurs once in a duplicate-free subscriber list when subscribed, otherwise not at all |
| MistakesStore.NotifiedOnce | src/lib/mistakesStore.ts:42-44 | a notification round calls each subscribed callback exactly once and no other |
| MistakesStore.UnsubscribedNotNotified | src/lib/mistakesStore.ts:37-44 | after unsubscribing, a notification round no longer calls the callback |
| PracticeInline.IsCorrect | src/components/practice/PracticeInline.tsx:15 | the verdict exists exactly when an answer is selected and locked, and is then whether it is the correct option |
| PracticeInline.PracticeCard.constructor | src/components/practice/PracticeInline.tsx:10-12 | the card starts on the first question with nothing selected and unlocked |
| PracticeInline.PracticeCard.Select | src/components/practice/PracticeInline.tsx:64-69 | a selection replaces the previous one, except while the answer is locked (the radio inputs are disabled); on an unlocked card it enables Confirm exactly when the option id is non-empty |
| PracticeInline.PracticeCard.ConfirmAnswer | src/components/practice/PracticeInline.tsx:17-24 | with a selection the card locks and a wrong selection adds the question's id to the store; the subscribers are notified once, in order, exactly when that id was new to the store; when Confirm is enabled a verdict is shown afterwards, and when it is disabled on an unlocked card nothing changes |
| PracticeInline.PracticeCard.NextQuestion | src/components/practice/PracticeInline.tsx:26-30 | one question forward, stopping at the last, so from a locked card it moves exactly where Next is enabled; the selection is cleared and the card unlocked |
| PracticeInline.PracticeCard.PrevQuestion | src/components/practice/PracticeInline.tsx:32-36 | one question back, stopping at the first, so it moves exactly where Prev is enabled; the selection is cleared and the card unlocked |
| PracticeInline.ConfirmIdempotent | src/components/practice/PracticeInline.tsx:17-24 | confirming the same answer twice leaves the store as confirming it once |
| PracticeInline.RecordedIffShownWrong | src/components/practice/PracticeInline.tsx:15-24 | a confirmation records the question exactly when the verdict shown is "wrong" |
| PracticeInline.PrevEnabled | src/components/practice/PracticeInline.tsx:79-80 | Prev is disabled exactly on the first question, the one place where `prevQuestion` would not move |
| PracticeInline.ConfirmEnabled | src/components/practice/PracticeInline.tsx:87-88 | while Confirm is enabled no verdict is shown, and locking the selection would show one |
| PracticeInline.NextEnabled | src/components/practice/PracticeInline.tsx:106-108 | Next is enabled exactly when the answer is locked and `nextQuestion` would move |
| ExamRun.Questions | src/components/screens/ExamRunScreen.tsx:17-21 | ten questions; question i has id "q(i+1)" and the options and correct option of sample i mod 5 |
| ExamRun.Score | src/components/screens/ExamRunScreen.tsx:50-52 | the score never exceeds the number of questions |
| ExamRun.WrongIds | src/components/screens/ExamRunScreen.tsx:55-59 | at most one recorded id per question |
| ExamRun.AddedAllMembers | src/components/screens/ExamRunScreen.tsx:55-59 | after the `add` calls the store holds what it held plus every id handed to it, and nothing else |
| ExamRun.ExamSession.constructor | src/components/screens/ExamRunScreen.tsx:12-14 | the first render: 874 seconds left, the first question, no answers, no result |
| ExamRun.ExamSession.SetAnswer | src/components/screens/ExamRunScreen.tsx:37-39 | the current question's answer becomes the option; every other answer is kept; afterwards Next and the lower Finish are enabled |
| ExamRun.ExamSession.NextQuestion | src/components/screens/ExamRunScreen.tsx:41-43 | one forward, stopping at the tenth question: it moves exactly where the Next button is shown |
| ExamRun.ExamSession.PrevQuestion | src/components/screens/ExamRunScreen.tsx:45-47 | one back, stopping at the first question: it moves exactly where the Prev button is enabled |
| ExamRun.ExamSession.GoTo | src/components/screens/ExamRunScreen.tsx:87 | a click on a grid tile makes that question current |
| ExamRun.ExamSession.FinishExam | src/components/screens/ExamRunScreen.tsx:49-64 | the result is the score, the total of ten and 874 minus the time left; every question not answered correctly is added to the store in order, and the subscribers are notified one round per id that was new to the store |
| ExamRun.ExamSession.FinishWith | src/components/screens/ExamRunScreen.tsx:49-64 | the body of `finishExam` run on the answers and time left of a given render, with the same store contents and notification rounds |
| ExamRun.ExamSession.TimerTickAsWritten | src/components/screens/ExamRunScreen.tsx:24-35 | as written: the interval keeps the first render's `finishExam`, so the timeout finishes with no answers and 874 seconds left and records every question, with one notification round per new id; above one second only the clock changes and the store is untouched |
| ExamRun.ExamSession.TimerTick | src/components/screens/ExamRunScreen.tsx:24-35 | corrected: above one second the clock counts down and the store is untouched; at one or below it stops at 0 and finishes with the current answers, all the time spent, recording the wrong answers with one notification round per new id |
| ExamRun.RecordMistakes | src/components/screens/ExamRunScreen.tsx:55-59 | the store ends as `add` applied, in question order, to each question not answered correctly; the call log grows by one round of the subscribers per id that was new |
| ExamRun.NewIds | src/components/screens/ExamRunScreen.tsx:55-59 | the number of ids in a run of `add` calls that were not yet stored is at most the number of calls |
| ExamRun.AddedAllLength | src/components/screens/ExamRunScreen.tsx:55-59 | a run of `add` calls grows the store by exactly the number of new ids |
| ExamRun.NotifiedStep | src/components/screens/ExamRunScreen.tsx:57 | one more `add` adds one notification round exactly when its id is new |
| ExamRun.TimeoutRecordsEveryQuestion | src/components/screens/ExamRunScreen.tsx:24-64 | the stale timeout path records every one of the ten questions as a mistake |
| ExamRun.AnsweredCorrectly | src/components/screens/ExamRunScreen.tsx:50-52 | a question counts as correct only if it was answered (its correct option id is non-empty) |
| ExamRun.ResultOf | src/components/screens/ExamRunScreen.tsx:49-63 | the result's total is ten and its score plus the number of wrong answers is ten; with the clock within [0, 874] the time spent is too |
| ExamRun.WrongIdsStep | src/components/screens/ExamRunScreen.tsx:55-59 | one more question adds its id exactly when it was not answered correctly |
| ExamRun.AddedAllSnoc | src/components/screens/ExamRunScreen.tsx:57 | one more id is one more `add` |
| ExamRun.QuestionIdsDistinct | src/components/screens/ExamRunScreen.tsx:19 | the ten generated ids are distinct |
| ExamRun.DetailFinishMeansAllAnswered | src/components/screens/ExamRunScreen.tsx:169 | with answers keyed by question ids, ten recorded answers is the same as every question answered |
| ExamRun.IdSetSize | src/components/screens/ExamRunScreen.tsx:17-21 | the ten ids form a set of ten |
| ExamRun.FinishGatesDiffer | src/components/screens/ExamRunScreen.tsx:159-242 | the lower card's Finish is enabled by one answer on the last question, where the detail card's needs ten |
| ExamRun.ScorePlusWrong | src/components/screens/ExamRunScreen.tsx:50-59 | every question is either scored or recorded as a mistake, never both |
| ExamRun.AllCorrectFullScore | src/components/screens/ExamRunScreen.tsx:50-59 | all answers correct gives a full score and no mistakes |
| ExamRun.NoAnswersAllWrong | src/components/screens/ExamRunScreen.tsx:50-59 | no answers gives score 0 and every question's id as a mistake, in order |
| ExamRun.StaleTimeoutResult | src/components/screens/ExamRunScreen.tsx:24-64 | the timeout finish as written reports 0/10 and no time spent even when all ten answers are correct, where the current state would give 10/10 and 874 seconds |
| ExamRun.FinishRecordsMistakes | src/components/screens/ExamRunScreen.tsx:55-59 | each question not answered correctly ends in the store, and everything new in the store is such a question |
| ExamRun.WrongIdsSound | src/components/screens/ExamRunScreen.tsx:56 | every recorded id belongs to a question not answered correctly |
| ExamRun.WrongIdsComplete | src/components/screens/ExamRunScreen.tsx:56 | every question not answered correctly has its id recorded |
| ExamRun.PrevEnabled | src/components/screens/ExamRunScreen.tsx:152-153 | Prev (both cards) is disabled exactly on the first question, the one place where `prevQuestion` would not move |
| ExamRun.NextShown | src/components/screens/ExamRunScreen.tsx:159 | Next is shown instead of Finish exactly where `nextQuestion` would move |
| ExamRun.NextEnabled | src/components/screens/ExamRunScreen.tsx:161-162 | Next is enabled by the same rule as the lower Finish, and while it is disabled the current question would score nothing |
| ExamRun.DetailFinishEnabled | src/components/screens/ExamRunScreen.tsx:168-169 | while the detail card's Finish is disabled some question has no recorded answer |
| ExamRun.LowerFinishEnabled | src/components/screens/ExamRunScreen.tsx:239-240 | the lower Finish is enabled only once the current question has a recorded answer |
| ExamRun.FewAnswersMissOne | src/components/screens/ExamRunScreen.tsx:168-169 | fewer than ten recorded answers leave some question without one |
| GenerateTokens.Prefixed | scripts/generate-tokens.mjs:23 | descending into key `k` puts `k` in front of every leaf path below it, values unchanged |
| GenerateTokens.Lines | scripts/generate-tokens.mjs:25 | one declaration `  --path: value;` per leaf, in leaf order |
| GenerateTokens.SectionVars | scripts/generate-tokens.mjs:35-40 | the section variables fail (the script throws) exactly when some section is undefined or null |
| GenerateTokens.GenerateCSS | scripts/generate-tokens.mjs:30-59 | the stylesheet exists exactly when none of the six sections is undefined or null |
| GenerateTokens.ProcessTokens | scripts/generate-tokens.mjs:64-75 | plain objects keep their keys in order; a string ending in "px" becomes a number or NaN; every other value is kept as is |
| GenerateTokens.ProcessEntries | scripts/generate-tokens.mjs:70-72 | the rebuilt object has the same keys in the same order |
| GenerateTokens.RNTheme | scripts/generate-tokens.mjs:62-110 | for an object the theme is an object whose `shadows` is the four native shadows and whose every other key holds the processed token value; the assignment throws exactly for a value that is neither an object nor an array |
| GenerateTokens.RNThemeText | scripts/generate-tokens.mjs:111-121 | the theme file is produced exactly when the theme is, and it starts with the auto-generated notice line |
| GenerateTokens.PxValue | scripts/generate-tokens.mjs:66-67 | a px string becomes an integer or `NaN`, never a string |
| GenerateTokens.LinesAppend | scripts/generate-tokens.mjs:21 | the declarations of two leaf lists concatenated are the two declaration lists concatenated (`flatMap`) |
| GenerateTokens.LinesPrefixed | scripts/generate-tokens.mjs:23 | declaring leaves prefixed by `k` is declaring them under the prefix extended by `k` |
| GenerateTokens.EntriesVarsAreLeaves | scripts/generate-tokens.mjs:20-27 | `toVars` emits exactly one declaration per leaf, depth first in key order |
| GenerateTokens.ToVars | scripts/generate-tokens.mjs:20-27 | `toVars` of a value is the declarations of its leaves, one line per leaf, depth first in key order |
| GenerateTokens.Leaves | scripts/generate-tokens.mjs:20-27 | every leaf `toVars` reaches has a non-empty key path and a value that is not a plain object |
| GenerateTokens.LeavesAppend | scripts/generate-tokens.mjs:21 | the leaves of earlier entries come before those of later ones |
| GenerateTokens.LeavesSound | scripts/generate-tokens.mjs:20-27 | every listed leaf is reached by its non-empty key path and is not a plain object |
| GenerateTokens.WellFormedTail | scripts/generate-tokens.mjs:21 | the entries after the first of a well-formed object form a well-formed object |
| GenerateTokens.AtPathTail | scripts/generate-tokens.mjs:21 | with distinct keys, a path found in the later entries is found the same way in the whole object |
| GenerateTokens.LeavesComplete | scripts/generate-tokens.mjs:20-27 | every non-empty path to a value that is not a plain object is listed as a leaf |
| GenerateTokens.SectionVarsDeclareLeaves | scripts/generate-tokens.mjs:35-40 | every leaf of every section is declared under that section's prefix |
| GenerateTokens.CssDeclaresLeaves | scripts/generate-tokens.mjs:30-59 | every leaf of every section appears in the stylesheet, e.g. `colors.primary["500"]` as `--color-primary-500` |
| GenerateTokens.PxAfterDigits | scripts/generate-tokens.mjs:66 | for a digits-then-"px" string, replacing the first "px" leaves the digits |
| GenerateTokens.PxRoundTrip | scripts/generate-tokens.mjs:64-68 | a whole number of pixels printed with "px" is processed back to that number |
| GenerateTokens.PrintedPxValue | scripts/generate-tokens.mjs:66-67 | the "px" value of a printed number is that number |
| GenerateTokens.SpecialCaseAgrees | scripts/generate-tokens.mjs:66-67 | the "9999px" special case gives what `parseInt` gives anyway |
| GenerateTokens.PxFractionTruncated | scripts/generate-tokens.mjs:66 | "1.5px" becomes 1: `parseInt` stops at the point |
| GenerateTokens.PxAloneIsNaN | scripts/generate-tokens.mjs:66 | a bare "px" becomes NaN |
| GenerateTokens.ProcessEntriesPointwise | scripts/generate-tokens.mjs:70-72 | each rebuilt entry is the processed value under the same key |
| GenerateTokens.ProcessIdempotent | scripts/generate-tokens.mjs:64-75 | processing twice is processing once |
| GenerateTokens.ThemeKeepsProcessedValues | scripts/generate-tokens.mjs:77-80 | in the theme every key but `shadows` holds the processed token value under that key |
| JsText.TrimStart | scripts/validate.mjs:76 | the leading-blank part of `trim`: never longer than the input, and what remains does not start with whitespace |
| JsText.TrimStartIsSuffix | scripts/validate.mjs:76 | what it keeps is a suffix of the input and everything it drops is whitespace |
| JsText.TrimEnd | scripts/validate.mjs:76 | the trailing-blank part of `trim`: never longer than the input, and what remains does not end with whitespace |
| JsText.TrimEndIsPrefix | scripts/validate.mjs:76 | what it keeps is a prefix of the input and everything it drops is whitespace |
| JsText.Trim | scripts/validate.mjs:95 | a trimmed text neither starts nor ends with whitespace |
| JsText.TrimIsInnerSlice | scripts/validate.mjs:95 | `trim` keeps one contiguous slice of its input and drops only whitespace on either side |
| JsText.Split | scripts/validate.mjs:76-79 | one part more than there are separators, no part contains the separator, and joining the parts gives the text back |
| JsText.ContainsAt | figma-plugin/code.js:211 | `includes` is true when the text occurs at some position |
| JsText.IndexOf | scripts/generate-tokens.mjs:66 | the position `replace` edits is an occurrence with no earlier one, and no position matches when none is found |
| JsText.ReplaceFirst | scripts/generate-tokens.mjs:66 | `replace` with a string pattern: unchanged when the pattern is absent; otherwise the first occurrence is swapped for the replacement and the text around it is kept |
| JsText.ParseInt | scripts/generate-tokens.mjs:66 | a number is read only from a text with something after the leading whitespace, and a negative one only after a minus sign |
| JsText.IndexOfAt | scripts/generate-tokens.mjs:66 | an occurrence with no earlier start character is the first one |
| JsText.PadStart | src/lib/utils.ts:16 | `padStart` reaches the target length, ends with the original text and fills only with the pad character |
| JsText.HexDigitValue | figma-plugin/code.js:2397-2399 | a hexadecimal digit is worth less than 16, and less than 10 exactly when it is a decimal digit |
| JsText.DigitChar | src/lib/utils.ts:16 | the digit printed for a value below ten is a decimal digit worth that value |
| JsText.NatToString | src/lib/utils.ts:16 | `String(n)` is a non-empty run of decimal digits with no leading zero except for 0 itself |
| JsText.NatToStringRoundTrip | src/lib/utils.ts:16 | reading the printed digits of a natural gives it back |
| JsText.NatToStringInjective | src/lib/utils.ts:16 | distinct naturals print differently |
| JsText.DigitPrefixLength | scripts/generate-tokens.mjs:66 | the digit run `parseInt` reads is all digits of the radix and stops at the first non-digit |
| JsText.DigitPrefixOfDigits | scripts/generate-tokens.mjs:66 | the digit run at the front of digits followed by a non-digit is exactly those digits |
| JsText.ParseIntOfPrinted | scripts/generate-tokens.mjs:66 | `parseInt` reads back a printed natural followed by any text that does not continue the number |
| JsonValue.Keys | scripts/export-to-figma.js:145-147 | `Object.keys` lists the keys of the entries in order |
| JsonValue.Lookup | scripts/validate.mjs:125 | reading a property finds nothing exactly when no entry has that key, and otherwise the first entry with it |
| JsonValue.LookupAt | scripts/export-to-figma.js:45 | with distinct keys, reading the key of an entry finds that entry |
| JsonValue.Get | scripts/validate.mjs:125 | only an object has properties: reading one of anything else is `undefined` |
| JsonValue.ElementStrings | scripts/generate-tokens.mjs:25 | printing an array prints one string per element |
| JsonValue.Entries | scripts/export-to-figma.js:45 | `Object.entries` gives an object's own entries, an array's elements and a string's characters under their decimal indices, and nothing for any other value |
| JsonValue.Assign | scripts/export-to-figma.js:49 | after `obj[k] = x` the key holds `x` |
| JsonValue.AssignKeepsOthers | scripts/export-to-figma.js:49 | an assignment changes no other key |
| JsonValue.AssignReplaces | scripts/export-to-figma.js:49 | assigning an existing key replaces its value where it stands: the keys and their order do not change |
| JsonValue.AssignAppends | scripts/export-to-figma.js:49 | assigning a new key appends it at the end |
| JsonValue.AssignDistinct | scripts/export-to-figma.js:49 | assignment never repeats a key |
| HexColor.PairValue | figma-plugin/code.js:2397-2399 | two hexadecimal digits make one byte |
| HexColor.HexToRgb | figma-plugin/code.js:2394-2401 | an optional `#` and six hexadecimal digits give the three bytes they spell, in order; anything else gives black |
| HexColor.IsHexColor | figma-plugin/code.js:2395 | the pattern accepts exactly six hexadecimal digits, optionally after one `#` |
| HexColor.LowerHexDigit | figma-plugin/code.js:2394-2401 | the printed digit of a value below 16 is a hexadecimal digit worth that value |
| HexColor.ByteToHex | figma-plugin/code.js:2394-2401 | a byte prints as two hexadecimal digits that read back as the byte |
| HexColor.ToHex | figma-plugin/code.js:2394-2401 | `#rrggbb` of a byte colour is accepted by the colour pattern |
| HexColor.HexRoundTrip | figma-plugin/code.js:2394-2401 | every byte colour survives printing as `#rrggbb`, with or without the `#`, and reading back |
| HexColor.HexToRgbSeparates | figma-plugin/code.js:2394-2401 | distinct byte colours read back as distinct colours |
| HexColor.ToAsciiUpper | figma-plugin/code.js:2395 | upper-casing keeps the length and upper-cases each character |
| HexColor.HexToRgbIgnoresCase | figma-plugin/code.js:2395 | with the pattern's `i` flag, upper-casing the text never changes the colour read |
| HexColor.UpperHexDigit | figma-plugin/code.js:2395 | upper-casing keeps a character a hexadecimal digit, or not one, and keeps its value |
| HexColor.UpperAllHexDigits | figma-plugin/code.js:2395 | upper-casing keeps a text all hexadecimal digits, or not |
| Validate.MissingSections | scripts/validate.mjs:123-129 | at most one error per required section, in the order of the list |
| Validate.MissingSectionsExactly | scripts/validate.mjs:123-129 | a section is reported if and only if it is required and the tokens lack it or hold a falsy value there |
| Validate.Then | scripts/validate.mjs:12-60 | once a check has thrown its later steps print nothing; otherwise their errors follow the earlier ones |
| Validate.FieldIssues | scripts/validate.mjs:21-27 | every error names the list and index of the item checked, at most one per required field |
| Validate.FieldIssuesExactly | scripts/validate.mjs:21-27 | a field is reported if and only if it is required and the item lacks it or holds a falsy value |
| Validate.ImagesHaveNoPathErrors | scripts/validate.mjs:41-51 | the image list reports only missing fields of images: no size-path error comes from it |
| Validate.EmptySizesPass | scripts/validate.mjs:29-36 | an icon whose sizes are an empty array passes the `sizes` field check and has no paths to check |
| Validate.ListStopsAtThrow | scripts/validate.mjs:20-37 | after an item throws, the later items of the list change nothing in the report |
| Validate.RowOf | scripts/validate.mjs:80-83 | a parsed row has exactly the header names as its columns |
| Validate.RowField | scripts/validate.mjs:80-83 | a column whose header is not repeated later holds the value at its position, or the empty string past the end of the line |
| Validate.ExtraValuesIgnored | scripts/validate.mjs:78-84 | values beyond the last header do not change the row |
| Validate.ParseCSV | scripts/validate.mjs:75-85 | one row per line break of the trimmed text: every line after the header line is a row |
| Validate.RowsHaveHeaderColumns | scripts/validate.mjs:75-85 | every row's columns are the comma-separated names of the first line |
| Validate.TrimEach | scripts/validate.mjs:95 | trimming every part keeps the number of parts |
| Validate.TrimEachAt | scripts/validate.mjs:95 | the part at each position is the trimmed part at that position |
| Validate.UsedComponentsShape | scripts/validate.mjs:95 | a components field lists one name more than it has bars; no name contains a bar or starts or ends with whitespace |
| Validate.TrimKeepsAbsent | scripts/validate.mjs:95 | trimming introduces no character: one absent before is absent after |
| Validate.UnknownOf | scripts/validate.mjs:96-101 | at most one error per used name checked |
| Validate.UnknownExactly | scripts/validate.mjs:96-101 | a used name is reported if and only if it is among those checked and no component row has that name |
| Validate.IssuesOfChecks | scripts/validate.mjs:93-103 | the per-screen check passed to the screen loop is the screen rule itself |
| Validate.Validator.constructor | scripts/validate.mjs:8 | the error flag starts lowered |
| Validate.Validator.Error | scripts/validate.mjs:24-25 | printing an error prints exactly it and raises the flag |
| Validate.Validator.CheckSections | scripts/validate.mjs:124-129 | prints exactly the missing sections; the flag is raised if and only if it was raised or something was printed |
| Validate.Validator.ValidateTokens | scripts/validate.mjs:116-139 | prints exactly the token errors, including one failure when the file is unreadable; flag as above |
| Validate.Validator.CheckFields | scripts/validate.mjs:22-27 | prints exactly the missing fields of one item; flag as above |
| Validate.Validator.CheckSizes | scripts/validate.mjs:30-35 | prints exactly the missing paths and reports whether a size entry made it throw; flag as above |
| Validate.Validator.CheckItem | scripts/validate.mjs:20-37 | prints the fields and then, for icons with a sizes array, the paths of one item, with its throw; flag as above |
| Validate.Validator.CheckList | scripts/validate.mjs:19-51 | the loop over icons or images prints what the list rule prints and stops at the first throw; flag as above |
| Validate.Validator.CheckSection | scripts/validate.mjs:19-51 | a falsy list is skipped, an array is checked, any other value throws; flag as above |
| Validate.Validator.ValidateAssets | scripts/validate.mjs:11-61 | prints exactly the manifest errors, ending with one failure on a throw; flag as above |
| Validate.Validator.CheckUsed | scripts/validate.mjs:96-101 | prints one error per used name that no component has, in order; flag as above |
| Validate.Validator.CheckScreen | scripts/validate.mjs:93-103 | prints exactly the errors of one screen; flag as above |
| Validate.Validator.CheckScreens | scripts/validate.mjs:93-103 | prints the errors of every screen in file order; flag as above |
| Validate.Validator.ValidateConsistency | scripts/validate.mjs:64-113 | prints exactly the consistency errors, one failure when a file is unreadable; flag as above |
| Validate.RunValidation | scripts/validate.mjs:141-151 | the three checks print in order tokens, assets, consistency, and the exit code is 1 exactly when anything was printed |
| Validate.AllIssues | scripts/validate.mjs:141-144 | a missing tokens file, asset manifest or CSV file is always reported by its check |
| Validate.FailsIffSomeCheckReports | scripts/validate.mjs:141-151 | the run is clean if and only if each of the three checks is clean |
| ExportToFigma.MapEntries | scripts/export-to-figma.js:48-54 | mapping the values of a dictionary keeps its number of entries |
| ExportToFigma.MapEntriesAt | scripts/export-to-figma.js:48-54 | each mapped entry keeps its key and position and holds the mapped value |
| ExportToFigma.PutEachAppends | scripts/export-to-figma.js:48-54 | assigning distinct new keys one by one appends them in order: no assignment overwrites another |
| ExportToFigma.PutEachFresh | scripts/export-to-figma.js:47-54 | filling an empty object from distinct keys gives exactly the source keys in order, each with its mapped value |
| ExportToFigma.EntriesDistinct | scripts/export-to-figma.js:45 | `Object.entries` of a parsed object never lists a key twice |
| ExportToFigma.GenerateColors | scripts/export-to-figma.js:42-59 | the loop over colour groups gives the colour dictionary, and fails on `undefined` or `null` colours |
| ExportToFigma.ColorsFor | scripts/export-to-figma.js:42-59 | the colours fail exactly when the section is missing or null; for a well-formed object they are its object-valued groups, in order |
| ExportToFigma.KeptGroups | scripts/export-to-figma.js:45-56 | only object-valued groups are kept: all of them when every group is an object, none when none is |
| ExportToFigma.GenerateShades | scripts/export-to-figma.js:47-54 | the inner loop gives the shade dictionary of one group |
| ExportToFigma.ShadesMapped | scripts/export-to-figma.js:47-54 | a group's dictionary has exactly its shades as keys, in order, each styled `group/shade` with the same value and the style name `color-group-shade` |
| ExportToFigma.PutGroupsAppends | scripts/export-to-figma.js:45-56 | with distinct group names the outer loop appends exactly the groups whose value is an object |
| ExportToFigma.KeptGroupsLookup | scripts/export-to-figma.js:46 | a group appears in the result if and only if its value is an object or array, and then with its shades |
| ExportToFigma.GeneratedColors | scripts/export-to-figma.js:42-59 | for parsed colours the result is the object-valued groups in order, and looking up any name agrees with the tokens' own entry for it |
| ExportToFigma.GenerateTypography | scripts/export-to-figma.js:61-74 | the loop over font sizes gives the typography dictionary, with the family re-read in every iteration |
| ExportToFigma.TypographyFor | scripts/export-to-figma.js:61-74 | typography fails exactly when the section or its `fontSize` is missing or null, or when there is a size but no `fontFamily` |
| ExportToFigma.TypographyFails | scripts/export-to-figma.js:61-74 | the export throws exactly when the typography, its sizes, or (for a non-empty size list) its font family is `undefined` or `null` |
| ExportToFigma.TypographyEntries | scripts/export-to-figma.js:64-71 | a successful typography has exactly the size keys, each named `text-size` with its parsed size, the primary family and the style `typography-size` |
| ExportToFigma.SizeParsed | scripts/export-to-figma.js:67 | a size written "28px" becomes the number 28 |
| ExportToFigma.SizeNumberParsed | scripts/export-to-figma.js:67 | a numeric size keeps its value |
| ExportToFigma.SizeNotANumber | scripts/export-to-figma.js:67 | a size text that starts with neither a blank, a sign nor a digit becomes NaN |
| ExportToFigma.GenerateComponents | scripts/export-to-figma.js:76-100 | four components, Button, Card, Header and TabBar, each named by its key and a Figma component under that name; only the tab bar has tabs instead of variants |
| ExportToFigma.GenerateScreens | scripts/export-to-figma.js:102-135 | six screens of 375×812 with distinct names, each listing three or four components |
| ExportToFigma.BuildExport | scripts/export-to-figma.js:18-40 | the export succeeds exactly when the tokens are not `null` and colours and typography convert; it then holds the timestamp, the app data, the converted sections, the passed-through ones and the catalogues |
| FigmaFonts.FirstOfFamily | figma-plugin/code.js:77 | `find` misses exactly when no listed font has the family, and otherwise returns the first listed font of that family |
| FigmaFonts.FirstFallback | figma-plugin/code.js:75-85 | a fallback font found is a listed font of one of the fallback families |
| FigmaFonts.InterPreferred | figma-plugin/code.js:49-72 | with both Inter fonts listed and loadable the pair becomes Inter Regular and Inter Bold, whatever it was before |
| FigmaFonts.SelectFonts | figma-plugin/code.js:49-91 | the regular font changes only to a listed Inter Regular or a listed font of a fallback family; the bold font changes only to a listed Inter Bold |
| FigmaFonts.BoldNeverFallsBack | figma-plugin/code.js:68-85 | the bold font is only ever Inter Bold, when listed, or what it was before: the fallback loop never sets it |
| FigmaFonts.FallbackOrder | figma-plugin/code.js:74-85 | without Inter Regular, the regular font is the first listed font of the first fallback family (Roboto, Arial, Helvetica) that the list has |
| FigmaFonts.RobotoBeforeArial | figma-plugin/code.js:75-77 | family order decides, not list order: a list of Arial then Roboto gives Roboto |
| FigmaFonts.NothingMatches | figma-plugin/code.js:49-91 | when no font matches, or listing fails, both fonts keep their previous values |
| FigmaFonts.RegularLoadFailureStops | figma-plugin/code.js:61-66 | a failure to load Inter Regular ends the loader after the regular font was set: the bold font is not touched |
| FlowMap.FindFlowFound | figma-plugin/code.js:2068 | `find` misses exactly when no box has the name, and otherwise returns a box with that name |
| FlowMap.FindFlow | figma-plugin/code.js:2068 | a found box is one of the flows and carries the name looked up |
| FlowMap.NamedIffFound | figma-plugin/code.js:2068 | a target resolves exactly when some flow has that name |
| FlowMap.FindFlowFirst | figma-plugin/code.js:2068 | `find` returns the first box with the name |
| FlowMap.FlowBoxes | figma-plugin/code.js:2034-2063 | one box per flow, in order, each a 160×80 white frame outlined in green holding its name in bold |
| FlowMap.Connector | figma-plugin/code.js:2069-2085 | a connector is a line followed by an arrow head |
| FlowMap.EdgesFrom | figma-plugin/code.js:2067-2086 | at most one edge per target name of a box |
| FlowMap.Draw | figma-plugin/code.js:2065-2088 | two nodes per edge |
| FlowMap.DrawAppend | figma-plugin/code.js:2065-2088 | drawing two runs of edges is drawing the first then the second |
| FlowMap.EdgesFromExactly | figma-plugin/code.js:2067-2086 | an edge leaves a box exactly when one of its target names finds a box, which the edge then points to |
| FlowMap.EdgesExactly | figma-plugin/code.js:2065-2088 | over all boxes, an edge exists exactly when its source box lists a target name that finds its target box |
| FlowMap.Edges | figma-plugin/code.js:2065-2088 | there are never more connectors than listed targets |
| FlowMap.EdgesFromCount | figma-plugin/code.js:2067-2086 | from one box, the connectors drawn plus the targets dropped are all its targets |
| FlowMap.EdgesCount | figma-plugin/code.js:2065-2088 | over all boxes, connectors drawn plus targets dropped are all the targets listed |
| FlowMap.FlowTargetCount | figma-plugin/code.js:2004-2031 | the flow table lists 18 targets, of which exactly 2 name no flow |
| FlowMap.FlowEdgeCount | figma-plugin/code.js:2004-2088 | the flow map draws exactly 16 connectors |
| FlowMap.LessonDropsBoth | figma-plugin/code.js:2026 | both targets of "Lesson View" are dropped |
| FlowMap.EdgeTargetsExist | figma-plugin/code.js:2065-2088 | every connector drawn on the flow page joins two existing boxes |
| FlowMap.Missing | figma-plugin/code.js:2068 | a name no box has is not found |
| FlowMap.LessonTargetsMissing | figma-plugin/code.js:2004-2028 | no box is named "Practice" or "Exam Config" |
| FlowMap.LessonTargetsDropped | figma-plugin/code.js:2026 | the "Lesson View" box names only those two targets, so it gets no connector at all |
| FlowMap.EdgesFromNone | figma-plugin/code.js:2067-2086 | a box whose target names all miss gets no connector |
| FlowMap.BackEdgeWidth | figma-plugin/code.js:2072-2073 | the edge from "Onboarding 3" back to "Home (No Package)" is drawn, with a negative line length of -760 |
| FigmaNodes.ScreenFrame.constructor | figma-plugin/code.js:284-291 | a new screen frame has the given name, place, size, fill and corner radius, and no children (the dark copies are made the same way at lines 336-342) |
| FigmaNodes.ScreenFrame.AppendChild | figma-plugin/code.js:709-710 | `appendChild` adds the node after the existing children |
| FigmaNodes.ScreenFrame.SetFill | figma-plugin/code.js:290 | setting the fills makes the given colour the frame's only fill |
| FigmaNodes.MoveFirstText | figma-plugin/code.js:2135-2138 | moving the first text child keeps the number of children |
| FigmaNodes.HeaderWithBack | figma-plugin/code.js:2114-2141 | the header with a back button is the plain header with its title moved to x = 70 and the back button after it |
| FigmaNodes.CreateTabBar | figma-plugin/code.js:2143-2165 | the loop appending the five labels builds the tab bar value |
| FigmaNodes.BrandColors | figma-plugin/code.js:2158 | the brand green and the two muted greys read as the bytes the builders paint |
| FigmaNodes.TabBarHighlightsActive | figma-plugin/code.js:2152-2162 | five labels at x = 15 + 75i, painted brand green if and only if their index is the active one |
| FigmaNodes.ButtonVariants | figma-plugin/code.js:2167-2199 | a primary button is green with white text in both themes, and any variant other than primary or disabled renders as secondary |
| FigmaNodes.ActionCard | figma-plugin/code.js:2221-2257 | a 160×80 card at the given place whose last child is the title, preceded by a lock icon exactly when the action is locked |
| FigmaNodes.RowCards | figma-plugin/code.js:707-710 | a row holds two cards, or one when it starts at the last action |
| FigmaNodes.GridRows | figma-plugin/code.js:705-713 | the first rows of the grid hold two cards each, the last row possibly one |
| FigmaNodes.ActionGrid | figma-plugin/code.js:705-713 | the grid has one card per action |
| FigmaNodes.GridRowsAt | figma-plugin/code.js:705-713 | card k of the grid is the card of action k in column k mod 2 and row k div 2 |
| FigmaNodes.ActionGridCard | figma-plugin/code.js:705-713 | card k sits at x = 20 + 175·(k mod 2), y = 260 + 100·(k div 2), with the lock icon exactly when action k is locked |
| FigmaNodes.GridRowsNext | figma-plugin/code.js:706-713 | one more pass of the outer loop appends the next row |
| FigmaNodes.AppendActionGrid | figma-plugin/code.js:705-713 | the nested loops append exactly the grid's cards after the frame's existing children |
| FigmaNodes.AppendActionRow | figma-plugin/code.js:707-710 | the inner loop appends exactly the row's cards |
| ScreenRegistry.DefaultChildren | figma-plugin/code.js:2370-2392 | the default design appends two texts: the screen's name at (20, 40), then its category after a phone emoji at (20, 70) |
| ScreenRegistry.CreateDefaultDesign | figma-plugin/code.js:2370-2392 | `createDefaultDesign` resets the background to the light grey and appends exactly the two default texts |
| ScreenRegistry.CreateHomeDesign | figma-plugin/code.js:626-814 | either home builder paints the theme's background and appends the header, the status and progress cards, the action grid and the tab bar, in that order |
| ScreenRegistry.AppendHomeCards | figma-plugin/code.js:633-694 | the header and the two cards are appended after the frame's existing children |
| ScreenRegistry.RunDrawing | figma-plugin/code.js:354-455 | a host-drawn builder's nodes stay on the frame; when it throws, the default design is appended after them and resets the background |
| ScreenRegistry.CreateScreenDesign | figma-plugin/code.js:354-455 | `createScreenDesign` leaves the frame as the dispatch specification describes: the builder's background, if any, and its nodes appended |
| ScreenRegistry.RunBuilder | figma-plugin/code.js:356-450 | each branch of the `switch` runs its builder on the frame as specified |
| ScreenRegistry.DesignEffect | figma-plugin/code.js:354-455 | an unknown key gets the default design with the default fill; a drawn builder that throws keeps what it appended, followed by the default design |
| ScreenRegistry.BuilderEffect | figma-plugin/code.js:356-455 | a placeholder or the default design sets the default fill and appends two nodes; a drawn builder's nodes are always a prefix of what the frame receives |
| ScreenRegistry.CatalogFullyHandled | figma-plugin/code.js:229-275 | thirty main and four dark screens (the dark list is at lines 323-328), and no design key of either list reaches the `default` branch |
| ScreenRegistry.MainKeyHandled | figma-plugin/code.js:229-275 | each main screen's design key has its own `case` |
| ScreenRegistry.KeyHandled | figma-plugin/code.js:356-450 | a key reaches the `default` branch if and only if it is none of the thirty `case` labels |
| ScreenRegistry.KeyDrawn | figma-plugin/code.js:356-447 | the host draws a key exactly when it is one of the seventeen labels without a builder of their own here |
| ScreenRegistry.DrawnKeyDrawn | figma-plugin/code.js:356-447 | a drawn label selects the host-drawn builder |
| ScreenRegistry.CaseKeyHandled | figma-plugin/code.js:356-447 | a `case` label selects a builder other than the default |
| ScreenRegistry.SwitchKeyHandled | figma-plugin/code.js:356-447 | the home and placeholder keys select the home builders or a placeholder |
| ScreenRegistry.OtherKeyUnknown | figma-plugin/code.js:448-450 | any other key selects the default design |
| ScreenRegistry.UnknownKeyGetsDefault | figma-plugin/code.js:448-450 | an unknown key gets the default design with the descriptor's own name and category |
| ScreenRegistry.ThrowingBuilderKeepsPrefix | figma-plugin/code.js:451-455 | a builder that throws midway keeps what it appended, followed by the two default texts, on the light grey background |
| ScreenRegistry.PlaceholdersIgnoreDescriptor | figma-plugin/code.js:2326-2368 | a placeholder draws its own fixed title and category whatever the descriptor says |
| ScreenRegistry.PlaceholderTitleDiffersFromCatalog | figma-plugin/code.js:2326-2328 | the "10. Package Details" screen is titled "Package Details", without its catalogue number |
| ScreenRegistry.DarkFallbackPrintsUndefined | figma-plugin/code.js:324-329 | a dark screen has no category, so its fallback design prints "📱 undefined" |
| ScreenRegistry.HomeLayout | figma-plugin/code.js:626-814 | a home screen holds eight nodes ending with the tab bar; cards 3 to 6 carry a lock exactly on the no-package screen, except the quick test |
| ScreenRegistry.HomeCard | figma-plugin/code.js:698-713 | node k of a home screen, for 3 ≤ k < 7, is a card with a lock icon exactly when it is locked |
| ScreenRegistry.HomeChildAt | figma-plugin/code.js:705-713 | node k of a home screen, for 3 ≤ k < 7, is action card k − 3 |
| ScreenRegistry.ProgressBarMatchesLabel | figma-plugin/code.js:672-690 | the hard-coded bar widths, 127 and 236, are the printed 42% and 78% of 303, rounded down |
| FigmaDocument.PaintStylesOf | figma-plugin/code.js:135-142 | one paint style per colour entry |
| FigmaDocument.TextStylesOf | figma-plugin/code.js:160-166 | one text style per table row |
| FigmaDocument.DesignOfDesigns | figma-plugin/code.js:354-455 | the design function handed to the placement loops is `createScreenDesign` itself |
| FigmaDocument.GridScreenNodes | figma-plugin/code.js:270-311 | one screen frame per descriptor on the grid |
| FigmaDocument.DarkRowNodes | figma-plugin/code.js:331-347 | one screen frame per dark descriptor in the row |
| FigmaDocument.ProgressStream | figma-plugin/code.js:309-315 | one progress message per screen |
| FigmaDocument.ScreenProgress | figma-plugin/code.js:310 | the progress after screen i of n starts at 40 and stays in [40, 80) |
| FigmaDocument.KeptPages | figma-plugin/code.js:210-216 | the kept pages are never more than before, and a page is kept if and only if it was there and its name does not include "DDA Mobile" |
| FigmaDocument.Appended | figma-plugin/code.js:285 | adding nodes to a page keeps the page list and the page's name, and puts the nodes after the page's existing ones |
| FigmaDocument.AppendedTwice | figma-plugin/code.js:285 | adding two runs of nodes to a page adds their concatenation |
| FigmaDocument.ProgressPrefix | figma-plugin/code.js:309-315 | posting the progress of screen i extends the posted prefix of the stream by one |
| FigmaDocument.EdgesFromSnoc | figma-plugin/code.js:2067-2086 | one more target adds its edge exactly when it names a box |
| FigmaDocument.EdgesFromStep | figma-plugin/code.js:2067-2086 | one more target draws its connector after those drawn so far exactly when it names a box |
| FigmaDocument.GridCell | figma-plugin/code.js:270-303 | screen 4·row + col sits at x = 455·col, y = 900·row |
| FigmaDocument.WrapsAfterFourth | figma-plugin/code.js:303-307 | the column counter returns to 0 exactly after the fourth screen of a row |
| FigmaDocument.GridNoOverlap | figma-plugin/code.js:270-303 | no two screen frames of the grid overlap |
| FigmaDocument.DarkRowBelowGrid | figma-plugin/code.js:323-331 | the dark row at y = 8100 lies below the last row of the thirty screens |
| FigmaDocument.MulMonotone | figma-plugin/code.js:310 | proof helper for `EverythingProgressMonotone`: multiplying by a natural keeps the order |
| FigmaDocument.DivMonotone | figma-plugin/code.js:310 | proof helper for `EverythingProgressMonotone`: dividing by a positive natural keeps the order |
| FigmaDocument.ProgressStreamClimbs | figma-plugin/code.js:310 | the per-screen progress never decreases and stays within [40, 80) |
| FigmaDocument.NonDecreasingConcat | figma-plugin/code.js:172-191 | proof helper for `EverythingProgressMonotone`: two non-decreasing runs joined at a non-decreasing seam form one |
| FigmaDocument.EverythingProgressMonotone | figma-plugin/code.js:172-191 | creating everything posts 36 progress values from 5 to 100, never moving backwards |
| FigmaDocument.RegenerateProgressRestarts | figma-plugin/code.js:206-220 | regenerating moves the bar backwards, from 20 to 5, when everything starts over |
| FigmaDocument.TextStyleFonts | figma-plugin/code.js:151-166 | the three headings use the bold font and the other three the regular one |
| FigmaDocument.ScreensPageMarked | figma-plugin/code.js:226 | the screens page's name includes "DDA Mobile" |
| FigmaDocument.FlowPageMarked | figma-plugin/code.js:2001 | the flow page's name includes "DDA Mobile" |
| FigmaDocument.GeneratedNamesMarked | figma-plugin/code.js:210-212 | both generated page names include "DDA Mobile", so regenerating removes both kinds of page |
| FigmaDocument.RegenerateLeavesOneGenerated | figma-plugin/code.js:206-220 | after regenerating, the only page whose name includes "DDA Mobile" is the new screens page, which is last |
| FigmaDocument.KeptPagesIdempotent | figma-plugin/code.js:210-216 | removing the generated pages a second time removes nothing more |
| FigmaDocument.KeptNoneGenerated | figma-plugin/code.js:210-216 | a document without generated pages loses no page |
| FigmaDocument.Document.constructor | figma-plugin/code.js:14-15 | the plugin starts on the document's first page with Inter Regular and Inter Bold, no styles, no messages and not closed |
| FigmaDocument.Document.Post | figma-plugin/code.js:173 | posting a progress message appends its percentage |
| FigmaDocument.Document.CreateCurrentPage | figma-plugin/code.js:225-227 | a new page with the given name is added last and becomes the current page |
| FigmaDocument.Document.AddToCurrentPage | figma-plugin/code.js:285 | a new node goes after the existing ones on the current page, and no other page changes |
| FigmaDocument.Document.LoadFonts | figma-plugin/code.js:49-91 | the font pair becomes the font selection for the host's answers |
| FigmaDocument.Document.CreateColorStyles | figma-plugin/code.js:94-145 | the thirty paint styles of the colour table are added after the existing ones |
| FigmaDocument.Document.AddPaintStyles | figma-plugin/code.js:135-142 | the loop adds one paint style per entry, in order |
| FigmaDocument.Document.CreateTextStyles | figma-plugin/code.js:148-169 | the six text styles are added with the fonts in force |
| FigmaDocument.Document.AddTextStyles | figma-plugin/code.js:160-166 | the loop adds one text style per row, in order |
| FigmaDocument.Document.AddScreen | figma-plugin/code.js:285-300 | one 375×812 screen frame is added to the current page, as its design leaves it |
| FigmaDocument.Document.CreateAllScreens | figma-plugin/code.js:223-319 | a new current screens page holds the thirty screens on the grid, with one progress message per screen |
| FigmaDocument.Document.PlaceOnGrid | figma-plugin/code.js:270-311 | the loop adds the screens on the grid and posts the progress stream |
| FigmaDocument.Document.CreateDarkVariants | figma-plugin/code.js:322-350 | the four dark screens are added to the current page in one row at y = 8100 |
| FigmaDocument.Document.PlaceInDarkRow | figma-plugin/code.js:331-347 | the loop adds the dark screens 455 apart |
| FigmaDocument.Document.CreateEverything | figma-plugin/code.js:172-191 | fonts, colour and text styles, then one new page holding the thirty screens and the dark row, with progress 5, 15, 25, 40, the screens' stream, 85 and 100 |
| FigmaDocument.Document.CreateStylesPart | figma-plugin/code.js:173-182 | fonts and both style sets, with progress 5, 15, 25 and 40 |
| FigmaDocument.Document.CreateScreensPage | figma-plugin/code.js:184-187 | the screens page with both the grid and the dark row, with the screens' stream and 85 |
| FigmaDocument.Document.CreateStylesOnly | figma-plugin/code.js:194-203 | fonts and both style sets, with progress 20 and 100 only |
| FigmaDocument.Document.RemoveGeneratedPages | figma-plugin/code.js:210-216 | the pages become exactly the kept pages |
| FigmaDocument.Document.RegenerateAll | figma-plugin/code.js:206-220 | the generated pages go, then everything is created again on one new last page, with progress 10, 20 and then that of creating everything |
| FigmaDocument.Document.DrawFlows | figma-plugin/code.js:2034-2088 | the boxes, then the connectors, are added to the current page |
| FigmaDocument.Document.DrawBoxes | figma-plugin/code.js:2034-2063 | the box loop adds one box per flow, in order |
| FigmaDocument.Document.DrawConnectors | figma-plugin/code.js:2067-2086 | the inner loop adds one connector per target that names a box |
| FigmaDocument.Document.DrawConnector | figma-plugin/code.js:2070-2084 | a connector adds the line, then the arrowhead |
| FigmaDocument.Document.CreateFlowMap | figma-plugin/code.js:1997-2091 | a new current flow page holds the boxes and the connectors, with progress 20 and 100 |
| FigmaDocument.Document.HandleMessage | figma-plugin/code.js:18-46 | per message type, the whole new document: "create-all" selects the fonts, adds the colour and text styles and a new current screens page (main grid, then dark row) with the full progress stream; "create-styles" adds only the styles; "regenerate" also drops the generated pages first; "create-flow" adds a new current flow page and leaves fonts and styles alone; "close" only sets `closed`; any other type changes nothing |
| FigmaDocument.ParseCommand | figma-plugin/code.js:22-40 | a message type falls to the `default` branch exactly when it is none of the five `case` labels |

## Left out

- Rendering: the React components' JSX, styling and navigation. Only their state changes and derived values are modelled.
- Figma API side effects beyond the document tree: shadows and other effects, stroke weights, text alignment, auto-layout properties, `figma.notify` and `figma.closePlugin` (kept as a `closed` flag), and the plugin window.
- Async suspension: every `await` is modelled as running to completion in order.
- Progress messages: only their percentages are kept, not their text. Console output of every program is left out.
- Exceptions escaping a batch in the plugin's message handler: the handler's `catch` and its error message are not modelled. Font-loading errors and builder errors, which are caught where they occur, are modelled.
- The seventeen screen builders other than the home screens, the placeholders and the default design: their nodes and backgrounds are supplied by the host as `Drawing` values.
- HexColor.HexToRgb: keeps each channel as a byte 0..255; the division by 255 into Figma's unit interval is floating point and left out.
- Fractional geometry: the plugin's fractional coordinates, shadow alphas and progress-fill widths computed as width·p/100 inside screens that are not spelled out.
- FlowMap.Connector: the line's colour is the brand green's bytes (`BrandRgb`), and the line keeps the computed (possibly negative) width; how Figma treats a negative resize is not modelled.
- FigmaDocument.ScreenProgress: `Math.floor((i / n) * 40)` is the integer quotient 40·i / n; binary floating-point rounding of i / n is not modelled.
- ResultsScreen.PassMark: `Math.ceil(total * 0.8)` is the exact integer ceiling of 4·total/5; binary floating-point rounding of 0.8 is not modelled.
- The exam countdown's `setInterval` and React's effect lifecycle: one tick is one method call, and the timeout path that reuses the first render's `finishExam` is modelled separately (see Findings).
- ExamRun.ExamSession.SetAnswer: requires the option to be one of the current question's options, because the screen calls `setAnswer` only from those options' radio inputs (ExamRunScreen.tsx lines 140 and 213); arbitrary strings are not modelled.
- The `navigate` call at the end of `finishExam`: its result is returned as a value.
- `showToast` in `src/lib/utils.ts` (DOM) is not part of this model.
- File reading and writing, `process.exit` and the console in the three scripts: file contents are parameters and the exit code is a result.
- `JSON.stringify` of the export and of the React Native theme: the model stops at the value that would be printed. How `NaN` prints (`null`) is therefore not modelled.
- JsonValue.Entries: a string's entries are its Unicode characters, one per index; JavaScript's `Object.entries` yields UTF-16 code units, so a character outside the Basic Multilingual Plane gives two entries there (and a lone surrogate cannot be a Dafny `char`). Only a malformed token file that has a string where an object belongs reaches this case.
- JavaScript's ordering of integer-like object keys (which are enumerated before other keys): objects keep insertion order.
- JavaScript numbers are IEEE doubles; the model's integers are unbounded. `parseInt` results and pixel values beyond 2^53 therefore do not lose precision here, and the exponent form JavaScript prints for integers of 10^21 and above (`1e+21`) is not produced.
- Non-integral JSON numbers are carried as the text JavaScript prints for them, so `parseInt` of such a value reads that text.
- The ghost `design` and `issues` function parameters of the placement and screen-check loops stand for `createScreenDesign` and the per-screen check; lemmas show that the functions passed are exactly those.
- `src/pages/inspect.tsx` (which repeats the CSV parsing of the validator), `scripts/build-figma-export.mjs`, `scripts/verify-figma-export.mjs`, `scripts/preview-figma-export.mjs` and `scripts/figma.routes.js` are not part of this model.
- Randomness in the app's sample data and chat replies is not part of this model.

## Findings

| source | as written | input that shows it | evidently intended | confidence | as-written member | corrected member |
|---|---|---|---|---|---|---|
| src/components/screens/ExamRunScreen.tsx:24-35 | the countdown's interval is created once, with empty dependencies, so at timeout it calls the first render's `finishExam`, which sees no answers and the starting time: the result is 0/10 with no time spent, and all ten questions are recorded as mistakes | answer all ten questions correctly and let the clock run out | finishing at timeout scores the answers given, like the Finish button | not executed | ExamRun.ExamSession.TimerTickAsWritten | ExamRun.ExamSession.TimerTick |

The corrected `ExamRun.ExamSession.TimerTick` sets the clock to 0 before it finishes, so the time spent at timeout is the whole 874 seconds. Finishing from the state the last tick found, with one second still on the clock, would report 873.
