# IELTS Band 7 Architect — a Dafny model of the front end's logic

The application takes an English article, asks a remote language model for an
IELTS study analysis, and shows it as four cards: speaking practice, core
vocabulary, reading logic and syntax. This project models the deterministic
part of that front end and proves what it promises:

- `App` (`app.dfy`) is the controller. Its class `App.App` holds the analysis on
  screen, the AI settings, the loading flag, the error banner and whether the
  settings dialog is open. It also holds browser storage, as a map from key to
  a parsed blob. The page loads both entries from storage. `Valid()` says memory
  equals what a reload from storage would give, and every handler keeps it.
  The remote call `analyzeArticle` is an `App.Remote` object. Its answer to a
  request is fixed (a result or a thrown message), and it logs every request
  it receives, so the controller's contract can say whether a call was made.
- `SettingsModal` (`settings_modal.dfy`) is the settings dialog. It has a
  working copy of the settings and an active provider tab. `NormaliseOnSave` is
  the normalisation applied on save; the class methods are the tab, model and
  key edits.
- `ArticleInput` (`article_input.dfy`) is the article box. It models JavaScript
  `trim` over the exact white-space and line-terminator set. On top of that it
  models the gate on submit, 50 UTF-16 code units as JavaScript's `length`
  counts them, and the rule for when the submit
  button is disabled.
- `ReadingSection`, `SyntaxSection`, `VocabularySection` and `SpeakingSection`
  hold each card's "copy as text" serialiser (`CopyText`) and its `copied`
  flag. The vocabulary and speaking modules also say how many list entries
  their card shows; the reading and syntax cards show every entry. Each serialiser's output is
  specified line by line through `Text.Lines`, which splits a text at its line
  feeds. The `CopyTextLines` lemmas give the exact line list, whenever no copied
  field itself contains a line feed.
- `Types` (`types.dfy`) holds the analysis records, the providers and the
  settings. `Catalog` stands for the provider display names and the model lists
  per provider, which the components import.
- `Text` (`text.dfy`) holds `join`, the line split, and the decimal rendering
  of the entry numbers.

## Model

| member | source | states |
|---|---|---|
| Types.IeltsAnalysisResponse | types.ts:59-64 | a response always holds all four sections. Each section has its description, each record its English/Chinese pair and each list its order (types.ts:1-57); these hold by construction of the datatypes |
| App.DefaultSettings | App.tsx:16-25 | the defaults select Google and the model "gemini-2.5-flash"; Google's key is the build-time key, and the other three providers' keys are empty |
| App.Serialize | App.tsx:80 | the saved object has every field present, so merging it over any base gives the saved settings back |
| App.Merge | App.tsx:42 | the spread `{ ...base, ...stored }`: an empty stored object leaves the base as it is, and a complete one replaces it entirely |
| App.MergeTwice | App.tsx:42 | spreading the same stored object a second time changes nothing |
| App.LoadSettings | App.tsx:39-46 | each field of the loaded settings is the stored value of that field when the stored object has it, and the default otherwise |
| App.LoadIsMergeOverDefaults | App.tsx:39-46 | loading is the merge of the usable stored object (or an empty one) over the defaults |
| App.LoadAnalysis | App.tsx:29-36 | a loaded analysis is the one stored under the analysis key; by the model's choice, a settings blob there is not read as an analysis, whereas the page would take any parseable value (see "## Left out") |
| App.AnalysisIgnoresOtherEntries | App.tsx:29-36 | writing or removing any other storage entry, saved settings included, leaves the loaded analysis as it was |
| App.HasApiKey | App.tsx:54 | a provider with no entry in the key record never has a key |
| App.DefaultsHaveKey | App.tsx:54 | the default settings pass the key test exactly when a build-time key is set |
| App.KeyEditDecides | App.tsx:54 | with an entry set for the active provider, the key test passes exactly when that entry is not empty; an entry for another provider does not affect it |
| App.MissingKeyMessage | App.tsx:56 | the banner begins "Please enter an API Key for " followed by the provider's display name |
| App.SettingsRoundTrip | App.tsx:78-81 | after saving settings, loading them back gives the same settings, whatever else storage holds and whatever the build-time key is |
| App.LoadSettingsFallsBack | App.tsx:39-46 | when nothing is stored, or the stored value does not parse, the loaded settings are the defaults |
| App.StoredKeysReplaceDefaults | App.tsx:42 | the merge is shallow: a stored key record replaces the default record whole, so a stored record without a Google entry loses the build-time key and the default provider then has no key |
| App.StoredProviderAlone | App.tsx:42 | a stored object with only a provider overrides that field alone; model and keys stay at their defaults |
| App.AnalysisRoundTrip | App.tsx:29-36 | a stored analysis loads back as itself; after removal, nothing loads |
| App.ErrorMessage | App.tsx:67 | the error banner after a failure is never empty: it is the thrown message when that is non-empty, else the fixed fallback text |
| App.App.constructor | App.tsx:29-50 | the page starts with the stored analysis and the merged settings, not loading, with no error and the dialog closed; memory agrees with storage |
| App.Remote.constructor | App.tsx:63 | a service with a fixed answer to each request, and no request made yet |
| App.Remote.Analyze | App.tsx:63 | one request, with the given text and settings, is appended to the log, and the answer is the service's outcome for it |
| App.App.HandleAnalyze | App.tsx:52-71 | without a key for the active provider: opens the dialog, sets the error naming the provider, sends no request (the service's log is unchanged), and leaves analysis, storage and loading flag alone. Otherwise it sends exactly one request, with the text and the current settings. A result replaces the analysis in memory and under the analysis key, with no error. A failure sets the error message and touches neither. Loading is off afterwards. Settings never change, and memory still agrees with storage |
| App.App.BeginAnalyze | App.tsx:60-61 | before the call: loading on, error cleared, nothing else changed |
| App.App.CompleteAnalyze | App.tsx:63-70 | a result is stored in memory and in storage; a failure only sets the error; loading ends either way |
| App.App.ClearData | App.tsx:73-76 | the analysis is gone from memory and from storage; nothing else changes |
| App.App.HandleSaveSettings | App.tsx:78-81 | the settings in memory are the new ones and the stored entry is their serialisation, so a reload restores them; nothing else changes |
| App.App.OpenSettings | App.tsx:107 | the header button opens the dialog; memory still agrees with storage |
| App.App.CloseSettings | App.tsx:87 | the close callback closes the dialog; memory still agrees with storage |
| SettingsModal.NormaliseOnSave | components/SettingsModal.tsx:19-25 | the saved provider is the active tab. The saved model always belongs to that tab's list. It equals the working model exactly when the tab lists that model, and is otherwise the tab's first model. The keys pass through unchanged |
| SettingsModal.NormaliseIdempotent | components/SettingsModal.tsx:22-24 | normalising an already normalised copy on the same tab changes nothing |
| SettingsModal.NormaliseKeepsConsistent | components/SettingsModal.tsx:22-23 | settings whose model is in their own provider's list are saved unchanged |
| SettingsModal.SwitchThenSave | components/SettingsModal.tsx:61-64 | switching to a tab and then saving yields that provider with its first model, keys untouched |
| SettingsModal.SettingsModal.constructor | components/SettingsModal.tsx:13-14 | the dialog starts from the controller's settings, on their provider's tab |
| SettingsModal.SettingsModal.SelectTab | components/SettingsModal.tsx:61-64 | the tab becomes `p`; the working model becomes `p`'s first model, which is in `p`'s list; the keys stay |
| SettingsModal.SettingsModal.SelectModel | components/SettingsModal.tsx:90 | only the working model changes |
| SettingsModal.SettingsModal.EditApiKey | components/SettingsModal.tsx:107-110 | the active tab's key becomes the typed text. Every other provider's key, the provider and the model are unchanged |
| SettingsModal.SettingsModal.HandleSave | components/SettingsModal.tsx:18-27 | with the dialog and the controller sharing one model table, the controller adopts and stores the normalised settings once, then the dialog is closed; analysis, loading flag and error are unchanged |
| ArticleInput.LeadingWhitespace | components/ArticleInput.tsx:15 | counts the white space before the first other character: all counted characters are white space, and the next one is not |
| ArticleInput.TrailingWhitespace | components/ArticleInput.tsx:15 | counts the white space after the last other character, in the same way from the end |
| ArticleInput.Trim | components/ArticleInput.tsx:15 | `text.trim()`: never longer than the text; empty, or neither its first nor its last character is white space |
| ArticleInput.TrimExact | components/ArticleInput.tsx:15 | trimming white space around a text whose ends are not white space gives exactly that text; interior white space is kept and counts toward the length |
| ArticleInput.TrimEmptyIffBlank | components/ArticleInput.tsx:57 | the trimmed text is empty exactly when the text is all white space |
| ArticleInput.SubmitDisabled | components/ArticleInput.tsx:57 | `isLoading \|\| !text.trim()`: the submit button is disabled exactly while loading or when the text is all white space |
| ArticleInput.Utf16Length | components/ArticleInput.tsx:15 | JavaScript's `length`: between one and two code units per character, two exactly for characters outside the Basic Multilingual Plane |
| ArticleInput.BmpLengthIsCharacters | components/ArticleInput.tsx:15 | for text inside the Basic Multilingual Plane the length is the number of characters |
| ArticleInput.AstralLengthIsDouble | components/ArticleInput.tsx:15 | for text outside it the length is twice the number of characters |
| ArticleInput.TrimShortens | components/ArticleInput.tsx:15 | trimming never makes the length larger |
| ArticleInput.AcceptsArticle | components/ArticleInput.tsx:15 | the gate `text.trim().length >= 50`, in UTF-16 code units; an accepted text is at least 50 code units long and not all white space |
| ArticleInput.AstralArticleAccepted | components/ArticleInput.tsx:15 | 25 characters from outside the Basic Multilingual Plane, such as emoji, pass the gate, since they are 50 code units |
| ArticleInput.AcceptedIsEnabled | components/ArticleInput.tsx:15-19 | a text the length gate accepts has the button enabled when not loading |
| ArticleInput.EnabledButRejected | components/ArticleInput.tsx:15-18 | a text that is not blank but shorter than 50 code units can be submitted, and the gate then rejects it |
| ArticleInput.ArticleInput.constructor | components/ArticleInput.tsx:11 | the box starts empty |
| ArticleInput.ArticleInput.OnChange | components/ArticleInput.tsx:43 | typing replaces the text |
| ArticleInput.ArticleInput.HandleSubmit | components/ArticleInput.tsx:13-20 | the text is passed on exactly when the gate accepts it (trimmed length at least 50 code units), and it is passed on untrimmed |
| ReadingSection.StructureLine | components/ReadingSection.tsx:13 | the i-th point's line "{i+1}. {en} (CN: {cn})": it starts with the number and the English text, and it is a single line when both texts are |
| ReadingSection.CopyText | components/ReadingSection.tsx:13 | the copy template itself; its shape is stated by CopyTextLines |
| ReadingSection.CopyTextLines | components/ReadingSection.tsx:13 | the copied text, line by line: the title, a blank line, "Main Idea:", the main idea, "CN: " and its Chinese, a blank line, "Structure Breakdown:", then one numbered line "{i+1}. {en} (CN: {cn})" per point in order, a blank line, "Critical Thinking Point:", the point and "CN: " with its Chinese |
| ReadingSection.StructureBlockLines | components/ReadingSection.tsx:13 | the structure points joined by single line feeds split back into one numbered line per point, with no trailing separator |
| ReadingSection.DescriptionNotCopied | components/ReadingSection.tsx:13 | the description does not affect the copied text |
| ReadingSection.ReadingSection.constructor | components/ReadingSection.tsx:9-10 | the card holds the section it was given, and the "copied" acknowledgement starts hidden |
| ReadingSection.ReadingSection.HandleCopy | components/ReadingSection.tsx:12-16 | the text handed to the clipboard is the template, and the acknowledgement shows |
| ReadingSection.ReadingSection.CopiedTimeout | components/ReadingSection.tsx:17 | the acknowledgement is cleared |
| SyntaxSection.ClauseLine | components/SyntaxSection.tsx:13 | a clause's line "- [{role} / {role_cn}]: {part}": it starts with the bracketed role, and it is a single line when its three texts are |
| SyntaxSection.CopyText | components/SyntaxSection.tsx:13 | the copy template itself; its shape is stated by CopyTextLines |
| SyntaxSection.CopyTextLines | components/SyntaxSection.tsx:13 | the copied text, line by line: the title, a blank line, "Target Sentence:", the sentence in double quotes, "Type: " with the type, a blank line, "Clause Breakdown:", then one line "- [{role} / {role_cn}]: {part}" per clause in order, a blank line, "Grammar Focus:", the focus and "CN: " with its Chinese |
| SyntaxSection.ClauseBlockLines | components/SyntaxSection.tsx:13 | the clause lines joined by single line feeds split back into one line per clause, in order |
| SyntaxSection.DescriptionNotCopied | components/SyntaxSection.tsx:13 | the description does not affect the copied text |
| SyntaxSection.SyntaxSection.constructor | components/SyntaxSection.tsx:9-10 | the card holds the section it was given, and the "copied" acknowledgement starts hidden |
| SyntaxSection.SyntaxSection.HandleCopy | components/SyntaxSection.tsx:12-16 | the text handed to the clipboard is the template, and the acknowledgement shows |
| SyntaxSection.SyntaxSection.CopiedTimeout | components/SyntaxSection.tsx:17 | the acknowledgement is cleared |
| VocabularySection.Entry | components/VocabularySection.tsx:14 | one word's entry template; its four lines are stated by EntryLinesExact |
| VocabularySection.CopyText | components/VocabularySection.tsx:13-15 | the copy template itself; its shape is stated by CopyTextLines and EmptyIsHeader |
| VocabularySection.EntryLinesExact | components/VocabularySection.tsx:14 | an entry is four lines: "{i+1}. {word} ({part of speech})", the definition, the Chinese definition, and all synonyms joined by ", " |
| VocabularySection.CopyTextLines | components/VocabularySection.tsx:13-15 | the copied text is the title, a blank line, then each word's four lines in input order, with one blank line between words |
| VocabularySection.EmptyIsHeader | components/VocabularySection.tsx:13-15 | with no words the copied text is exactly the header and its two line feeds |
| VocabularySection.ShownOnCard | components/VocabularySection.tsx:67 | `synonyms.slice(0, 3)`: the card shows exactly the first min(3, n) synonyms, in order |
| VocabularySection.CopiedSynonymsExtendShown | components/VocabularySection.tsx:14 | the synonyms on the card, joined, are a prefix of the copied synonym line's list, and all of it when there are at most three |
| VocabularySection.DescriptionNotCopied | components/VocabularySection.tsx:13-15 | the description does not affect the copied text |
| VocabularySection.VocabularySection.constructor | components/VocabularySection.tsx:9-10 | the card holds the section it was given, and the "copied" acknowledgement starts hidden |
| VocabularySection.VocabularySection.HandleCopy | components/VocabularySection.tsx:12-18 | the text handed to the clipboard is the template, and the acknowledgement shows |
| VocabularySection.VocabularySection.CopiedTimeout | components/VocabularySection.tsx:19 | the acknowledgement is cleared |
| SpeakingSection.SentenceItems | components/SpeakingSection.tsx:14 | one line per practice sentence, in order: "   - " followed by exactly that sentence, a single line when the sentence is |
| SpeakingSection.Entry | components/SpeakingSection.tsx:14 | one item's entry template; its lines are stated by EntryLinesExact |
| SpeakingSection.CopyText | components/SpeakingSection.tsx:13-15 | the copy template itself; its shape is stated by CopyTextLines |
| SpeakingSection.EntryLinesExact | components/SpeakingSection.tsx:14 | an entry is the numbered quoted phrase, the meaning with its Chinese in parentheses, "Practice Sentences:", then one "   - {s}" line for every sentence; no sentences leave one empty line |
| SpeakingSection.EachEntryLines | components/SpeakingSection.tsx:13-15 | every entry, at its position, splits into that item's lines |
| SpeakingSection.CopyTextLines | components/SpeakingSection.tsx:13-15 | the copied text is the title, a blank line, then each item's lines in input order, with one blank line between items |
| SpeakingSection.ShownOnCard | components/SpeakingSection.tsx:57 | `practice_sentences.slice(0, 3)`: the card shows exactly the first min(3, n) sentences, in order |
| SpeakingSection.ShownSentencesAreCopied | components/SpeakingSection.tsx:14 | the copy has one sentence line for every sentence, and every sentence the card shows appears in the copy, in the same position |
| SpeakingSection.DescriptionNotCopied | components/SpeakingSection.tsx:13-15 | the description does not affect the copied text |
| SpeakingSection.SpeakingSection.constructor | components/SpeakingSection.tsx:9-10 | the card holds the section it was given, and the "copied" acknowledgement starts hidden |
| SpeakingSection.SpeakingSection.HandleCopy | components/SpeakingSection.tsx:12-18 | the text handed to the clipboard is the template, and the acknowledgement shows |
| SpeakingSection.SpeakingSection.CopiedTimeout | components/SpeakingSection.tsx:19 | the acknowledgement is cleared |
| Text.Join | components/VocabularySection.tsx:14 | `Array.prototype.join`: the elements in order with the separator between neighbours, none before the first or after the last; its properties are JoinTakeIsPrefix, LinesOfJoinedLines and LinesOfJoinedBlocks |
| Text.JoinTakeIsPrefix | components/VocabularySection.tsx:14 | joining the first k strings gives a prefix of joining all of them |
| Text.LinesOfJoinedLines | components/ReadingSection.tsx:13 | single lines joined by line feeds split back into those lines; joining none gives one empty line |
| Text.LinesOfJoinedBlocks | components/VocabularySection.tsx:15 | texts joined by a blank line split into their own lines, with one empty line between them |
| Text.NatToString | components/ReadingSection.tsx:13 | an entry number renders as decimal digits with no leading zero |
| Text.DecimalRoundTrip | components/ReadingSection.tsx:13 | reading the rendered digits back gives the number |

## Left out

- JSON: storage holds parsed blobs. A value that fails to parse is `Unparseable`. A parseable value of the wrong shape is treated like a missing one; in particular `App.LoadAnalysis` does not take a settings object under the analysis key as an analysis, whereas the page would. The model does not check what `JSON.parse` would do with a wrongly typed field.
- `services/geminiService.ts` is not part of this model. The network call is `App.Remote.Analyze`, whose answer to each request is fixed in advance; the model ignores the service's mismatched signature.
- The clipboard write, the two-second timer, the `alert` on a short article, the textarea's `disabled` while loading, JSX markup and CSS are browser effects. The timer's expiry is the separate `CopiedTimeout` method.
- `process.env.API_KEY` is the `envApiKey` parameter; an unset variable is the empty string.
- Asynchrony: `handleAnalyze` is modelled as the atomic steps `BeginAnalyze` and `CompleteAnalyze`. A second submission while a call is outstanding is not modelled.
- `localStorage.setItem` failing after `setData` (for instance on a full quota) is not modelled. Every write succeeds.
- `App.ErrorMessage`: a thrown value without a message is modelled as an empty message, so the fallback text is used.
- Strings are sequences of Unicode scalar values. A JavaScript string holding a lone surrogate has no counterpart in the model.
- The dialog's `isOpen` early return is not modelled. The working copy is set from the controller's settings when the dialog is created, and React keeps that state across later renders.
- `Types.Catalog`: `AVAILABLE_MODELS` and `PROVIDER_NAMES` are imported from `types.ts` but are not defined in it. They are a parameter, with every provider's model list assumed non-empty.
- The `CopyTextLines` lemmas assume that no copied field contains a line feed. Only under that assumption does a line of the output correspond to a field. `CopyText` itself is defined for every input.
