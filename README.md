# Recipe Book — a verified model

Recipe Book is a small cookbook site plus a helper script. The site is React and TypeScript; the script is Python. The site loads recipe records from JSON into one in-memory store. A list page shows one card per recipe, and a detail page shows one recipe in full. The detail page also embeds a schema.org `Recipe` object as structured data. The script transcribes a directory of audio files with Whisper. It writes one `### path` block per file into `.audio-outputs/transcription.txt`.

This project models, in Dafny:

- the store and its two accessors (`RecipeStore`);
- the ingredient count utility (`IngredientCount`);
- `formatTime` and the time entry of a card (`FormatTime`);
- what a recipe card shows (`RecipeCard`);
- the list page (`RecipeListPage`);
- the detail page (`RecipeDetailPage`);
- the transcription script, both of its copies (`Transcribe`).

The pure parts are datatypes, functions and lemmas. The script's output file is a class whose content the methods update. The `main` loop is a method with a loop invariant, proved against the function `BatchOutcome`.

Modelling choices:

- **Store as a parameter.** The store is an argument to every page function. So every lookup property holds for any catalogue, and `ShippedCatalogue` states the single shipped record.
- **JavaScript truthiness is explicit.** `null`, `0` and `""` are falsy.
  - A quantity is `NoQuantity`, `Amount(n)` or `Words(s)`.
  - Unit and descriptor are `Option<string>`.
  - Times are `Option<nat>`.
- **Three copies of `formatTime`.** The card, the list page and the detail page each define it. The card's copy uses a conditional expression and the other two use `if`/`return`, but all three compute the same string, so the model defines it once (`FormatTime.FormatTime`). Each copy is cited once in the table below.
- **Two copies of the script.** `transcribe_audio.py` at the root and `scripts/transcribe/transcribe_audio.py` have the same helpers. The scripts copy also checks that the input directory exists. The batch after that check is `Transcribe.BatchOutcome`. With the check, the run is `Transcribe.ScriptOutcome`.
- **The environment is a parameter.** The listing from `rglob` is a sequence of entries, each a relative path and an is-file flag. The file-exists test, `resolve` and Whisper are the functions of an `Environment` value. Whether the model loads is a boolean.
- **No search filter.** The list page renders the whole store. Some descriptions of the site mention a search filter, but the list page's code has none, and the model follows the code.

Text helpers (`Text`): `NatToString` (the plain decimal rendering of a non-negative integer, which is what a template literal gives for a whole JavaScript number up to 2^53), its parser, and `LeadingDigits`. They let the model state round trips: a formatted duration, an ISO duration and a "+N ещё" badge can each be read back to the number they came from.

## Model

| member | source | states |
|---|---|---|
| RecipeStore.GetRecipeById | react-app/src/data/index.ts:17-19 | absent exactly when no record has the id; a returned record has that id and is in the store |
| RecipeStore.GetRecipeByIdFirstMatch | react-app/src/data/index.ts:18 | when several records share an id, the first one in store order is returned |
| RecipeStore.LookupOfListedRecipe | react-app/src/data/index.ts:7-12 | with distinct ids, looking up any listed record's id gives that record back |
| RecipeStore.ShippedCatalogue | react-app/src/data/index.ts:7-23 | `getAllRecipes` gives the store as is; the shipped store has one record, with id `pasta-with-creamy-cheese-sauce-and-shrimp`; the lookup finds it by that id and by no other |
| IngredientCount.CountBuildsUp | react-app/src/utils/getIngredientCount.ts:3-5 | the count of no ingredients is 0, and each added ingredient adds one, so the count is the list length |
| IngredientCount.CountIgnoresFields | react-app/src/utils/getIngredientCount.ts:4 | the count depends on the length only, never on a field, so optional ingredients and null quantities count too |
| IngredientCount.CountOfTestList | react-app/src/utils/getIngredientCount.test.ts:6-12 | flour with quantity 1 cup plus salt with null quantity and unit count as 2 |
| FormatTime.FormatTimePlaceholder | react-app/src/components/RecipeCard.tsx:11-12 | the placeholder "Время не указано" is returned exactly when the seconds are null or 0 |
| FormatTime.FormatTimeWithHours | react-app/src/components/RecipeCard.tsx:13-16 | from 3600 s on, the text is "H ч M мин" with H ≥ 1, M < 60 and H·60+M the whole minutes |
| FormatTime.FormatTimeMinutesOnly | react-app/src/components/RecipeListPage.tsx:9-19 | for 0 < s < 3600, the text is "{s div 60} мин", so under a minute reads "0 мин" |
| FormatTime.FormatTimeRoundTrip | react-app/src/components/RecipeDetailPage.tsx:50-60 | a known duration reads back as its whole minutes, rounded down: no information but the seconds is lost |
| FormatTime.TimeEntryAsWrittenShowsZero | react-app/src/components/RecipeCard.tsx:34-39 | as written, a total time of 0 is rendered as the bare text "0", which is neither a duration nor the placeholder |
| FormatTime.TimeEntry | react-app/src/components/RecipeCard.tsx:34-39 | the time entry as corrected is shown exactly when the time is known and non-zero; it is never the placeholder, and it reads back as the whole minutes |
| FormatTime.TimeEntryAgreesWithWritten | react-app/src/components/RecipeCard.tsx:34-39 | the corrected entry equals the entry as written exactly when the time is not 0 |
| RecipeCard.BadgeCountOfBadgeText | react-app/src/components/RecipeCard.tsx:66 | a "+N ещё" badge announces exactly N |
| RecipeCard.PreviewOf | react-app/src/components/RecipeCard.tsx:56-68 | the chips are the first min(n, size) items in order; a badge appears exactly when n > size, and it is "+{hidden} ещё", which reads back as the number of hidden items |
| RecipeCard.IngredientPreview | react-app/src/components/RecipeCard.tsx:56-68 | the item names of the first min(n, 4) ingredients, in order; a badge exactly when n > 4, reading "+{n-4} ещё", so shown plus hidden is n |
| RecipeCard.EquipmentPreview | react-app/src/components/RecipeCard.tsx:73-93 | the block exists exactly when there is equipment; it has the first min(n, 3) items, and a badge exactly when n > 3, reading "+{n-3} ещё" |
| RecipeCard.TagBlock | react-app/src/components/RecipeCard.tsx:117-134 | the dietary tags block exists exactly when there are tags, and it holds every tag in order |
| RecipeCard.CustomTagChips | react-app/src/components/RecipeCard.tsx:137-159 | one chip per custom tag, in order; each chip shows its tag, and clicking it calls `onTagClick` with exactly that tag |
| RecipeCard.Card | react-app/src/components/RecipeCard.tsx:19-44 | the card links to `/recipes/{id}`; it shows the title, the yield, the ingredient count (the list length), the ingredient and equipment previews, the step count, the dietary tag block and one chip per custom tag; the time entry, as corrected, exists exactly for a non-zero time and equals the entry as written for every time other than 0 |
| RecipeListPage.LocalCountAgrees | react-app/src/components/RecipeListPage.tsx:22-24 | the page's own count equals the shared utility's |
| RecipeListPage.ListCardMatchesRecipeCard | react-app/src/components/RecipeListPage.tsx:75-105 | the page's inline card shows what `RecipeCard` shows, field by field, except the custom tags, and with the same time text as corrected |
| RecipeListPage.ListCardPreviews | react-app/src/components/RecipeListPage.tsx:116-191 | first min(n, 4) ingredients with a badge "+{n-4} ещё" exactly when n > 4; the equipment block exactly when equipment is non-empty, with the first min(e, 3) items and a badge "+{e-3} ещё" exactly when e > 3; dietary tags only when there are some, all in order |
| RecipeListPage.ListPage | react-app/src/components/RecipeListPage.tsx:54-75 | the empty-state message exactly when the store is empty; otherwise the count is the number of recipes, with one card per recipe in store order |
| RecipeDetailPage.IsoDuration | react-app/src/components/RecipeDetailPage.tsx:37-38 | "PT{minutes}M", with the whole minutes in plain decimal, exactly when the time is known and non-zero; it reads back as the whole minutes |
| RecipeDetailPage.QuantityPart | react-app/src/components/RecipeDetailPage.tsx:41 | empty exactly for a falsy quantity; otherwise the quantity followed by a space |
| RecipeDetailPage.UnitPart | react-app/src/components/RecipeDetailPage.tsx:42 | empty exactly for a null or empty unit; otherwise the unit followed by a space |
| RecipeDetailPage.DescriptorPart | react-app/src/components/RecipeDetailPage.tsx:43 | empty exactly for a null or empty descriptor; otherwise the descriptor in parentheses, after a space |
| RecipeDetailPage.IngredientStringHasItem | react-app/src/components/RecipeDetailPage.tsx:44 | the item always appears in the flattened string, right after the quantity and unit parts |
| RecipeDetailPage.IngredientStringBare | react-app/src/components/RecipeDetailPage.tsx:40-45 | an ingredient with only an item flattens to the item itself |
| RecipeDetailPage.IngredientStrings | react-app/src/components/RecipeDetailPage.tsx:40-45 | one flattened string per ingredient, in order |
| RecipeDetailPage.Instructions | react-app/src/components/RecipeDetailPage.tsx:46 | the step actions, one per step, in step order |
| RecipeDetailPage.StructuredDataOf | react-app/src/components/RecipeDetailPage.tsx:30-47 | the schema.org context, type and author; `prepTime` and `cookTime` are both `IsoDuration` of the total time, so "PT{s div 60}M" exactly for a non-zero time; name and description are the title; one flattened string per ingredient and one action per step, in order |
| RecipeDetailPage.DisplayLineAsWrittenZeroQuantity | react-app/src/components/RecipeDetailPage.tsx:185-189 | as written, an ingredient with quantity 0 is displayed as "0соль", unlike its structured-data string "соль" |
| RecipeDetailPage.DisplayLineAsWrittenDiffersOnlyAtZero | react-app/src/components/RecipeDetailPage.tsx:185-189 | the written line and the intended line agree for every ingredient except one with quantity 0 |
| RecipeDetailPage.DisplayLineExtendsStructuredData | react-app/src/components/RecipeDetailPage.tsx:185-189 | the displayed line is the structured-data string, plus " - по желанию" exactly when the ingredient is optional |
| RecipeDetailPage.EquipmentSummary | react-app/src/components/RecipeDetailPage.tsx:160-163 | shown exactly when there is equipment: the single item, or the first two joined by ", " |
| RecipeDetailPage.DetailPage | react-app/src/components/RecipeDetailPage.tsx:11-27 | not found, with no structured data, exactly when the route id is absent or empty or names no recipe; otherwise the recipe with that id, its structured data and its equipment summary. As corrected: one display line per ingredient, which equals the line as written exactly when the quantity is not 0, and a time entry that agrees with the one as written for every time other than 0 |
| RecipeDetailPage.DetailOfListedRecipe | react-app/src/components/RecipeDetailPage.tsx:10-11 | with distinct non-empty ids, the page for a listed recipe's id shows that recipe |
| Transcribe.FilterCounts | scripts/transcribe/transcribe_audio.py:110 | the comprehension keeps every entry that passes the test, as often as it is listed, and nothing else |
| Transcribe.KeepAudioCounts | scripts/transcribe/transcribe_audio.py:102-110 | kept are exactly the files whose lower-cased suffix is .wav, .mp3, .flac, .ogg or .m4a |
| Transcribe.SortByPath | scripts/transcribe/transcribe_audio.py:111 | the result is a permutation of its input, sorted by relative path in code-point order |
| Transcribe.PathLeTotal | scripts/transcribe/transcribe_audio.py:111 | any two relative paths are comparable |
| Transcribe.PathLeTransitive | scripts/transcribe/transcribe_audio.py:111 | the path order is transitive |
| Transcribe.PathLeAntisymmetric | scripts/transcribe/transcribe_audio.py:111 | two paths each at most the other are equal, so the sort key identifies a file |
| Transcribe.SortedArrangementUnique | scripts/transcribe/transcribe_audio.py:111 | two sorted arrangements of the same files are equal, so the insertion sort gives what `sorted` gives |
| Transcribe.FindAudioFilesSpec | scripts/transcribe/transcribe_audio.py:108-111 | the result holds exactly the audio files among the entries, all of them files, sorted by relative path; and it is the only list that does |
| Transcribe.TranscribeFile | scripts/transcribe/transcribe_audio.py:124-136 | an error line naming the path for a missing file; an error line with the message when Whisper raises; else the stripped text |
| Transcribe.StripSlice | scripts/transcribe/transcribe_audio.py:133 | `strip` keeps one contiguous slice, removes only whitespace before and after it, and leaves none at either end |
| Transcribe.StripIdempotent | scripts/transcribe/transcribe_audio.py:133 | stripping twice gives what stripping once gives |
| Transcribe.TranscriptTrimmed | transcribe_audio.py:58-60 | a transcript never starts or ends with whitespace |
| Transcribe.BlockRoundTrip | scripts/transcribe/transcribe_audio.py:143 | a block "### {rel}\n{text}\n\n" reads back as its path and text, for any path without a line break |
| Transcribe.OutputFile.WriteTranscription | scripts/transcribe/transcribe_audio.py:139-143 | the block is appended only when asked to and the file exists; otherwise the file holds just the block |
| Transcribe.BlocksAppend | scripts/transcribe/transcribe_audio.py:181-187 | the blocks of two batches in a row are the blocks of the first followed by those of the second |
| Transcribe.BlocksStartWithFirstFile | scripts/transcribe/transcribe_audio.py:181-187 | the output starts with the first file's block |
| Transcribe.AppendBlocks | scripts/transcribe/transcribe_audio.py:181-187 | after the loop the file holds what it held before, followed by one block per file, in order |
| Transcribe.ProcessBatch | transcribe_audio.py:91-108 | exit code and final output are those of `BatchOutcome`: without `--append` the old output is removed; no audio files means exit 0; a model that fails to load means exit 1; otherwise the blocks are appended |
| Transcribe.MainWithInputCheck | scripts/transcribe/transcribe_audio.py:165-187 | the run with the input-directory check, as `ScriptOutcome` |
| Transcribe.MissingInputDirectory | scripts/transcribe/transcribe_audio.py:166-168 | a missing input directory exits with code 1, and the output is left untouched |
| Transcribe.AppendKeepsPrevious | scripts/transcribe/transcribe_audio.py:171-187 | with `--append`, the old content is a prefix of the final output |
| Transcribe.OverwriteDropsPrevious | scripts/transcribe/transcribe_audio.py:171-187 | without `--append` nothing of the old output survives; the exit code is 1 exactly when files exist and the model fails to load |
| Transcribe.NoAudioFilesWritesNothing | transcribe_audio.py:95-98 | no audio files: exit code 0, and no block is written |
| Transcribe.RootCopyMissingInput | transcribe_audio.py:91-98 | the root copy does not check the input directory, so an empty listing exits with code 0 after the clean-up |

## Left out

- **JSON.** Importing and casting the recipe JSON file is not modelled, and neither is `JSON.stringify` of the structured data. The parsed record is a parameter, and the structured data is the `StructuredData` datatype before serialisation.
- **Markup.** The pages' markup, styles and icons are not modelled, and neither are `Header.tsx`, `SearchBar.tsx`, `RecipeGrid.tsx` or the routing in `App.tsx`. Only the values the pages compute are.
- **Progress bar.** The step-count progress bar width `Math.min((steps/10)*100, 100)` is floating-point arithmetic, so it is left out.
- **Non-integer numbers.** Quantities are whole numbers or words, and times are whole seconds. JavaScript's rendering of fractional or negative numbers is not modelled.
- **Step details.** The detail page's per-step details (duration, temperature, notes) are not modelled. Their temperature uses the same `x && …` rendering as the time entry. So a temperature of 0 would show a stray "0", but only when the block is shown at all, which needs the duration or the notes to be truthy (RecipeDetailPage.tsx:230).
- **Script I/O.** These are left out: Whisper's model loading and transcription, `rglob`, `resolve`, the real file system, logging, timing, `argparse`, `OUTPUT_DIR.mkdir`, and the wrapper that turns an unhandled exception into exit code 1. The `Environment` value and the listing stand for them.
- RecipeCard.Card: uses the corrected time entry `TimeEntry`, so for a total time of 0 it shows no entry where the page as written shows "0". It agrees with the page for every other time (see the second row of "## Findings"). RecipeListPage.ListCardOf does the same.
- RecipeDetailPage.DetailPage: uses the corrected time entry and the corrected `DisplayLine`. For a total time of 0 it shows no entry, and for a quantity of 0 it shows the line without the stray "0". It agrees with the page as written everywhere else (see "## Findings").
- **Number width.** `NatToString` is unbounded. JavaScript numbers are doubles, which are inexact above 2^53 and are written in exponent notation from 10^21 on. The model does not capture those.
- Transcribe.Lower: lower-cases ASCII letters only, because Unicode case mapping is not modelled. An extension such as ".MP3" is recognised.
- **Sort stability.** `sorted` is stable, but its stability never shows: two files never share a relative path, and `SortedArrangementUnique` shows the sorted result is unique. So ties are not modelled.
- Transcribe.OutputFile.WriteTranscription: models the file as a string that is present or absent, and writes each line break as "\n". A text-mode `open` on Windows writes "\r\n" instead. Partial writes and encoding errors are not modelled.

## Findings

| source | as written | input that shows it | evidently intended | confidence | as-written member | corrected member |
|---|---|---|---|---|---|---|
| react-app/src/components/RecipeDetailPage.tsx:185 | `{ingredient.quantity && …}` renders the number 0 as the text "0" | an ingredient `{quantity: 0, unit: null, item: "соль"}` is displayed as "0соль" | no quantity shown for a falsy quantity, as the structured data does at line 41 | not executed | RecipeDetailPage.DisplayLineAsWrittenZeroQuantity | RecipeDetailPage.DisplayLineExtendsStructuredData |
| react-app/src/components/RecipeCard.tsx:34 | `{recipe.total_time_seconds && …}` renders a total time of 0 as the text "0" (the same at RecipeListPage.tsx:94 and RecipeDetailPage.tsx:150) | a recipe with `total_time_seconds: 0` shows a stray "0" in its meta line | no time entry for an unknown or zero time | not executed | FormatTime.TimeEntryAsWrittenShowsZero | FormatTime.TimeEntry |
