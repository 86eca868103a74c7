# Word memorizer plugin core, modelled in Dafny

This project models the core of an IntelliJ vocabulary plugin. The plugin loads a JSON wordbook and shows its words a page at a time in a tool window. A check box masks the translations, a start button draws random words, and the settings remember the page, the page size and the chosen wordbook. The model covers five pieces:

- **Wordbook service** (`Service.dfy`). This is the loader loop that turns parsed records into `WordEntry` values. It drops records with a null or blank word or with no usable translation. It renders each translation item as `type. text` and joins the items with `"; "`. The random sample is taken after a Fisher–Yates `Collections.shuffle`. The service object keeps the list of its last load.
- **`WordEntry`** (`Model.dfy`). This is the trimming constructor, with its null checks as `Result` failures. Equality and hash are defined on the word only.
- **Table model** (`Table.dfy`). A class holds the page's rows and the hide flag. Its reads are bounds-checked and masked.
- **Tool window panel** (`ToolWindow.dfy`). A class holds the paging state: the loaded list, the current page, the page size and the page count. Its methods model the view update, the previous, next, spinner, start and hide listeners, loading the selected file and clearing the display. It also models the wordbook-list refresh, which collects `*.json` files, sorts them in place case-insensitively with `NameOrder.dfy`, and then applies the selection rule.
- **Settings** (`Settings.dfy`). A class sits over the IDE's key/value store, with defaults, clamping setters and the singleton accessor.

`JavaString.dfy` and `JavaInt.dfy` state the JDK behaviour the core relies on: `String.trim`, blankness, `Collectors.joining`, `String.hashCode`, 32-bit wrap-around, `Integer.toString` and `Integer.parseInt`. `Objects.hash(word)` itself is `Model.HashCode`. `Wrappers.dfy` holds `Option` (Java `null`) and `Result` (a thrown exception).

The rest of the system enters the model as inputs:

- **Gson.** Its output is a `ParsedDocument` value.
- **File system.** It is described by flags (the file exists and is readable, the path is a directory) and by a directory listing.
- **Shuffle randomness.** It is a sequence of draws `draws[k]` in `0..k`.

## Model

| member | source | states |
|---|---|---|
| Model.NewWordEntry | src/main/java/com/honsin/aiword/model/WordEntry.java:9-12 | a null word fails with "Word cannot be null" and is checked first, a null translation fails with "Translation cannot be null"; otherwise the stored word is exactly `trim()` of the word argument and the stored translation exactly `trim()` of the translation argument |
| Model.NewWordEntryOfTrimmed | src/main/java/com/honsin/aiword/model/WordEntry.java:9-12 | building an entry from already-trimmed strings, as the loader does, stores them unchanged |
| Model.NewWordEntryStoresTrimmed | src/main/java/com/honsin/aiword/model/WordEntry.java:9-12 | rebuilding an entry from its own fields gives the same entry (trimming is a fixed point) |
| Model.Equals | src/main/java/com/honsin/aiword/model/WordEntry.java:22-28 | identical entries are equal, and equal entries have equal hash codes |
| Model.HashCode | src/main/java/com/honsin/aiword/model/WordEntry.java:30-33 | `Objects.hash(word)` is 31 plus the word's hash modulo 2^32, and 31 for the empty word |
| Model.EqualsIsWordEquivalence | src/main/java/com/honsin/aiword/model/WordEntry.java:22-33 | equals is reflexive, symmetric and transitive, ignores the translation, holds exactly when the words are equal, and equal entries have equal hash codes |
| JavaString.Trim | src/main/java/com/honsin/aiword/model/WordEntry.java:10-11 | String.trim yields a string with no leading or trailing character at or below U+0020, no longer than its input |
| JavaString.TrimIsInfix | src/main/java/com/honsin/aiword/model/WordEntry.java:10-11 | the trimmed string is the input with only such characters cut from its two ends |
| JavaString.TrimIdempotent | src/main/java/com/honsin/aiword/model/WordEntry.java:10-11 | trimming twice is trimming once |
| JavaString.TrimTrimmed | src/main/java/com/honsin/aiword/service/WordbookService.java:93 | a string without edge whitespace is its own trim |
| JavaString.BlankIffAllTrimmable | src/main/java/com/honsin/aiword/service/WordbookService.java:88 | `trim().isEmpty()` holds exactly when every character is at or below U+0020 |
| JavaString.Join | src/main/java/com/honsin/aiword/service/WordbookService.java:138 | `Collectors.joining(sep)`: no parts give "", and the result starts with the first part |
| JavaString.JoinSnoc | src/main/java/com/honsin/aiword/service/WordbookService.java:138 | appending a part puts it after the previous join and one separator, or alone when there was nothing before, so the parts appear in order with a separator between each pair of neighbours |
| JavaString.JoinOfTrimmedParts | src/main/java/com/honsin/aiword/service/WordbookService.java:138 | joining non-empty trimmed parts with any separator is empty only for no parts, is trimmed, and starts and ends with the first and last part's characters |
| JavaInt.Wrap | src/main/java/com/honsin/aiword/model/WordEntry.java:30-33 | int arithmetic keeps the value modulo 2^32 and leaves in-range values alone |
| JavaInt.StringHash | src/main/java/com/honsin/aiword/model/WordEntry.java:30-33 | `String.hashCode` is 0 for the empty string and the character's code for a one-character string |
| JavaInt.Format | src/main/java/com/honsin/aiword/toolwindow/WordMemorizerToolWindowPanel.java:149 | `Integer.toString` is non-empty, starts with "-" exactly for a negative number, and is otherwise made of digits |
| JavaInt.ParseInt | src/main/java/com/honsin/aiword/settings/WordMemorizerSettingsState.java:52 | `Integer.parseInt` rejects a bare sign and text starting with anything but a sign or a digit; a "-" prefix gives a non-positive value, and any other accepted text a non-negative one |
| JavaInt.ParseFormat | src/main/java/com/honsin/aiword/settings/WordMemorizerSettingsState.java:52-57 | Integer.parseInt of Integer.toString(n) gives n back for every int, so a stored page number reads back as itself |
| Service.ValidItems | src/main/java/com/honsin/aiword/service/WordbookService.java:133 | the items passing the filter all have a non-null, non-blank translation, and there are no more of them than items |
| Service.ValidItemsAppend | src/main/java/com/honsin/aiword/service/WordbookService.java:133 | the filter decides item by item and keeps the original order |
| Service.ValidItemsEmptyIff | src/main/java/com/honsin/aiword/service/WordbookService.java:133 | nothing survives the filter exactly when no item is null-free with a non-blank translation |
| Service.RenderItem | src/main/java/com/honsin/aiword/service/WordbookService.java:134-137 | a rendered item is non-empty and trimmed; its exact text is stated by `Service.RenderItemText` |
| Service.RenderAll | src/main/java/com/honsin/aiword/service/WordbookService.java:134-137 | the map renders every surviving item, one string per item, in order |
| Service.CombineTranslations | src/main/java/com/honsin/aiword/service/WordbookService.java:126-140 | a null or empty list gives ""; a single valid item gives its own rendering, with no separator |
| Service.RenderItemText | src/main/java/com/honsin/aiword/service/WordbookService.java:133-137 | an item whose translation is non-null and non-blank is valid and renders as `trim(type) + ". " + trim(translation)` when its type is non-null and non-blank, and as `trim(translation)` otherwise |
| Service.CombineTranslationsEmptyIff | src/main/java/com/honsin/aiword/service/WordbookService.java:126-140 | combineTranslations gives "" exactly when the list is null or no item has a non-blank translation (an empty list included), and its result is always trimmed |
| Service.CombineTypedThenUntyped | src/main/java/com/honsin/aiword/service/WordbookService.java:132-138 | for any non-blank type and translations, a typed item followed by an untyped one gives `trim(type) + ". " + trim(first) + "; " + trim(second)` |
| Service.CombineTranslationsExample | src/main/java/com/honsin/aiword/service/WordbookService.java:132-138 | `[{type:"n", translation:"ability"}, {translation:"skill"}]` gives "n. ability; skill" |
| Service.NormalizeRecord | src/main/java/com/honsin/aiword/service/WordbookService.java:88-102 | a null record, a null or blank word, or an empty combined translation gives nothing; every other record is kept as the trimmed word with the combined translation; a kept entry always comes from such a record |
| Service.NormalizeRecords | src/main/java/com/honsin/aiword/service/WordbookService.java:86-116 | there are no more entries than records |
| Service.LoadedWords | src/main/java/com/honsin/aiword/service/WordbookService.java:70-116 | a read or syntax failure or a null array gives no words, otherwise no more words than records |
| Service.NormalizeRecordShape | src/main/java/com/honsin/aiword/service/WordbookService.java:88-102 | a record that is kept yields a trimmed non-empty word and a trimmed non-empty translation |
| Service.NormalizeRecordsShape | src/main/java/com/honsin/aiword/service/WordbookService.java:86-104 | the output is never longer than the parsed array, and every entry has a trimmed non-empty word and translation |
| Service.NormalizeRecordsInOrder | src/main/java/com/honsin/aiword/service/WordbookService.java:86-104 | the entries of two runs of records are the first run's entries followed by the second's, so record order is kept |
| Service.NormalizeRecordsKeepsValid | src/main/java/com/honsin/aiword/service/WordbookService.java:86-104 | a record with a non-blank word and a non-empty combined translation is never dropped: its entry is in the loaded list |
| Service.NormalizeRecordsMembers | src/main/java/com/honsin/aiword/service/WordbookService.java:86-104 | an entry is in the output exactly when some record is valid and yields it |
| Service.NormalizeRecordsNoneSkipped | src/main/java/com/honsin/aiword/service/WordbookService.java:86-104 | when every record is valid, entry i is the entry of record i |
| Service.LoadRecord | src/main/java/com/honsin/aiword/service/WordbookService.java:88-102 | the loop body for one record, with its two `continue`s, yields exactly the record's normalised entry |
| Service.LoadJsonFile | src/main/java/com/honsin/aiword/service/WordbookService.java:67-117 | the loop with its `continue`s builds exactly the normalised records; a read or syntax error, or a null or empty array, gives an empty list |
| Service.Shuffle | src/main/java/com/honsin/aiword/service/WordbookService.java:156 | the in-place swap shuffle is a permutation of the list |
| Service.WordbookService.constructor | src/main/java/com/honsin/aiword/service/WordbookService.java:23-48 | a new service holds an empty current list, from the field initialiser at line 23; the constructor at lines 46-48 does no load |
| Service.WordbookService.LoadWordsFromFile | src/main/java/com/honsin/aiword/service/WordbookService.java:50-60 | a missing or unreadable file fails and changes nothing; otherwise the loaded list becomes the current list and is returned |
| Service.WordbookService.GetRandomWords | src/main/java/com/honsin/aiword/service/WordbookService.java:150-160 | no words for count <= 0; otherwise min(count, size) words drawn from distinct positions of the input (a sub-multiset), all of them when count >= size |
| Table.WordTableModel.constructor | src/main/java/com/honsin/aiword/toolwindow/WordTableModel.java:20-21 | a new model has no rows and shows translations |
| Table.WordTableModel.SetWords | src/main/java/com/honsin/aiword/toolwindow/WordTableModel.java:23-26 | the rows become the given list, the hide flag is kept, and one data change is signalled |
| Table.WordTableModel.SetTranslationsHidden | src/main/java/com/honsin/aiword/toolwindow/WordTableModel.java:32-39 | afterwards isTranslationsHidden equals the argument; the rows are kept; a change is signalled only when the flag flips |
| Table.WordTableModel.IsTranslationsHidden | src/main/java/com/honsin/aiword/toolwindow/WordTableModel.java:41-43 | while it is true every row's translation cell shows the mask, otherwise the row's translation |
| Table.WordTableModel.GetWordEntryAt | src/main/java/com/honsin/aiword/toolwindow/WordTableModel.java:46-51 | the row's entry exactly when 0 <= row < size, else null |
| Table.WordTableModel.GetRowCount | src/main/java/com/honsin/aiword/toolwindow/WordTableModel.java:55-57 | the row count is the number of stored words |
| Table.WordTableModel.GetColumnCount | src/main/java/com/honsin/aiword/toolwindow/WordTableModel.java:59-62 | there are three columns |
| Table.WordTableModel.IsCellEditable | src/main/java/com/honsin/aiword/toolwindow/WordTableModel.java:83-86 | a cell is editable exactly in the pronounce column, 2 |
| Table.WordTableModel.GetValueAt | src/main/java/com/honsin/aiword/toolwindow/WordTableModel.java:89-105 | non-null exactly for a row in range and a column in 0..2: the word, the translation or "****" when hidden, and "▶ 发音" |
| Table.WordTableModel.CellsAgreeWithEntries | src/main/java/com/honsin/aiword/toolwindow/WordTableModel.java:89-105 | every listed row reads in every column, its cells agree with getWordEntryAt, and a hidden table shows no translation |
| Settings.KeysDistinct | src/main/java/com/honsin/aiword/settings/WordMemorizerSettingsState.java:10-13 | the four keys differ, so each setting has its own slot |
| Settings.AtLeastOne | src/main/java/com/honsin/aiword/settings/WordMemorizerSettingsState.java:57 | Math.max(1, n) is at least 1 and at least n, and is n or 1 |
| Settings.DefaultDirectory | src/main/java/com/honsin/aiword/settings/WordMemorizerSettingsConfigurable.java:179-181 | the default directory extends the user's home and is never blank |
| Settings.StoredWordbookName | src/main/java/com/honsin/aiword/settings/WordMemorizerSettingsState.java:78-83 | null or blank names are stored as "", any other name as given |
| Settings.SettingsState.constructor | src/main/java/com/honsin/aiword/settings/WordMemorizerSettingsState.java:23-26 | the state reads the store it is given |
| Settings.SettingsState.GetValueOr | src/main/java/com/honsin/aiword/settings/WordMemorizerSettingsState.java:41 | the stored value, or the default when the key is unset |
| Settings.SettingsState.GetInt | src/main/java/com/honsin/aiword/settings/WordMemorizerSettingsState.java:52 | the default when the key is unset or its text does not parse as an int, else the parsed stored value |
| Settings.SettingsState.SetInt | src/main/java/com/honsin/aiword/settings/WordMemorizerSettingsState.java:57 | a value equal to the default unsets the key, any other is stored as decimal text; either way getInt reads the value back |
| Settings.SettingsState.GetWordbookDirectory | src/main/java/com/honsin/aiword/settings/WordMemorizerSettingsState.java:37-42 | the stored directory, or the user's home plus "/.wordmemorizer_books" when unset |
| Settings.SettingsState.SetWordbookDirectory | src/main/java/com/honsin/aiword/settings/WordMemorizerSettingsState.java:44-46 | the directory reads back as given; the other three settings are unchanged |
| Settings.SettingsState.GetCurrentPage | src/main/java/com/honsin/aiword/settings/WordMemorizerSettingsState.java:49-53 | 1 when never set or when the stored text does not parse, else the stored page |
| Settings.SettingsState.SetCurrentPage | src/main/java/com/honsin/aiword/settings/WordMemorizerSettingsState.java:55-58 | getCurrentPage then reads max(1, p); only the page key changes; the other settings read as before |
| Settings.SettingsState.GetWordsPerPage | src/main/java/com/honsin/aiword/settings/WordMemorizerSettingsState.java:61-63 | 50 when never set or when the stored text does not parse, else the stored size |
| Settings.SettingsState.SetWordsPerPage | src/main/java/com/honsin/aiword/settings/WordMemorizerSettingsState.java:65-68 | getWordsPerPage then reads max(1, c); only its key changes; the other settings read as before |
| Settings.SettingsState.GetSelectedWordbookName | src/main/java/com/honsin/aiword/settings/WordMemorizerSettingsState.java:71-74 | null exactly when the name was never set; otherwise exactly the stored value |
| Settings.SettingsState.SetSelectedWordbookName | src/main/java/com/honsin/aiword/settings/WordMemorizerSettingsState.java:76-84 | the name then reads as "" for a null or blank name and as given otherwise; only its key changes |
| Settings.SettingsRegistry.constructor | src/main/java/com/honsin/aiword/settings/WordMemorizerSettingsState.java:20 | the static `instance` starts as null, so the first `getInstance` creates it |
| Settings.SettingsRegistry.GetInstance | src/main/java/com/honsin/aiword/settings/WordMemorizerSettingsState.java:28-33 | the first call creates the instance; every later call returns that same object |
| NameOrder.FoldChar | src/main/java/com/honsin/aiword/toolwindow/WordMemorizerToolWindowPanel.java:406 | upper-case ASCII letters fold to lower case; other characters are kept |
| NameOrder.CompareIgnoreCase | src/main/java/com/honsin/aiword/toolwindow/WordMemorizerToolWindowPanel.java:406 | equal names compare as 0, a 0 result needs equal lengths, and the empty name compares as minus the other's length |
| NameOrder.CompareAntisymmetric | src/main/java/com/honsin/aiword/toolwindow/WordMemorizerToolWindowPanel.java:406 | compare(a, b) == -compare(b, a), so the order is total |
| NameOrder.CompareTransitive | src/main/java/com/honsin/aiword/toolwindow/WordMemorizerToolWindowPanel.java:406 | "not after" is transitive |
| NameOrder.InsertBackward | src/main/java/com/honsin/aiword/toolwindow/WordMemorizerToolWindowPanel.java:406 | one insertion step of the sort: with the first i names in order, afterwards the first i + 1 are, and the names are the same |
| NameOrder.CompareZeroIffEqualsIgnoreCase | src/main/java/com/honsin/aiword/toolwindow/WordMemorizerToolWindowPanel.java:406 | the comparator reports equal exactly when equalsIgnoreCase holds |
| NameOrder.SortIgnoreCase | src/main/java/com/honsin/aiword/toolwindow/WordMemorizerToolWindowPanel.java:406 | the in-place sort leaves the names in case-insensitive order and is a permutation |
| ToolWindow.PageCount | src/main/java/com/honsin/aiword/toolwindow/WordMemorizerToolWindowPanel.java:88-92 | there are no pages exactly when the list is empty or the page size is not positive |
| ToolWindow.PageCountIsCeiling | src/main/java/com/honsin/aiword/toolwindow/WordMemorizerToolWindowPanel.java:88-92 | the page count t is the least with size <= t * wordsPerPage; it is 0 exactly for an empty list and never exceeds the size |
| ToolWindow.PageCountIsCeilDivision | src/main/java/com/honsin/aiword/toolwindow/WordMemorizerToolWindowPanel.java:91 | the page count equals the ceiling quotient (size + wordsPerPage - 1) / wordsPerPage that Math.ceil computes |
| ToolWindow.ShownRows | src/main/java/com/honsin/aiword/toolwindow/WordMemorizerToolWindowPanel.java:134-145 | a page never shows more than wordsPerPage rows |
| ToolWindow.StartIndexInRange | src/main/java/com/honsin/aiword/toolwindow/WordMemorizerToolWindowPanel.java:134-145 | for a page in 1..totalPages the invalid-start branch is unreachable; the page shows words (page-1)*w up to min(page*w, size), 1 to w of them, and exactly w on every page but the last |
| ToolWindow.PageOfIndex | src/main/java/com/honsin/aiword/toolwindow/WordMemorizerToolWindowPanel.java:134-142 | the page k / w + 1 is at least 1 and its start index (page-1)*w is at most k, below page*w |
| ToolWindow.OnlyPageOfIndex | src/main/java/com/honsin/aiword/toolwindow/WordMemorizerToolWindowPanel.java:134-142 | no page other than k / w + 1 has k in its index range |
| ToolWindow.WordOnItsPage | src/main/java/com/honsin/aiword/toolwindow/WordMemorizerToolWindowPanel.java:134-142 | the word at offset r of page p's range is on page p at offset r, and p lies within 1..totalPages |
| ToolWindow.EveryWordOnOnePage | src/main/java/com/honsin/aiword/toolwindow/WordMemorizerToolWindowPanel.java:134-142 | word k appears on page k / w + 1, which is within 1..totalPages, at offset k - (page-1)*w |
| ToolWindow.PagesUpToIsPrefix | src/main/java/com/honsin/aiword/toolwindow/WordMemorizerToolWindowPanel.java:134-142 | pages 1..p read in order are the first min(p*w, size) words |
| ToolWindow.PagesCoverAll | src/main/java/com/honsin/aiword/toolwindow/WordMemorizerToolWindowPanel.java:134-142 | all pages read in order give back the whole list |
| ToolWindow.PagingOf125By50 | src/main/java/com/honsin/aiword/toolwindow/WordMemorizerToolWindowPanel.java:87-154 | 125 words at 50 a page give 3 pages; page 2 shows words 50..100 and page 3 shows 25 |
| ToolWindow.PageControls | src/main/java/com/honsin/aiword/toolwindow/WordMemorizerToolWindowPanel.java:149-153 | label "current / total"; previous enabled iff current > 1; next enabled iff current < total |
| ToolWindow.JsonFileNamesMembers | src/main/java/com/honsin/aiword/toolwindow/WordMemorizerToolWindowPanel.java:392-397 | a name is listed exactly when some regular file in the directory has it and it matches `*.json` |
| ToolWindow.ListJsonFiles | src/main/java/com/honsin/aiword/toolwindow/WordMemorizerToolWindowPanel.java:391-397 | the loop collects exactly those names, in stream order |
| ToolWindow.RestoredSelection | src/main/java/com/honsin/aiword/toolwindow/WordMemorizerToolWindowPanel.java:412-427 | the previous selection is kept if still listed, else the first name is selected, and an empty list selects nothing; the selection is always a listed name |
| ToolWindow.RestoredSelectionIdempotent | src/main/java/com/honsin/aiword/toolwindow/WordMemorizerToolWindowPanel.java:412-421 | a second refresh over the same list keeps the first refresh's selection |
| ToolWindow.WordMemorizerToolWindowPanel.constructor | src/main/java/com/honsin/aiword/toolwindow/WordMemorizerToolWindowPanel.java:55-84 | the panel starts empty on page 1 of 0 at 20 words a page, with a fresh table, and the wordbook list refreshed; the paging invariant holds |
| ToolWindow.WordMemorizerToolWindowPanel.UpdatePaginationState | src/main/java/com/honsin/aiword/toolwindow/WordMemorizerToolWindowPanel.java:87-102 | totalPages = the page count (0 for a non-positive size); currentPage becomes min(currentPage, totalPages) when there are pages and 1 when there are none; nothing else changes |
| ToolWindow.WordMemorizerToolWindowPanel.UpdateViewForCurrentPage | src/main/java/com/honsin/aiword/toolwindow/WordMemorizerToolWindowPanel.java:119-154 | an empty list shows no rows, "0 / 0" and both buttons off; otherwise the page count is recomputed if 0, the page is clamped to max(1, min(page, totalPages)), the table gets that page's rows and the controls show the page; under the invariant page and count are unchanged |
| ToolWindow.WordMemorizerToolWindowPanel.SaveState | src/main/java/com/honsin/aiword/toolwindow/WordMemorizerToolWindowPanel.java:105-115 | the settings then read the current page, the page size and the selected item (or "" for none) |
| ToolWindow.WordMemorizerToolWindowPanel.ClearWordDisplay | src/main/java/com/honsin/aiword/toolwindow/WordMemorizerToolWindowPanel.java:345-354 | an empty list on page 1 of 0, an empty table with "0 / 0", the wordbook name forgotten, and that state saved |
| ToolWindow.WordMemorizerToolWindowPanel.OnPreviousPage | src/main/java/com/honsin/aiword/toolwindow/WordMemorizerToolWindowPanel.java:275-281 | from a page after the first: one page back, that page shown, and page, size and selected wordbook name saved; on page 1 nothing changes; the table's hide flag and the directory setting are kept either way |
| ToolWindow.WordMemorizerToolWindowPanel.OnNextPage | src/main/java/com/honsin/aiword/toolwindow/WordMemorizerToolWindowPanel.java:283-289 | from a page before the last: one page on, that page shown, and page, size and selected wordbook name saved; on the last page nothing changes; the table's hide flag and the directory setting are kept either way |
| ToolWindow.WordMemorizerToolWindowPanel.OnWordsPerPageChanged | src/main/java/com/honsin/aiword/toolwindow/WordMemorizerToolWindowPanel.java:198-216 | for a size in 1..500 that differs from the current one: page 1, recount, first page shown, and page, size and selected wordbook name saved; the same size changes nothing; the table's hide flag and the directory setting are kept either way |
| ToolWindow.WordMemorizerToolWindowPanel.OnStartClicked | src/main/java/com/honsin/aiword/toolwindow/WordMemorizerToolWindowPanel.java:223-229 | page 1 is shown and page, size and selected wordbook name are saved, then the table holds min(wordsPerPage, size) words drawn from the list; the table's hide flag and the directory setting are kept either way |
| ToolWindow.WordMemorizerToolWindowPanel.OnHideTranslationToggled | src/main/java/com/honsin/aiword/toolwindow/WordMemorizerToolWindowPanel.java:232-235 | the table's hide flag follows the check box; its rows are kept |
| ToolWindow.WordMemorizerToolWindowPanel.LoadWordsFromSelectedFile | src/main/java/com/honsin/aiword/toolwindow/WordMemorizerToolWindowPanel.java:304-341 | with no selection, a blank directory or an unreadable file the display is cleared and saved, and the directory setting is kept; otherwise the file's words replace the list, page 1 is shown and the settings are untouched; the hide flag and the invariant hold either way |
| ToolWindow.WordMemorizerToolWindowPanel.RefreshWordbookList | src/main/java/com/honsin/aiword/toolwindow/WordMemorizerToolWindowPanel.java:370-439 | a blank directory setting, a non-directory or a failed listing empties the box; otherwise the box holds the `*.json` regular files in case-insensitive order (the same names) with the selection rule applied |

## Behaviour to note

- **Page moves.** The panel moves only by previous, next and reset to page 1. The spinner keeps the page size in 1..500, and `updatePaginationState` gives 0 pages for a non-positive size.
- **Load errors.** A read error, a JSON syntax error or any other exception inside `loadJsonFile` is caught, and the result is an empty list. Only a missing or unreadable file makes `loadWordsFromFile` fail.
- **Stored page count.** `totalPages` is a stored field. The view update recomputes it only when it is 0. The constructor, every listener, `ClearWordDisplay` and `LoadWordsFromSelectedFile` ensure `Valid()`; the other panel methods keep it, `UpdatePaginationState` and `UpdateViewForCurrentPage` whenever it held before. `Valid()` ties `totalPages` to `PageCount` of the list size and page size, so the stored count never goes stale.

## Left out

- **Gson parsing.** It is replaced by its result, `ParsedDocument`: a read failure, a syntax failure, or a possibly-null array of possibly-null records with optional fields.
- **File-system calls.** `Files.exists`, `Files.isReadable`, `Files.isDirectory` and the directory stream are inputs. The glob `*.json` is modelled as a case-sensitive suffix match. An exception thrown while iterating the stream, as opposed to opening it, is not modelled.
- ToolWindow.WordMemorizerToolWindowPanel.LoadWordsFromSelectedFile: `Paths.get(dir).resolve(name)` is modelled as `dir + "/" + name`. `Paths.get` can throw `InvalidPathException` for a malformed directory or name, and nothing catches it. Lines 305 and 321 of `WordMemorizerToolWindowPanel.java` would then leave the list cleared while `totalPages`, the table and the controls stay stale. The model does not cover that exception.
- ToolWindow.WordMemorizerToolWindowPanel.UpdateViewForCurrentPage: it computes `startIndex + wordsPerPage` without 32-bit wrap-around. The model does not cover a list within 500 entries of 2^31, where Java's sum would overflow.
- **Floating-point division.** `Math.ceil` over doubles is modelled by integer ceiling division. `ToolWindow.PageCountIsCeilDivision` ties it to the quotient, which is exact for int sizes. The download progress fractions are floating point and are left out.
- Service.WordbookService.GetRandomWords: the random draws of the shuffle are a parameter. The method promises a sample from distinct positions; it does not promise a uniform distribution.
- NameOrder.SortIgnoreCase: it does not state that the sort is stable, which Java's `Collections.sort` is.
- ToolWindow.WordMemorizerToolWindowPanel.RefreshWordbookList: the box's names are fixed only up to case-insensitive order and the same multiset. `Collections.sort` at line 406 of `WordMemorizerToolWindowPanel.java` is stable, so names equal ignoring case, such as "A.json" and "a.json", keep the directory stream's order. The model leaves their order open, and with it which of them becomes the default selection as the first item. The `InvalidPathException` that `Paths.get` can throw at line 379 for a malformed directory setting is not modelled either; nothing catches it, so the box would keep its old model.
- NameOrder.FoldChar: it folds ASCII letters only. Java's `Character.toUpperCase` and `Character.toLowerCase` fold every script.
- JavaInt.ParseInt: it accepts ASCII digits only. `Integer.parseInt` also accepts other Unicode decimal digits.
- JavaInt.StringHash: it hashes Dafny characters. For characters outside the Basic Multilingual Plane these differ from Java's UTF-16 code units.
- **IDE persistence and concurrency.** `PropertiesComponent` persistence and `PropertiesComponent.getInstance()` are not modelled; the store is an in-memory map. `synchronized` is not modelled either; the model is single-threaded.
- **The constructor's auto-load.** `WordMemorizerToolWindowPanel`'s constructor auto-loads only when `selectedWordbookName` is non-null. That field is never set to anything but null, so the branch cannot run and only its notification alternative remains. Notifications are not modelled.
- **Swing and IDE wiring.** This covers the form's widgets and layout, `setupTable` column widths, `ButtonColumn`, the double-click hint and `escapeHtml`, notifications, logging and `println`. The form's initial label and button states are a constructor parameter.
- **Table model members.** `getWordsOnCurrentPage` hands out the table's internal list, and that aliasing is not modelled. `getColumnName` and `getColumnClass` are not modelled.
- **Network code.** Pronunciation (the TTS service and its HTTP and audio playback), the wordbook download action and task, and URL helpers are network or audio I/O.
- **Build and settings UI.** `build.gradle.kts`, the settings form and the configurable's UI methods are not modelled. Only its `getDefaultDirectory` is, as `Settings.DefaultDirectory`.
