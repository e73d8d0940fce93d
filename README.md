# File Organization Dashboard — a verified model of the organizer

The Flask app in `app.py` does three things:
- It sorts the regular files at the top of a folder into category sub-folders by extension.
- It logs one row per moved file in the sqlite table `organized_files`.
- It reports that table on a dashboard and two JSON endpoints.

This project models that core in Dafny and proves properties of it.

- `Text` holds the parts of Python's `str` the code relies on:
  - the string order `<`, which `ORDER BY` on text uses;
  - `lower()`;
  - `rfind`;
  - `split(' ')[0]`;
  - zero-padded decimals.
- `Paths` models POSIX `os.path.splitext` and `os.path.join`.
- `Classifier` holds the extension table and the first-match search of `organize_files`.
- `Timestamps` models the `%Y-%m-%d %H:%M:%S` stamp and proves what its string order says about time.
- `Organizer` covers the pass itself: directory-mode resolution, the folder (`Folder`, a class whose entries the moves change in place) and the log (`RecordStore`, a class). It has two parts:
  - The specification is `Step`, `Run` and `Organize`. They are functions of the folder, the listing order, the clock and a set of injected failures.
  - `OrganizeFiles` is the imperative loop, proved equal to that specification.
- `OrganizeProperties` proves what a pass promises:
  - no file is lost;
  - every file is moved once and gets one row;
  - sufficient conditions for success, and one cause of failure;
  - what an interrupted pass leaves behind;
  - idempotence;
  - the rows are in date order.
- `Aggregates` models the dashboard counts and total, `api_summary` and `api_chartdata`.

Three points of `app.py` that shape the model:
- An exception from `os.makedirs`, `shutil.move` or the INSERT ends the whole pass at `except Exception` (app.py:96-98). No later file is visited, and none of the pass's rows are committed. The moves already made stay made.
- The extension is what POSIX `os.path.splitext` returns. Leading dots do not start an extension (`.bashrc` has none), and only the last dot of the name counts.
- The returned dictionary is `{"moved": n, "mode": m}` or `{"error": msg}`. It has no per-category breakdown.

## Model

| member | source | states |
|---|---|---|
| Paths.SplitExt | File_Organization_Dashboard-main/File_Organization_Dashboard-main/app.py:70 | The two parts concatenate to the name. The extension is empty, or it starts with a dot and holds no further dot or slash. |
| Paths.ExtensionNonEmpty | File_Organization_Dashboard-main/File_Organization_Dashboard-main/app.py:70 | A plain name has an extension exactly when some non-dot character comes before a dot. The extension then runs from the last dot to the end. |
| Paths.ExtensionOfSuffix | File_Organization_Dashboard-main/File_Organization_Dashboard-main/app.py:70 | Take a stem that is not all dots and a dot-led suffix without further dots. Their concatenation has that suffix as its extension (`a.tar.gz` gives `.gz`). |
| Paths.ExtensionOfDotless | File_Organization_Dashboard-main/File_Organization_Dashboard-main/app.py:70 | A name without a dot has an empty extension. |
| Paths.ExtensionOfHidden | File_Organization_Dashboard-main/File_Organization_Dashboard-main/app.py:70 | A name whose only dots are leading ones (a hidden file) has an empty extension. |
| Paths.Join | File_Organization_Dashboard-main/File_Organization_Dashboard-main/app.py:77-79 | An absolute second part replaces the first. Otherwise the joined path begins with the first part and ends with the second, with at most one `/` put between them. |
| Paths.JoinUnder | File_Organization_Dashboard-main/File_Organization_Dashboard-main/app.py:77-79 | `join(join(a, b), c)` with `b` and `c` relative begins with `a`, has a `/` after it, and ends with `c`. |
| Paths.Extension | File_Organization_Dashboard-main/File_Organization_Dashboard-main/app.py:70 | The extension of `splitext`. Its contract is stated by `Paths.ExtensionIsSuffix` and the lemmas above. |
| Paths.ExtensionIsSuffix | File_Organization_Dashboard-main/File_Organization_Dashboard-main/app.py:70 | The extension is a suffix of the name. It is empty, or a dot followed by no other dot. |
| Text.BeforeSpace | File_Organization_Dashboard-main/File_Organization_Dashboard-main/app.py:189 | The result is a prefix of the string and holds no space. The string ends there or a space follows. |
| Text.LexLess | File_Organization_Dashboard-main/File_Organization_Dashboard-main/app.py:165 | Python's order on strings, which `ORDER BY` on a text column follows. Its properties are stated by `Text.LexLessConcat`, `Text.LexLessIrreflexive` and `Timestamps.FormatOrder`. |
| Text.LexLessConcat | File_Organization_Dashboard-main/File_Organization_Dashboard-main/app.py:165 | Comparing two concatenations compares the first parts, and on a tie the second parts (the first parts of equal length). |
| Text.LexLessIrreflexive | File_Organization_Dashboard-main/File_Organization_Dashboard-main/app.py:165 | No string is smaller than itself. |
| Text.Lower | File_Organization_Dashboard-main/File_Organization_Dashboard-main/app.py:70 | ASCII `str.lower()`. Its contract is stated by `Text.LowerSpec`. |
| Text.LowerSpec | File_Organization_Dashboard-main/File_Organization_Dashboard-main/app.py:70 | Lowering keeps the length and makes each of `A`..`Z` the letter 32 code points on in `a`..`z`. Every other character stays where it was, and lowering is idempotent. |
| Text.LowerMatches | File_Organization_Dashboard-main/File_Organization_Dashboard-main/app.py:70 | For a `t` with no upper-case letter, lowering `s` gives `t` if and only if `s` has `t`'s length and each character is `t`'s or its upper-case form. |
| Text.LowerIgnoresCase | File_Organization_Dashboard-main/File_Organization_Dashboard-main/app.py:70 | Strings that differ only in the case of their letters lower to the same string. |
| Text.RFind | File_Organization_Dashboard-main/File_Organization_Dashboard-main/app.py:70 | `rfind` gives -1 or an index holding the character, with no later occurrence. |
| Text.Digits | File_Organization_Dashboard-main/File_Organization_Dashboard-main/app.py:84 | `%Y`, `%m` and the other fields give numerals of exactly the field width. |
| Text.DigitsOrder | File_Organization_Dashboard-main/File_Organization_Dashboard-main/app.py:84 | For numbers that fit the width, zero-padded numerals compare, and are equal, exactly as the numbers do. |
| Classifier.FirstMatch | File_Organization_Dashboard-main/File_Organization_Dashboard-main/app.py:71-75 | The result is the category of the first rule whose list holds the extension. It is `Others` when no list holds it. |
| Classifier.LookupExtension | File_Organization_Dashboard-main/File_Organization_Dashboard-main/app.py:70 | `splitext(name)[1].lower()`. What it finds is stated by `Classifier.ClassifySample` and `Classifier.ClassifyNoExtension`. |
| Classifier.CategoryOf | File_Organization_Dashboard-main/File_Organization_Dashboard-main/app.py:70-75 | The first-match search on the looked-up extension. Its contract is stated by `Classifier.FirstMatchIsUnique`. |
| Classifier.Classify | File_Organization_Dashboard-main/File_Organization_Dashboard-main/app.py:70-75 | The category under the app's own table. Its contract is stated by `Classifier.ClassifySpec`. |
| Classifier.Table | File_Organization_Dashboard-main/File_Organization_Dashboard-main/app.py:50-56 | The `categories` dictionary in insertion order. Its properties are stated by `Classifier.TableWellFormed` and `Classifier.CategoriesDistinct`. |
| Classifier.TableWellFormed | File_Organization_Dashboard-main/File_Organization_Dashboard-main/app.py:50-56 | The five extension lists are pairwise disjoint. The five category names are distinct and none is `Others`. |
| Classifier.CategoriesDistinct | File_Organization_Dashboard-main/File_Organization_Dashboard-main/app.py:50-56 | The table lists the first five of the six category names in order, and the six names are pairwise distinct. |
| Classifier.FirstMatchIsUnique | File_Organization_Dashboard-main/File_Organization_Dashboard-main/app.py:71-75 | In a well-formed table, a rule is chosen if and only if its list holds the extension. `Others` is chosen if and only if no list holds it. |
| Classifier.FirstMatchOrderFree | File_Organization_Dashboard-main/File_Organization_Dashboard-main/app.py:72-75 | Any two well-formed tables holding the same rules classify every extension alike, so the dictionary's iteration order does not matter. |
| Classifier.ClassifySpec | File_Organization_Dashboard-main/File_Organization_Dashboard-main/app.py:70-75 | Classification is total and lands in the six names. A name goes to a table category if and only if its lowered extension is in that list. It goes to `Others` if and only if the extension is in no list. |
| Classifier.ClassifyIgnoresCase | File_Organization_Dashboard-main/File_Organization_Dashboard-main/app.py:70-75 | Two names whose extensions differ only in letter case get the same category. |
| Classifier.ClassifyRelative | File_Organization_Dashboard-main/File_Organization_Dashboard-main/app.py:50-56 | Every category is a non-empty folder name that does not start with `/`. |
| Classifier.ClassifyPhotoExample | File_Organization_Dashboard-main/File_Organization_Dashboard-main/app.py:70-75 | `photo.JPG` is an image. `Classifier.ClassifyIgnoresCase` states the general case. |
| Classifier.ClassifyUnknownExample | File_Organization_Dashboard-main/File_Organization_Dashboard-main/app.py:70-75 | `unknown.xyz` goes to `Others`. |
| Classifier.ClassifyNoExtension | File_Organization_Dashboard-main/File_Organization_Dashboard-main/app.py:70-71 | A name without an extension goes to `Others`. |
| Timestamps.FormatOrder | File_Organization_Dashboard-main/File_Organization_Dashboard-main/app.py:84 | One stored stamp is smaller than another exactly when its reading falls in an earlier second. Two stamps are equal exactly when their readings fall in the same second. |
| Timestamps.Format | File_Organization_Dashboard-main/File_Organization_Dashboard-main/app.py:84 | `strftime("%Y-%m-%d %H:%M:%S")` is always 19 characters long. Its order is stated by `Timestamps.FormatOrder`. |
| Timestamps.FormatDate | File_Organization_Dashboard-main/File_Organization_Dashboard-main/app.py:189 | The `YYYY-MM-DD` label is always 10 characters long. |
| Timestamps.FormatMonotone | File_Organization_Dashboard-main/File_Organization_Dashboard-main/app.py:84 | A later reading never gets a smaller stamp. |
| Timestamps.LabelIsDate | File_Organization_Dashboard-main/File_Organization_Dashboard-main/app.py:189 | The text before the first space of a stamp is its `YYYY-MM-DD` date. |
| Timestamps.FormatDateOrder | File_Organization_Dashboard-main/File_Organization_Dashboard-main/app.py:186-189 | Date labels are ordered exactly as the calendar days they name. |
| Timestamps.LabelSameDay | File_Organization_Dashboard-main/File_Organization_Dashboard-main/app.py:189 | Two readings get the same label if and only if they fall on the same day. |
| Organizer.ResolveMode | File_Organization_Dashboard-main/File_Organization_Dashboard-main/app.py:43-48 | Local mode applies if and only if the app is not on Render, a non-empty target is given and the target exists. Local mode organizes the target; otherwise the upload folder is organized. |
| Organizer.RecordStore.constructor | File_Organization_Dashboard-main/File_Organization_Dashboard-main/app.py:18-29 | A fresh table is empty and its ids are consecutive from 1. |
| Organizer.RecordStore.Commit | File_Organization_Dashboard-main/File_Organization_Dashboard-main/app.py:86 | The pending rows are appended in order and the ids stay consecutive. |
| Organizer.MakeDirs | File_Organization_Dashboard-main/File_Organization_Dashboard-main/app.py:77-78 | With `exist_ok`, the category becomes a directory. A newly created folder is empty, an existing one is kept, and nothing else changes. |
| Organizer.MakesDirs | File_Organization_Dashboard-main/File_Organization_Dashboard-main/app.py:77-78 | `os.makedirs(exist_ok=True)` returns normally if and only if the name is already a directory, or is free and creating it does not fail. `StepBlocked`, `StepMakeDirsFails` and `Organizer.MakeCategoryFolder` state what happens otherwise. |
| Organizer.MoveInto | File_Organization_Dashboard-main/File_Organization_Dashboard-main/app.py:79-80 | The file has left the top level and sits in the category folder with its contents. The folder gains exactly that file name and keeps its other files. All other entries are unchanged. |
| Organizer.StepSkips | File_Organization_Dashboard-main/File_Organization_Dashboard-main/app.py:65-68 | A name that is not a regular file changes nothing, and neither does any name once the loop has raised. |
| Organizer.IsFileAt | File_Organization_Dashboard-main/File_Organization_Dashboard-main/app.py:66-67 | `os.path.isfile(join(base, name))`: the name is at the top of the folder and is a regular file. Directories and missing names are skipped, by `StepSkips`. |
| Organizer.StepBlocked | File_Organization_Dashboard-main/File_Organization_Dashboard-main/app.py:77-78 | When the category name is taken by a non-directory, `os.makedirs` raises and nothing changes. |
| Organizer.StepMakeDirsFails | File_Organization_Dashboard-main/File_Organization_Dashboard-main/app.py:77-78 | When creating a missing category folder raises, the iteration raises and nothing changes. |
| Organizer.StepMoveFails | File_Organization_Dashboard-main/File_Organization_Dashboard-main/app.py:78-80 | A move that raises leaves the category folder made and the file where it was. No row is inserted and the count is not raised. |
| Organizer.StepInsertFails | File_Organization_Dashboard-main/File_Organization_Dashboard-main/app.py:80-84 | An INSERT that raises comes after the move: the file is in its folder and `moved_count` is raised, but no row is inserted. |
| Organizer.StepMoves | File_Organization_Dashboard-main/File_Organization_Dashboard-main/app.py:77-84 | A successful iteration makes the folder, moves the file, inserts its row and adds one to `moved_count`. |
| Organizer.Step | File_Organization_Dashboard-main/File_Organization_Dashboard-main/app.py:65-84 | One iteration of the loop. Its outcome in each case is stated by `StepSkips`, `StepBlocked`, `StepMakeDirsFails`, `StepMoveFails`, `StepInsertFails`, `StepMoves` and `StepAppends`. |
| Organizer.StepAppends | File_Organization_Dashboard-main/File_Organization_Dashboard-main/app.py:65-84 | An iteration only appends rows: at most one, none when it raises. It adds at most one to the count. |
| Organizer.Run | File_Organization_Dashboard-main/File_Organization_Dashboard-main/app.py:65-84 | The loop over the listing. Its contracts are `RunAppends`, `RunAfterFailure` and the lemmas of `OrganizeProperties`. |
| Organizer.RunAppends | File_Organization_Dashboard-main/File_Organization_Dashboard-main/app.py:65-84 | The loop only appends rows, at most one per listed name, and counts at most one move per name. |
| Organizer.RowFor | File_Organization_Dashboard-main/File_Organization_Dashboard-main/app.py:83-84 | The row of the k-th insert. Its fields are stated by `OrganizeProperties.PassMovesEveryFile` and `OrganizeProperties.RowPathUnderBase`. |
| Organizer.Organize | File_Organization_Dashboard-main/File_Organization_Dashboard-main/app.py:58-87 | Connect, list, loop, commit. Its contracts are `PassBounded` and the lemmas of `OrganizeProperties`. |
| Organizer.PassBounded | File_Organization_Dashboard-main/File_Organization_Dashboard-main/app.py:58-95 | A pass inserts at most one row and counts at most one move per listed name. It succeeds only if the database opens and commits and the folder lists. If the database or the listing fails, it touches nothing. |
| Organizer.Durable | File_Organization_Dashboard-main/File_Organization_Dashboard-main/app.py:86-87 | The rows a pass leaves in the table: its inserts when it reached the commit, none otherwise. `OrganizeFiles` is proved to leave exactly these. |
| Organizer.ResultOf | File_Organization_Dashboard-main/File_Organization_Dashboard-main/app.py:90-98 | The returned dictionary. `OrganizeFiles` is proved to return it. |
| Organizer.NextId | File_Organization_Dashboard-main/File_Organization_Dashboard-main/app.py:83-84 | AUTOINCREMENT ids stay consecutive as rows are inserted. |
| Organizer.RunAfterFailure | File_Organization_Dashboard-main/File_Organization_Dashboard-main/app.py:96-98 | After an exception the rest of the listing is not visited. |
| Organizer.FirstFailure | File_Organization_Dashboard-main/File_Organization_Dashboard-main/app.py:65-98 | A loop that raised did so at one name: no exception before it, one right after it. |
| Organizer.Folder.constructor | File_Organization_Dashboard-main/File_Organization_Dashboard-main/app.py:62-65 | The folder keeps its path, whether it lists, and its top-level entries. |
| Organizer.MakeCategoryFolder | File_Organization_Dashboard-main/File_Organization_Dashboard-main/app.py:77-78 | In place: `os.makedirs` succeeds exactly when the name is a directory or free and creatable. It then leaves `MakeDirs` of the folder. When it raises, the folder is unchanged and the error names the category path. |
| Organizer.MoveFile | File_Organization_Dashboard-main/File_Organization_Dashboard-main/app.py:79-80 | In place: the folder becomes `MoveInto` of what it was. |
| Organizer.MoveEntry | File_Organization_Dashboard-main/File_Organization_Dashboard-main/app.py:65-84 | One iteration, in place on the folder, gives exactly the new state `Step` specifies, including its four exception paths. The pending ids stay consecutive. |
| Organizer.OrganizeFiles | File_Organization_Dashboard-main/File_Organization_Dashboard-main/app.py:41-98 | The folder ends as `Organize` says. The log gains exactly the pass's rows when it reaches the commit, and nothing otherwise. The result is `{"moved", "mode"}` or the error. |
| OrganizeProperties.FilesOf | File_Organization_Dashboard-main/File_Organization_Dashboard-main/app.py:65-68 | The selected names are exactly the listed names that are regular files. |
| OrganizeProperties.IsListing | File_Organization_Dashboard-main/File_Organization_Dashboard-main/app.py:62-65 | What `os.listdir` returns: every top-level name exactly once, in any order. `PassMovesEveryFile`, `PassLosesNoFile`, `SecondPassChangesNothing` and the failure lemmas assume it of the listing. |
| OrganizeProperties.FilesOfDistinct | File_Organization_Dashboard-main/File_Organization_Dashboard-main/app.py:65-68 | A listing without repeats selects each file once. |
| OrganizeProperties.RowsSnoc | File_Organization_Dashboard-main/File_Organization_Dashboard-main/app.py:83-84 | Moving one more file appends exactly its row. |
| OrganizeProperties.RowsAt | File_Organization_Dashboard-main/File_Organization_Dashboard-main/app.py:83-84 | The k-th row of a pass is the row the k-th insert writes for the k-th moved file. |
| OrganizeProperties.RowPathUnderBase | File_Organization_Dashboard-main/File_Organization_Dashboard-main/app.py:77-84 | Under the app's table, the `new_path` of a row begins with the organized folder, has a `/` after it, and ends with the file name. |
| OrganizeProperties.PreservedByMakeDirs | File_Organization_Dashboard-main/File_Organization_Dashboard-main/app.py:78 | Creating a category folder keeps every file, directory and other entry. |
| OrganizeProperties.PreservedByMoveInto | File_Organization_Dashboard-main/File_Organization_Dashboard-main/app.py:80 | Moving a file into its category folder loses no file. |
| OrganizeProperties.NoLossByMoveInto | File_Organization_Dashboard-main/File_Organization_Dashboard-main/app.py:80 | After the move, every original file is either untouched at the top or in its category folder. |
| OrganizeProperties.StepPreserves | File_Organization_Dashboard-main/File_Organization_Dashboard-main/app.py:65-84 | Whether an iteration skips, raises or moves, it keeps the no-loss invariant. |
| OrganizeProperties.RunPreserves | File_Organization_Dashboard-main/File_Organization_Dashboard-main/app.py:65-84 | The whole loop keeps the no-loss invariant. |
| OrganizeProperties.PassLosesNoFile | File_Organization_Dashboard-main/File_Organization_Dashboard-main/app.py:41-98 | For any listing and any failures, every original file is either untouched at the top or in its category folder with its contents. Every file at the top is an original one, unchanged. Directories stay directories, other entries are untouched, and every new name is a directory. |
| OrganizeProperties.PassKeepsFolders | File_Organization_Dashboard-main/File_Organization_Dashboard-main/app.py:41-98 | For any listing and any failures, a directory that no file belongs under is unchanged. A directory keeps every file it held, unless a file of the same name belonged under it. Every file in a directory is one it held or one moved in, with its contents. |
| OrganizeProperties.FoldersKeptByMakeDirs | File_Organization_Dashboard-main/File_Organization_Dashboard-main/app.py:78 | Creating a category folder keeps `FoldersKept`. |
| OrganizeProperties.FoldersKeptByMoveInto | File_Organization_Dashboard-main/File_Organization_Dashboard-main/app.py:80 | Moving a file into its category folder keeps `FoldersKept`. |
| OrganizeProperties.FilesStayByMoveInto | File_Organization_Dashboard-main/File_Organization_Dashboard-main/app.py:80 | A move keeps every file a folder held, except the one it replaces. |
| OrganizeProperties.FilesFromByMoveInto | File_Organization_Dashboard-main/File_Organization_Dashboard-main/app.py:80 | After a move, every file in every folder is one the folder held or one moved in, with its contents. |
| OrganizeProperties.StepKeepsFolders | File_Organization_Dashboard-main/File_Organization_Dashboard-main/app.py:65-84 | Whether an iteration skips, raises or moves, it keeps `FoldersKept`. |
| OrganizeProperties.RunKeepsFolders | File_Organization_Dashboard-main/File_Organization_Dashboard-main/app.py:65-84 | The whole loop keeps `FoldersKept`. |
| OrganizeProperties.MovedStayMoved | File_Organization_Dashboard-main/File_Organization_Dashboard-main/app.py:77-80 | A later move keeps the files already moved in their folders. |
| OrganizeProperties.MoveTakesFile | File_Organization_Dashboard-main/File_Organization_Dashboard-main/app.py:80 | A move takes exactly the moved file off the top level. |
| OrganizeProperties.RowsAdvance | File_Organization_Dashboard-main/File_Organization_Dashboard-main/app.py:81-84 | The next moved file adds one to the count and appends its row. |
| OrganizeProperties.StepProgressMove | File_Organization_Dashboard-main/File_Organization_Dashboard-main/app.py:77-84 | A successful move extends the loop's progress invariant: rows, count, moved files, files left and no loss. |
| OrganizeProperties.MoveProgress | File_Organization_Dashboard-main/File_Organization_Dashboard-main/app.py:77-84 | A file moved into its folder, with its row appended, extends the progress invariant. |
| OrganizeProperties.MoveFolderProgress | File_Organization_Dashboard-main/File_Organization_Dashboard-main/app.py:77-80 | The same move extends the folder half of the invariant: moved files in place, exactly the unvisited files at the top, no loss. |
| OrganizeProperties.MoveKeepsFolders | File_Organization_Dashboard-main/File_Organization_Dashboard-main/app.py:77-80 | After the move, every file visited so far, the moved one included, sits in its category folder with its contents. |
| OrganizeProperties.StepProgressSkip | File_Organization_Dashboard-main/File_Organization_Dashboard-main/app.py:67-68 | Skipping a name that is not a file extends the progress invariant. |
| OrganizeProperties.RunProgress | File_Organization_Dashboard-main/File_Organization_Dashboard-main/app.py:65-84 | As long as no exception is raised, the progress invariant holds for every prefix of the listing. |
| OrganizeProperties.PassMovesEveryFile | File_Organization_Dashboard-main/File_Organization_Dashboard-main/app.py:58-95 | A pass that succeeds moves every regular file exactly once into its category folder and leaves none at the top. `moved` equals the number of files and of rows. The rows are in listing order with consecutive ids, the file's name, its category and its new path. |
| OrganizeProperties.RunCompletes | File_Organization_Dashboard-main/File_Organization_Dashboard-main/app.py:65-84 | The loop finishes without an exception when no move or INSERT raises, no file's category name is taken by a non-directory, and every missing category folder can be created. |
| OrganizeProperties.PassSucceedsWhen | File_Organization_Dashboard-main/File_Organization_Dashboard-main/app.py:41-95 | A pass succeeds when the database opens and commits, the folder lists, no move or INSERT raises, and every category name is a directory or free and creatable. |
| OrganizeProperties.StepFailureKeepsMoves | File_Organization_Dashboard-main/File_Organization_Dashboard-main/app.py:77-98 | The iteration that raises keeps the earlier files in their folders and the later ones at the top. It has moved its own file only if the INSERT raised. |
| OrganizeProperties.LoopFailureKeepsMoves | File_Organization_Dashboard-main/File_Organization_Dashboard-main/app.py:65-98 | When the loop raises at `listing[k]`, the files before it are in their category folders and the files after it are still at the top, unchanged. `listing[k]` itself has moved only if its INSERT raised. |
| OrganizeProperties.FailedPassKeepsMoves | File_Organization_Dashboard-main/File_Organization_Dashboard-main/app.py:41-98 | A pass that raised keeps no row, and where it raised decides the folder. If the connect or the listing fails, the folder is untouched. If the loop raises, `k` is the first name that raised; the files before it are in their folders, the files after it are at the top, and `listing[k]` has moved only if its INSERT raised. If the commit raises, every file is in its folder and none is at the top. |
| OrganizeProperties.CommitFailureKeepsAllMoves | File_Organization_Dashboard-main/File_Organization_Dashboard-main/app.py:86-98 | If the commit raises after a clean loop, the pass reports `CommitFailed` and keeps no row. Every regular file has already been moved into its category folder, and none is left at the top. |
| OrganizeProperties.SelfNamedFileFailsPass | File_Organization_Dashboard-main/File_Organization_Dashboard-main/app.py:77-78 | A pass fails whenever a regular file's name is its own category. |
| OrganizeProperties.SelfNamedFileFailsLoop | File_Organization_Dashboard-main/File_Organization_Dashboard-main/app.py:65-84 | The loop over a listing that holds such a file ends with an exception. |
| OrganizeProperties.SelfNamedFileBlocks | File_Organization_Dashboard-main/File_Organization_Dashboard-main/app.py:78 | The loop has raised by the time it reaches such a file. |
| OrganizeProperties.FileNamedOthersFailsPass | File_Organization_Dashboard-main/File_Organization_Dashboard-main/app.py:71-78 | With the app's table, a regular file named `Others` makes every pass fail. |
| OrganizeProperties.RunWithoutFiles | File_Organization_Dashboard-main/File_Organization_Dashboard-main/app.py:65-68 | With no regular file at the top, the loop changes nothing. |
| OrganizeProperties.SecondPassChangesNothing | File_Organization_Dashboard-main/File_Organization_Dashboard-main/app.py:41-95 | Idempotence: after a successful pass, a second pass in any order moves nothing, inserts nothing and leaves the folder unchanged. |
| OrganizeProperties.RowsInDateOrder | File_Organization_Dashboard-main/File_Organization_Dashboard-main/app.py:83-84 | With a clock that never runs backwards, no later row of a pass has a smaller `date` than an earlier one. |
| Aggregates.DictOf | File_Organization_Dashboard-main/File_Organization_Dashboard-main/app.py:112 | The dictionary's keys are exactly the rows' keys. |
| Aggregates.DictOfDistinct | File_Organization_Dashboard-main/File_Organization_Dashboard-main/app.py:112 | With distinct keys, every row's count appears under its key. |
| Aggregates.MapSum | File_Organization_Dashboard-main/File_Organization_Dashboard-main/app.py:115 | `sum(d.values())`. Its contracts are `MapSumRemove` and `MapSumOfDict`. |
| Aggregates.MapSumRemove | File_Organization_Dashboard-main/File_Organization_Dashboard-main/app.py:115 | `sum(d.values())` does not depend on the order the values are taken in. |
| Aggregates.MapSumOfDict | File_Organization_Dashboard-main/File_Organization_Dashboard-main/app.py:115 | Summing the dictionary's values sums the rows' counts. |
| Aggregates.SumOfCounts | File_Organization_Dashboard-main/File_Organization_Dashboard-main/app.py:111 | Counts that cover every value of a multiset exactly once add up to its size. |
| Aggregates.GroupingSum | File_Organization_Dashboard-main/File_Organization_Dashboard-main/app.py:111 | The `COUNT(*)` values of a `GROUP BY` add up to the number of rows. |
| Aggregates.GroupingDict | File_Organization_Dashboard-main/File_Organization_Dashboard-main/app.py:111-112 | The dictionary of a grouping holds exactly the grouped values, each with its number of occurrences. |
| Aggregates.DashboardTotal | File_Organization_Dashboard-main/File_Organization_Dashboard-main/app.py:111-115 | `total_files` is the number of rows in the log. `counts` has exactly the logged categories, each with its number of rows. |
| Aggregates.SetDefaults | File_Organization_Dashboard-main/File_Organization_Dashboard-main/app.py:178-179 | The `setdefault` loop yields the dictionary with every default key added as 0 where it was missing. |
| Aggregates.WithDefaults | File_Organization_Dashboard-main/File_Organization_Dashboard-main/app.py:178-179 | The dictionary with every default key added as 0 where missing. Its contract is stated by `Aggregates.SummarySpec`. |
| Aggregates.SummaryOf | File_Organization_Dashboard-main/File_Organization_Dashboard-main/app.py:177-179 | The `api_summary` dictionary. Its contract is stated by `Aggregates.SummarySpec`. |
| Aggregates.FillSummary | File_Organization_Dashboard-main/File_Organization_Dashboard-main/app.py:177-179 | `api_summary` returns `SummaryOf` of the grouped rows. |
| Aggregates.SummarySpec | File_Organization_Dashboard-main/File_Organization_Dashboard-main/app.py:177-179 | Row counts are never overwritten and every default key is present. A default key no row has maps to 0, and no other key appears. |
| Aggregates.SummaryMissesStoredCategories | File_Organization_Dashboard-main/File_Organization_Dashboard-main/app.py:177-179 | As written, a log holding n images answers `"Images": n` and `"images": 0`. |
| Aggregates.FillFixedSummary | File_Organization_Dashboard-main/File_Organization_Dashboard-main/app.py:177-179 | The corrected loop returns `FixedSummaryOf` of the grouped rows. |
| Aggregates.LowerCategories | File_Organization_Dashboard-main/File_Organization_Dashboard-main/app.py:178 | The six category names lower to the six default keys, in order. |
| Aggregates.SummaryKeysDistinct | File_Organization_Dashboard-main/File_Organization_Dashboard-main/app.py:178 | The six default keys are pairwise distinct. |
| Aggregates.LoweredDistinct | File_Organization_Dashboard-main/File_Organization_Dashboard-main/app.py:177 | Lowering keeps the category keys of a grouping distinct. |
| Aggregates.LoweredKeys | File_Organization_Dashboard-main/File_Organization_Dashboard-main/app.py:177-178 | Every lowered category key is a default key. |
| Aggregates.LoweredPresent | File_Organization_Dashboard-main/File_Organization_Dashboard-main/app.py:177-178 | A default key present after lowering holds its category's row count. |
| Aggregates.LoweredCovers | File_Organization_Dashboard-main/File_Organization_Dashboard-main/app.py:177-178 | Every logged category appears, lowered, in the dictionary. |
| Aggregates.FixedSummaryCounts | File_Organization_Dashboard-main/File_Organization_Dashboard-main/app.py:177-179 | On a log the organizer wrote, the corrected summary has exactly the six default keys, each holding its category's number of rows. |
| Aggregates.ChartOf | File_Organization_Dashboard-main/File_Organization_Dashboard-main/app.py:189-190 | The labels and counts of `api_chartdata`. Its contract is `Aggregates.ChartShape`. |
| Aggregates.ChartShape | File_Organization_Dashboard-main/File_Organization_Dashboard-main/app.py:186-191 | There is one label and one count per grouped row, and each label is that row's stamp date. Each count is that stamp's occurrences, and the counts add up to the number of logged rows. |
| Aggregates.ChartLabelsInOrder | File_Organization_Dashboard-main/File_Organization_Dashboard-main/app.py:186-189 | Under `ORDER BY date ASC`, no later label names an earlier day. |
| Aggregates.ChartLabelsRepeat | File_Organization_Dashboard-main/File_Organization_Dashboard-main/app.py:186-189 | Two rows logged on the same day in different seconds are two chart entries with the same label. |
| Aggregates.NewestFirst | File_Organization_Dashboard-main/File_Organization_Dashboard-main/app.py:165 | In rows sorted by `date DESC`, no row was logged in a later second than one listed before it. |

## Left out

- Flask is not modelled: routing, templates, `flash`, `redirect`, `jsonify`, `secret_key` and the `/` redirect are transport only.
- `organize_route` (app.py:124-144) is not modelled; it is outside the organizer core. It unpacks the returned dictionary into `result, summary` (app.py:136):
  - After a successful pass this binds the two key strings. A JSON request then gets `jsonify("moved")`. On a form request, the `result.get` of app.py:143 raises.
  - After an error the dictionary has one key, so the unpacking itself raises `ValueError`.
- `upload_file` (app.py:148-159): `file.save` is an I/O write before an ordinary pass over the upload folder. It is not modelled beyond that pass.
- sqlite is modelled as the committed rows (`RecordStore`), with inserts pending until the single commit. The SQL engine's `GROUP BY`, `ORDER BY` and `LIMIT 10` are taken as given (`IsGrouping`, and the order hypotheses of the chart and records lemmas). `init_db` is modelled only as an empty table, and the call order that makes it exist is not modelled.
- `git_auto_push` (app.py:31-39) is best-effort, swallows its exceptions and changes nothing the model sees, so it is a no-op.
- `print`, `os.environ` (`RENDER` is the `onRender` input), `os.getcwd` (the upload folder is an input) and `os.makedirs(UPLOAD_FOLDER)` at import time are not modelled.
- `os.path.exists` on the target is an input.
- The order of `os.listdir` is arbitrary, so every property is stated for any listing.
- `datetime.now()` is an input clock, one reading per insert.
- Concurrency: two passes at once, or a folder changed under a running pass, are not modelled.
- Symbolic links, and a directory with the same name inside a category folder, are not modelled. A category folder holds plain files, and `Other` stands for any other top-level entry.
- Failures that come from outside are injected by `Faults`, never derived: `sqlite3.connect`, creating a free category folder, a move, an INSERT, and the commit. `cursor()`, `close()` and a second `os.listdir` raising on its own are not modelled.
- `os.listdir` is called twice (app.py:62 and 65). The model takes one listing for both.
- Text.Lower: does not model Unicode case mapping; only ASCII letters are lowered, unlike Python's `str.lower`.
- Timestamps.Format: does not model strftime on years below 1000, which Python does not zero-pad on every platform. Readings keep Python's year range 1 to 9999.
- Organizer.MoveInto: a file of the same name already in the category folder is overwritten, as `shutil.move` does. The model states this and does not prevent it.

## Findings

| source | as written | input that shows it | evidently intended | confidence | as-written member | corrected member |
|---|---|---|---|---|---|---|
| File_Organization_Dashboard-main/File_Organization_Dashboard-main/app.py:177-179 | The defaults are lower-case, but the organizer stores capitalised category names, so every logged category appears twice: once with its count and once as 0 | a log holding any image: `{"Images": n, "images": 0, ...}` | each category counted once, under the default key: the row keys lower-cased before the defaults are filled in | medium (not executed) | Aggregates.SummaryMissesStoredCategories | Aggregates.FixedSummaryCounts |
