/** `organize_files`: pick the folder, then move every regular file at its top level into
    the folder of its category and log one row per move, committed once at the end. */
module Organizer {
  import opened Wrappers
  import opened Text
  import opened Paths
  import opened Classifier
  import opened Timestamps

  type Bytes = seq<bv8>

  /** What a name at the top of the organized folder stands for. A category folder holds
      plain files; `Other` is anything that is neither a regular file nor a directory
      (a socket, a FIFO, a dangling link). */
  datatype Entry = File(data: Bytes) | Dir(files: map<string, Bytes>) | Other

  /** `os.path.isfile` on a top-level name. */
  predicate IsFileAt(entries: map<string, Entry>, name: string)
  {
    name in entries && entries[name].File?
  }

  /** `name` sits in the category folder `category` and holds `data`. */
  predicate InFolder(entries: map<string, Entry>, category: string, name: string, data: Bytes)
  {
    category in entries && entries[category].Dir? && name in entries[category].files
    && entries[category].files[name] == data
  }

  // ---------------------------------------------------------------------------------------
  // Directory-mode resolution

  datatype Mode = Local | Cloud

  datatype Resolution = Resolution(mode: Mode, baseFolder: string)

  /** The folder to organize: the caller's `target_path` when not running on Render, the path
      is given and non-empty (Python truthiness) and it exists; otherwise the upload folder.
      The existence check is an input; a missing target is never an error. */
  function ResolveMode(onRender: bool, target: Option<string>, targetExists: bool, uploadFolder: string): (r: Resolution)
    ensures r.mode == Local <==> !onRender && target.Some? && target.value != [] && targetExists
    ensures r.mode == Local ==> r.baseFolder == target.value
    ensures r.mode == Cloud ==> r.baseFolder == uploadFolder
  {
    if !onRender && target.Some? && target.value != [] && targetExists then Resolution(Local, target.value)
    else Resolution(Cloud, uploadFolder)
  }

  // ---------------------------------------------------------------------------------------
  // The log

  /** A row of `organized_files`: id, filename, filetype (the category), new_path, date. */
  datatype Record = Record(id: nat, filename: string, filetype: string, newPath: string, date: string)

  /** The `organized_files` table as the committed rows, in insertion order. Ids are handed out
      by AUTOINCREMENT; the organizer never deletes a row and a rolled-back transaction also
      rolls back the id counter, so the ids are 1, 2, 3, ... */
  class RecordStore {
    var rows: seq<Record>

    predicate Valid()
      reads this
    {
      forall i :: 0 <= i < |rows| ==> rows[i].id == i + 1
    }

    /** `init_db`: `CREATE TABLE IF NOT EXISTS` on a fresh database. */
    constructor ()
      ensures Valid() && rows == []
    {
      rows := [];
    }

    /** `conn.commit()`: the rows inserted on the connection become durable, in order. */
    method Commit(batch: seq<Record>)
      requires Valid()
      requires forall i :: 0 <= i < |batch| ==> batch[i].id == |rows| + i + 1
      modifies this
      ensures Valid() && rows == old(rows) + batch
    {
      rows := rows + batch;
    }
  }

  // ---------------------------------------------------------------------------------------
  // The pass, as a function of its inputs

  /** The exceptions the pass can meet; each ends it with `{"error": str(e)}`. */
  datatype PassError =
    | DatabaseUnavailable           // sqlite3.connect raised
    | ListingFailed(path: string)   // os.listdir of something that is not a directory
    | CategoryBlocked(path: string) // os.makedirs: the category name is taken by a non-directory
    | MakeDirsFailed(path: string)  // os.makedirs raised while creating a free name
    | MoveFailed(name: string)      // shutil.move raised
    | InsertFailed(name: string)    // c.execute of the INSERT raised, after the move
    | CommitFailed                  // conn.commit raised

  /** Failures that come from outside the model: the database cannot be opened; creating some
      category folders raises (a read-only folder, a full disk); the move of some names
      raises; the INSERT for some names raises; the commit raises. */
  datatype Faults = Faults(connectFails: bool, failingDirs: set<string>, failingMoves: set<string>,
                           failingInserts: set<string>, commitFails: bool)

  /** What `organize_files` returns: `{"moved": n, "mode": m}` or `{"error": msg}`. */
  datatype PassResult = Summary(moved: nat, mode: Mode) | Failure(error: PassError)

  /** Everything a pass depends on besides the folder: where it is, the category table, the
      failures it meets, the clock (`clock(k)` is `datetime.now()` at the k-th insert of the
      pass) and the id the first inserted row gets. `organize_files` always runs with
      `rules == Table()`; the lemmas about a pass hold for any well-formed table. */
  datatype Context = Context(base: string, rules: seq<Rule>, faults: Faults, clock: nat -> DateTime, firstId: nat)

  /** The pass in progress: the folder, the rows inserted on the connection but not yet
      committed, `moved_count`, and the exception that ended the loop, if any. */
  datatype PassState = PassState(entries: map<string, Entry>, inserted: seq<Record>, moved: nat, failure: Option<PassError>)

  /** The row the k-th insert of a pass writes for `name`: the next id, the category, the
      new path and the time of the insert. */
  function RowFor(ctx: Context, k: nat, name: string): Record
  {
    var category := CategoryOf(ctx.rules, name);
    Record(ctx.firstId + k, name, category, Join(Join(ctx.base, category), name), Format(ctx.clock(k)))
  }

  function Start(entries: map<string, Entry>): PassState
  {
    PassState(entries, [], 0, None)
  }

  /** `os.makedirs(base/category, exist_ok=True)` where the name is free or already a
      directory: an existing folder is kept as it is, a missing one is created empty. */
  function MakeDirs(entries: map<string, Entry>, category: string): (r: map<string, Entry>)
    requires category in entries ==> entries[category].Dir?
    ensures category in r && r[category].Dir?
    ensures category !in entries ==> r[category] == Dir(map[])
    ensures forall n :: n in r <==> n in entries || n == category
    ensures forall n :: n in entries ==> r[n] == entries[n]
  {
    if category in entries then entries else entries[category := Dir(map[])]
  }

  /** `shutil.move(base/name, base/category/name)`: the file leaves the top of the folder and
      lands in the category folder, replacing a file of the same name there. */
  function MoveInto(entries: map<string, Entry>, category: string, name: string): (r: map<string, Entry>)
    requires IsFileAt(entries, name) && category in entries && entries[category].Dir?
    ensures InFolder(r, category, name, entries[name].data)
    ensures name !in r
    ensures forall n :: n in r <==> n in entries && n != name
    ensures forall n :: n in r && n != category ==> r[n] == entries[n]
    ensures forall n :: n in entries[category].files && n != name ==> InFolder(r, category, n, entries[category].files[n])
    ensures r[category].files.Keys == entries[category].files.Keys + {name}
  {
    entries[category := Dir(entries[category].files[name := entries[name].data])] - {name}
  }

  /** `os.makedirs(base/category, exist_ok=True)` returns normally: the name is a directory
      already, or it is free and creating the folder succeeds. */
  predicate MakesDirs(ctx: Context, entries: map<string, Entry>, category: string)
  {
    if category in entries then entries[category].Dir? else category !in ctx.faults.failingDirs
  }

  /** One iteration of `for filename in os.listdir(base_folder)`. */
  function Step(ctx: Context, st: PassState, name: string): PassState
  {
    if st.failure.Some? || !IsFileAt(st.entries, name) then st
    else
      var category := CategoryOf(ctx.rules, name);
      if category in st.entries && !st.entries[category].Dir? then
        st.(failure := Some(CategoryBlocked(Join(ctx.base, category))))
      else if category !in st.entries && category in ctx.faults.failingDirs then
        st.(failure := Some(MakeDirsFailed(Join(ctx.base, category))))
      else
        var made := MakeDirs(st.entries, category);
        if name in ctx.faults.failingMoves then
          st.(entries := made, failure := Some(MoveFailed(name)))
        else
          var moved := MoveInto(made, category, name);
          if name in ctx.faults.failingInserts then
            PassState(moved, st.inserted, st.moved + 1, Some(InsertFailed(name)))
          else
            PassState(moved, st.inserted + [RowFor(ctx, |st.inserted|, name)], st.moved + 1, None)
  }

  /** The loop over a listing, one name after the other. */
  function Run(ctx: Context, st: PassState, names: seq<string>): PassState
  {
    if names == [] then st
    else Step(ctx, Run(ctx, st, names[..|names| - 1]), names[|names| - 1])
  }

  /** The whole pass before the return statement: connect, list, loop, commit. */
  function Organize(ctx: Context, isDirectory: bool, entries: map<string, Entry>, listing: seq<string>): PassState
  {
    if ctx.faults.connectFails then PassState(entries, [], 0, Some(DatabaseUnavailable))
    else if !isDirectory then PassState(entries, [], 0, Some(ListingFailed(ctx.base)))
    else
      var st := Run(ctx, Start(entries), listing);
      if st.failure.None? && ctx.faults.commitFails then st.(failure := Some(CommitFailed)) else st
  }

  /** A step only appends rows, one at most and none when it raises, and counts one move at
      most. */
  lemma StepAppends(ctx: Context, st: PassState, name: string)
    ensures var r := Step(ctx, st, name);
            && st.inserted <= r.inserted && |r.inserted| <= |st.inserted| + 1
            && (r.failure.Some? ==> r.inserted == st.inserted)
            && r.moved <= st.moved + 1
  {
    if st.failure.None? && IsFileAt(st.entries, name) {
      var category := CategoryOf(ctx.rules, name);
      if category in st.entries && !st.entries[category].Dir? {
        StepBlocked(ctx, st, name);
      } else if category !in st.entries && category in ctx.faults.failingDirs {
        StepMakeDirsFails(ctx, st, name);
      } else if name in ctx.faults.failingMoves {
        StepMoveFails(ctx, st, name);
      } else if name in ctx.faults.failingInserts {
        StepInsertFails(ctx, st, name);
      } else {
        StepMoves(ctx, st, name);
      }
    } else {
      StepSkips(ctx, st, name);
    }
  }

  /** The loop only appends rows, at most one per name, and counts at most one move per name. */
  lemma {:induction false} RunAppends(ctx: Context, st: PassState, names: seq<string>)
    ensures var r := Run(ctx, st, names);
            && st.inserted <= r.inserted && |r.inserted| <= |st.inserted| + |names|
            && r.moved <= st.moved + |names|
  {
    if names != [] {
      var init := names[..|names| - 1];
      RunAppends(ctx, st, init);
      StepAppends(ctx, Run(ctx, st, init), names[|names| - 1]);
    }
  }

  /** A pass inserts at most one row and counts at most one move per listed name. It succeeds
      only when the database opens and commits and the folder lists, and it touches nothing
      when the database or the listing fails. */
  lemma PassBounded(ctx: Context, isDirectory: bool, entries: map<string, Entry>, listing: seq<string>)
    ensures var r := Organize(ctx, isDirectory, entries, listing);
            && |r.inserted| <= |listing| && r.moved <= |listing|
            && (r.failure.None? ==> !ctx.faults.connectFails && isDirectory && !ctx.faults.commitFails)
            && (ctx.faults.connectFails || !isDirectory ==> r.entries == entries && r.inserted == [] && r.failure.Some?)
  {
    RunAppends(ctx, Start(entries), listing);
  }

  /** The rows a pass leaves in the table: all it inserted if it reached the commit, none otherwise. */
  function Durable(st: PassState): seq<Record>
  {
    if st.failure.None? then st.inserted else []
  }

  /** The dictionary the pass returns. */
  function ResultOf(st: PassState, mode: Mode): PassResult
  {
    if st.failure.None? then Summary(st.moved, mode) else Failure(st.failure.value)
  }

  /** A step on a name that is not a regular file, or after the loop has raised, changes nothing. */
  lemma StepSkips(ctx: Context, st: PassState, name: string)
    requires st.failure.Some? || !IsFileAt(st.entries, name)
    ensures Step(ctx, st, name) == st
  {
  }

  /** A step whose category name is taken by something that is not a directory raises in
      `os.makedirs` and changes nothing else. */
  lemma StepBlocked(ctx: Context, st: PassState, name: string)
    requires st.failure.None? && IsFileAt(st.entries, name)
    requires CategoryOf(ctx.rules, name) in st.entries && !st.entries[CategoryOf(ctx.rules, name)].Dir?
    ensures Step(ctx, st, name)
            == st.(failure := Some(CategoryBlocked(Join(ctx.base, CategoryOf(ctx.rules, name)))))
  {
  }

  /** A step whose category folder cannot be created raises and changes nothing else. */
  lemma StepMakeDirsFails(ctx: Context, st: PassState, name: string)
    requires st.failure.None? && IsFileAt(st.entries, name)
    requires CategoryOf(ctx.rules, name) !in st.entries && CategoryOf(ctx.rules, name) in ctx.faults.failingDirs
    ensures Step(ctx, st, name)
            == st.(failure := Some(MakeDirsFailed(Join(ctx.base, CategoryOf(ctx.rules, name)))))
  {
  }

  /** A step whose move raises leaves the category folder created and the file in place. */
  lemma StepMoveFails(ctx: Context, st: PassState, name: string)
    requires st.failure.None? && IsFileAt(st.entries, name)
    requires MakesDirs(ctx, st.entries, CategoryOf(ctx.rules, name))
    requires name in ctx.faults.failingMoves
    ensures Step(ctx, st, name)
            == st.(entries := MakeDirs(st.entries, CategoryOf(ctx.rules, name)), failure := Some(MoveFailed(name)))
  {
  }

  /** A step whose INSERT raises has already moved the file and counted it, but inserts no row. */
  lemma StepInsertFails(ctx: Context, st: PassState, name: string)
    requires st.failure.None? && IsFileAt(st.entries, name)
    requires MakesDirs(ctx, st.entries, CategoryOf(ctx.rules, name))
    requires name !in ctx.faults.failingMoves && name in ctx.faults.failingInserts
    ensures var category := CategoryOf(ctx.rules, name);
            Step(ctx, st, name)
            == PassState(MoveInto(MakeDirs(st.entries, category), category, name),
                         st.inserted, st.moved + 1, Some(InsertFailed(name)))
  {
  }

  /** A step that moves its file: the category folder is made, the file goes into it and one
      row is inserted. */
  lemma StepMoves(ctx: Context, st: PassState, name: string)
    requires st.failure.None? && IsFileAt(st.entries, name)
    requires MakesDirs(ctx, st.entries, CategoryOf(ctx.rules, name))
    requires name !in ctx.faults.failingMoves && name !in ctx.faults.failingInserts
    ensures var category := CategoryOf(ctx.rules, name);
            Step(ctx, st, name)
            == PassState(MoveInto(MakeDirs(st.entries, category), category, name),
                         st.inserted + [RowFor(ctx, |st.inserted|, name)], st.moved + 1, None)
  {
  }

  /** Appending the row with the next id keeps the ids consecutive. */
  lemma NextId(rows: seq<Record>, record: Record, firstId: nat)
    requires forall k :: 0 <= k < |rows| ==> rows[k].id == firstId + k
    requires record.id == firstId + |rows|
    ensures forall k :: 0 <= k < |rows + [record]| ==> (rows + [record])[k].id == firstId + k
  {
  }

  /** Once the loop has raised, the remaining names change nothing. */
  lemma {:induction false} RunAfterFailure(ctx: Context, st: PassState, names: seq<string>, k: nat)
    requires k <= |names| && Run(ctx, st, names[..k]).failure.Some?
    ensures Run(ctx, st, names) == Run(ctx, st, names[..k])
    decreases |names| - k
  {
    if k < |names| {
      assert names[..k + 1][..k] == names[..k];
      RunAfterFailure(ctx, st, names, k + 1);
    } else {
      assert names[..k] == names;
    }
  }

  /** A loop that raised did so at one name: no exception before it, one right after it. */
  lemma {:induction false} FirstFailure(ctx: Context, st: PassState, names: seq<string>) returns (k: nat)
    requires st.failure.None? && Run(ctx, st, names).failure.Some?
    ensures k < |names|
    ensures Run(ctx, st, names[..k]).failure.None? && Run(ctx, st, names[..k + 1]).failure.Some?
  {
    var init := names[..|names| - 1];
    assert names[..|names|] == names;
    if Run(ctx, st, init).failure.Some? {
      k := FirstFailure(ctx, st, init);
      assert init[..k] == names[..k] && init[..k + 1] == names[..k + 1];
    } else {
      k := |names| - 1;
    }
  }

  // ---------------------------------------------------------------------------------------
  // The pass, as the source runs it

  /** The folder being organized. `isDirectory` says whether `os.listdir` succeeds on its
      path; `entries` is what is at its top level. */
  class Folder {
    const path: string
    const isDirectory: bool
    var entries: map<string, Entry>

    constructor (path: string, isDirectory: bool, entries: map<string, Entry>)
      ensures this.path == path && this.isDirectory == isDirectory && this.entries == entries
    {
      this.path := path;
      this.isDirectory := isDirectory;
      this.entries := entries;
    }
  }

  /** `os.makedirs(base/category, exist_ok=True)`, in place on the folder: it raises when the
      name is taken by something that is not a directory, or when creating the folder fails. */
  method MakeCategoryFolder(folder: Folder, ctx: Context, category: string) returns (failure: Option<PassError>)
    requires folder.path == ctx.base
    modifies folder
    ensures failure.None? <==> MakesDirs(ctx, old(folder.entries), category)
    ensures failure.None? ==> folder.entries == MakeDirs(old(folder.entries), category)
    ensures failure.Some? ==> folder.entries == old(folder.entries)
    ensures failure.Some? && category in old(folder.entries) ==> failure == Some(CategoryBlocked(Join(ctx.base, category)))
    ensures failure.Some? && category !in old(folder.entries) ==> failure == Some(MakeDirsFailed(Join(ctx.base, category)))
  {
    var categoryPath := Join(folder.path, category);
    if category in folder.entries {
      if !folder.entries[category].Dir? {
        return Some(CategoryBlocked(categoryPath));
      }
    } else if category in ctx.faults.failingDirs {
      return Some(MakeDirsFailed(categoryPath));
    } else {
      folder.entries := folder.entries[category := Dir(map[])];
    }
    return None;
  }

  /** `shutil.move(base/name, base/category/name)`, in place on the folder. */
  method MoveFile(folder: Folder, category: string, name: string)
    requires IsFileAt(folder.entries, name) && category in folder.entries && folder.entries[category].Dir?
    modifies folder
    ensures folder.entries == MoveInto(old(folder.entries), category, name)
  {
    var data := folder.entries[name].data;
    folder.entries := folder.entries[category := Dir(folder.entries[category].files[name := data])] - {name};
  }

  /** One iteration of the loop of `organize_files` on `filename`: skip it unless it is a
      regular file, make its category folder, move it there, insert its row. An exception
      raised by `os.makedirs`, `shutil.move` or the INSERT comes back as `failure`. */
  method MoveEntry(folder: Folder, ctx: Context, filename: string, pending: seq<Record>, movedCount: nat)
    returns (pending': seq<Record>, movedCount': nat, failure: Option<PassError>)
    requires folder.path == ctx.base
    requires forall k :: 0 <= k < |pending| ==> pending[k].id == ctx.firstId + k
    modifies folder
    ensures Step(ctx, PassState(old(folder.entries), pending, movedCount, None), filename)
            == PassState(folder.entries, pending', movedCount', failure)
    ensures forall k :: 0 <= k < |pending'| ==> pending'[k].id == ctx.firstId + k
  {
    ghost var before := PassState(folder.entries, pending, movedCount, None);
    pending', movedCount', failure := pending, movedCount, None;
    if !(filename in folder.entries && folder.entries[filename].File?) {
      StepSkips(ctx, before, filename);
      return;
    }
    var category := CategoryOf(ctx.rules, filename);
    failure := MakeCategoryFolder(folder, ctx, category);
    if failure.Some? {
      if category in before.entries {
        StepBlocked(ctx, before, filename);
      } else {
        StepMakeDirsFails(ctx, before, filename);
      }
      return;
    }
    // shutil.move(filepath, new_path), replacing a same-named file in the category folder
    if filename in ctx.faults.failingMoves {
      failure := Some(MoveFailed(filename));
      StepMoveFails(ctx, before, filename);
      return;
    }
    MoveFile(folder, category, filename);
    movedCount' := movedCount + 1;
    // INSERT INTO organized_files (filename, filetype, new_path, date), on the open connection
    if filename in ctx.faults.failingInserts {
      failure := Some(InsertFailed(filename));
      StepInsertFails(ctx, before, filename);
      return;
    }
    var record := RowFor(ctx, |pending|, filename);
    NextId(pending, record, ctx.firstId);
    pending' := pending + [record];
    StepMoves(ctx, before, filename);
  }

  /** `organize_files(target_path)`. `folder` is the folder at the resolved path and `listing`
      the names `os.listdir` returns for it, in whatever order the OS gives them. The rows
      go to the store only through the single commit after the loop; on any exception the
      connection is dropped with its inserts, while the moves already made stay made. */
  method OrganizeFiles(folder: Folder, store: RecordStore, onRender: bool, uploadFolder: string,
                       target: Option<string>, targetExists: bool, listing: seq<string>,
                       faults: Faults, clock: nat -> DateTime)
    returns (result: PassResult)
    requires store.Valid()
    requires folder.path == ResolveMode(onRender, target, targetExists, uploadFolder).baseFolder
    modifies folder, store
    ensures store.Valid()
    ensures var ctx := Context(folder.path, Table(), faults, clock, |old(store.rows)| + 1);
            var st := Organize(ctx, folder.isDirectory, old(folder.entries), listing);
            && folder.entries == st.entries
            && store.rows == old(store.rows) + Durable(st)
            && result == ResultOf(st, ResolveMode(onRender, target, targetExists, uploadFolder).mode)
  {
    var resolution := ResolveMode(onRender, target, targetExists, uploadFolder);
    var mode := resolution.mode;
    var baseFolder := resolution.baseFolder;
    var ctx := Context(baseFolder, Table(), faults, clock, |store.rows| + 1);
    if faults.connectFails {
      return Failure(DatabaseUnavailable);
    }
    if !folder.isDirectory {
      return Failure(ListingFailed(baseFolder));
    }
    ghost var st0 := Start(folder.entries);
    var movedCount := 0;
    var pending: seq<Record> := [];
    var i := 0;
    while i < |listing|
      invariant 0 <= i <= |listing|
      invariant store.rows == old(store.rows)
      invariant Run(ctx, st0, listing[..i]) == PassState(folder.entries, pending, movedCount, None)
      invariant forall k :: 0 <= k < |pending| ==> pending[k].id == ctx.firstId + k
    {
      assert listing[..i + 1][..i] == listing[..i];
      var failure;
      pending, movedCount, failure := MoveEntry(folder, ctx, listing[i], pending, movedCount);
      if failure.Some? {
        RunAfterFailure(ctx, st0, listing, i + 1);
        return Failure(failure.value);
      }
      i := i + 1;
    }
    assert listing[..i] == listing;
    if faults.commitFails {
      return Failure(CommitFailed);
    }
    store.Commit(pending);
    // git_auto_push() is best-effort and swallows its own exceptions: it changes nothing here.
    result := Summary(movedCount, mode);
  }
}
