/** What one pass of `organize_files` does to the folder and to the log, for any listing
    order, any category table and any pattern of failures. */
module OrganizeProperties {
  import opened Wrappers
  import opened Text
  import opened Paths
  import opened Classifier
  import opened Timestamps
  import opened Organizer

  /** What `os.listdir` returns: every name at the top of the folder, each exactly once. */
  ghost predicate IsListing(listing: seq<string>, entries: map<string, Entry>)
  {
    && (forall i, j :: 0 <= i < j < |listing| ==> listing[i] != listing[j])
    && (forall n :: n in listing <==> n in entries)
  }

  /** The names of `names` that are regular files in `entries`, in the same order. */
  function FilesOf(names: seq<string>, entries: map<string, Entry>): (r: seq<string>)
    ensures forall n :: n in r <==> n in names && IsFileAt(entries, n)
  {
    if names == [] then []
    else
      var init, last := names[..|names| - 1], names[|names| - 1];
      assert names == init + [last];
      if IsFileAt(entries, last) then FilesOf(init, entries) + [last] else FilesOf(init, entries)
  }

  /** Picking the files out of a list of distinct names gives distinct names. */
  lemma {:induction false} FilesOfDistinct(names: seq<string>, entries: map<string, Entry>)
    requires forall i, j :: 0 <= i < j < |names| ==> names[i] != names[j]
    ensures var r := FilesOf(names, entries);
            forall i, j :: 0 <= i < j < |r| ==> r[i] != r[j]
  {
    if names != [] {
      var init, last := names[..|names| - 1], names[|names| - 1];
      assert forall i :: 0 <= i < |init| ==> init[i] == names[i];
      FilesOfDistinct(init, entries);
      assert last !in init;
      assert last !in FilesOf(init, entries);
    }
  }

  /** The row of the k-th insert for a file, as a value. */
  function RowMaker(ctx: Context): (nat, string) -> Record
  {
    (k: nat, name: string) => RowFor(ctx, k, name)
  }

  /** One row per file, the k-th made from the k-th file. */
  function Tabulate(row: (nat, string) -> Record, files: seq<string>): (r: seq<Record>)
    ensures |r| == |files|
  {
    seq(|files|, k requires 0 <= k < |files| => row(k, files[k]))
  }

  /** The rows a pass inserts when it moves `files` in this order. */
  function Rows(ctx: Context, files: seq<string>): seq<Record>
  {
    Tabulate(RowMaker(ctx), files)
  }

  /** One more file appends one more row. */
  lemma TabulateSnoc(row: (nat, string) -> Record, files: seq<string>, name: string)
    ensures Tabulate(row, files + [name]) == Tabulate(row, files) + [row(|files|, name)]
  {
    var a, b := Tabulate(row, files + [name]), Tabulate(row, files) + [row(|files|, name)];
    forall k | 0 <= k < |a|
      ensures a[k] == b[k]
    {
      if k < |files| {
        assert (files + [name])[k] == files[k];
      }
    }
  }

  /** Moving one more file appends its row. */
  lemma RowsSnoc(ctx: Context, files: seq<string>, name: string)
    ensures Rows(ctx, files + [name]) == Rows(ctx, files) + [RowFor(ctx, |files|, name)]
  {
    TabulateSnoc(RowMaker(ctx), files, name);
  }

  /** The k-th row is the one the k-th insert writes for the k-th file. */
  lemma RowsAt(ctx: Context, files: seq<string>, k: nat)
    requires k < |files|
    ensures Rows(ctx, files)[k] == RowFor(ctx, k, files[k])
  {
  }

  /** Under the organizer's table, the `new_path` of a row lies under the organized folder,
      below a separator, and ends with the file's name (a name `os.listdir` returns is never
      empty and never starts with `/`). */
  lemma RowPathUnderBase(ctx: Context, k: nat, name: string)
    requires ctx.rules == Table() && name != [] && name[0] != '/'
    ensures var p := RowFor(ctx, k, name).newPath;
            && |p| > |ctx.base| + |name| && p[..|ctx.base|] == ctx.base && p[|p| - |name|..] == name
            && '/' in p[|ctx.base|..]
  {
    ClassifyRelative(name);
    JoinUnder(ctx.base, Classify(name), name);
  }

  /** No regular file the folder started with is lost: it is still at the top, unchanged, or
      it sits in the folder of its category with its contents. */
  ghost predicate NoLoss(rules: seq<Rule>, e0: map<string, Entry>, e: map<string, Entry>)
  {
    forall n :: IsFileAt(e0, n) ==>
      (n in e && e[n] == e0[n]) || InFolder(e, CategoryOf(rules, n), n, e0[n].data)
  }

  /** What the loop keeps between the folder it started with, `e0`, and the folder now, `e`:
      every regular file at the top is one it started with, unchanged; every directory is
      still a directory; every entry that is neither a file nor a directory is untouched;
      every new name is a directory; and no file is lost. */
  ghost predicate Preserved(rules: seq<Rule>, e0: map<string, Entry>, e: map<string, Entry>)
  {
    && (forall n :: IsFileAt(e, n) ==> n in e0 && e[n] == e0[n])
    && (forall n :: n in e0 && e0[n].Dir? ==> n in e && e[n].Dir?)
    && (forall n :: n in e0 && e0[n].Other? ==> n in e && e[n] == Other)
    && (forall n :: n in e && n !in e0 ==> e[n].Dir?)
    && NoLoss(rules, e0, e)
  }

  lemma PreservedByMakeDirs(rules: seq<Rule>, e0: map<string, Entry>, e: map<string, Entry>, category: string)
    requires Preserved(rules, e0, e)
    requires category in e ==> e[category].Dir?
    ensures Preserved(rules, e0, MakeDirs(e, category))
  {
    var r := MakeDirs(e, category);
    forall n | IsFileAt(e0, n)
      ensures (n in r && r[n] == e0[n]) || InFolder(r, CategoryOf(rules, n), n, e0[n].data)
    {
      if !(n in e && e[n] == e0[n]) {
        assert InFolder(e, CategoryOf(rules, n), n, e0[n].data);
      }
    }
  }

  lemma PreservedByMoveInto(rules: seq<Rule>, e0: map<string, Entry>, e: map<string, Entry>,
                            category: string, name: string)
    requires Preserved(rules, e0, e)
    requires IsFileAt(e, name) && category in e && e[category].Dir? && category == CategoryOf(rules, name)
    ensures Preserved(rules, e0, MoveInto(e, category, name))
  {
    NoLossByMoveInto(rules, e0, e, category, name);
  }

  /** Moving a file into its category folder loses no file. */
  lemma NoLossByMoveInto(rules: seq<Rule>, e0: map<string, Entry>, e: map<string, Entry>,
                         category: string, name: string)
    requires Preserved(rules, e0, e)
    requires IsFileAt(e, name) && category in e && e[category].Dir? && category == CategoryOf(rules, name)
    ensures NoLoss(rules, e0, MoveInto(e, category, name))
  {
    var r := MoveInto(e, category, name);
    forall n | IsFileAt(e0, n)
      ensures (n in r && r[n] == e0[n]) || InFolder(r, CategoryOf(rules, n), n, e0[n].data)
    {
      if n == name {
        assert e[name] == e0[name];
      } else if n in e && e[n] == e0[n] {
        assert n != category;
      } else {
        var c := CategoryOf(rules, n);
        assert InFolder(e, c, n, e0[n].data);
        assert c != name;
      }
    }
  }

  /** One step keeps `Preserved`, whether it skips, raises or moves. */
  lemma StepPreserves(ctx: Context, e0: map<string, Entry>, st: PassState, name: string)
    requires Preserved(ctx.rules, e0, st.entries)
    ensures Preserved(ctx.rules, e0, Step(ctx, st, name).entries)
  {
    if st.failure.None? && IsFileAt(st.entries, name) {
      var category := CategoryOf(ctx.rules, name);
      if category in st.entries && !st.entries[category].Dir? {
        StepBlocked(ctx, st, name);
      } else if category !in st.entries && category in ctx.faults.failingDirs {
        StepMakeDirsFails(ctx, st, name);
      } else {
        PreservedByMakeDirs(ctx.rules, e0, st.entries, category);
        var made := MakeDirs(st.entries, category);
        if name in ctx.faults.failingMoves {
          StepMoveFails(ctx, st, name);
        } else {
          PreservedByMoveInto(ctx.rules, e0, made, category, name);
          if name in ctx.faults.failingInserts {
            StepInsertFails(ctx, st, name);
          } else {
            StepMoves(ctx, st, name);
          }
        }
      }
    } else {
      StepSkips(ctx, st, name);
    }
  }

  lemma {:induction false} RunPreserves(ctx: Context, e0: map<string, Entry>, st: PassState, names: seq<string>)
    requires Preserved(ctx.rules, e0, st.entries)
    ensures Preserved(ctx.rules, e0, Run(ctx, st, names).entries)
  {
    if names != [] {
      RunPreserves(ctx, e0, st, names[..|names| - 1]);
      StepPreserves(ctx, e0, Run(ctx, st, names[..|names| - 1]), names[|names| - 1]);
    }
  }

  /** A name some regular file at the start of the pass belongs under. */
  ghost predicate IsDestination(rules: seq<Rule>, e0: map<string, Entry>, n: string)
  {
    exists f :: IsFileAt(e0, f) && CategoryOf(rules, f) == n
  }

  /** What the loop does to the directories: one that no file at the start belongs under is
      unchanged; one keeps every file it held, except one that a moved file of the same name
      may have replaced; and a directory holds only files it held and files moved into it,
      each with the contents it came with. */
  ghost predicate FoldersKept(rules: seq<Rule>, e0: map<string, Entry>, e: map<string, Entry>)
  {
    DirsUntouched(rules, e0, e) && FilesStay(rules, e0, e) && FilesFrom(rules, e0, e)
  }

  ghost predicate DirsUntouched(rules: seq<Rule>, e0: map<string, Entry>, e: map<string, Entry>)
  {
    forall n :: n in e0 && e0[n].Dir? && !IsDestination(rules, e0, n) ==> n in e && e[n] == e0[n]
  }

  ghost predicate FilesStay(rules: seq<Rule>, e0: map<string, Entry>, e: map<string, Entry>)
  {
    forall n, f :: n in e0 && e0[n].Dir? && f in e0[n].files && !(IsFileAt(e0, f) && CategoryOf(rules, f) == n)
      ==> InFolder(e, n, f, e0[n].files[f])
  }

  ghost predicate FilesFrom(rules: seq<Rule>, e0: map<string, Entry>, e: map<string, Entry>)
  {
    forall n, f :: n in e && e[n].Dir? && f in e[n].files ==> CameFrom(rules, e0, n, f, e[n].files[f])
  }

  /** `data` under `n/f` is what `n/f` held at the start, or what the file `f` at the top
      held, `f` belonging under `n`. */
  ghost predicate CameFrom(rules: seq<Rule>, e0: map<string, Entry>, n: string, f: string, data: Bytes)
  {
    || (n in e0 && e0[n].Dir? && f in e0[n].files && data == e0[n].files[f])
    || (IsFileAt(e0, f) && CategoryOf(rules, f) == n && data == e0[f].data)
  }

  /** `os.makedirs` keeps `FoldersKept`: it adds at most an empty folder. */
  lemma FoldersKeptByMakeDirs(rules: seq<Rule>, e0: map<string, Entry>, e: map<string, Entry>, category: string)
    requires FoldersKept(rules, e0, e)
    requires category in e ==> e[category].Dir?
    ensures FoldersKept(rules, e0, MakeDirs(e, category))
  {
    DirsUntouchedByMakeDirs(rules, e0, e, category);
    FilesStayByMakeDirs(rules, e0, e, category);
    FilesFromByMakeDirs(rules, e0, e, category);
  }

  lemma DirsUntouchedByMakeDirs(rules: seq<Rule>, e0: map<string, Entry>, e: map<string, Entry>, category: string)
    requires DirsUntouched(rules, e0, e)
    requires category in e ==> e[category].Dir?
    ensures DirsUntouched(rules, e0, MakeDirs(e, category))
  {
  }

  lemma FilesStayByMakeDirs(rules: seq<Rule>, e0: map<string, Entry>, e: map<string, Entry>, category: string)
    requires FilesStay(rules, e0, e)
    requires category in e ==> e[category].Dir?
    ensures FilesStay(rules, e0, MakeDirs(e, category))
  {
  }

  lemma FilesFromByMakeDirs(rules: seq<Rule>, e0: map<string, Entry>, e: map<string, Entry>, category: string)
    requires FilesFrom(rules, e0, e)
    requires category in e ==> e[category].Dir?
    ensures FilesFrom(rules, e0, MakeDirs(e, category))
  {
    var r := MakeDirs(e, category);
    forall n, f | n in r && r[n].Dir? && f in r[n].files
      ensures CameFrom(rules, e0, n, f, r[n].files[f])
    {
      assert n in e && r[n] == e[n];
    }
  }

  /** `shutil.move` of a file into its category folder keeps `FoldersKept`. */
  lemma FoldersKeptByMoveInto(rules: seq<Rule>, e0: map<string, Entry>, e: map<string, Entry>,
                              category: string, name: string)
    requires IsFileAt(e, name) && category in e && e[category].Dir? && category == CategoryOf(rules, name)
    requires FoldersKept(rules, e0, e) && IsFileAt(e0, name) && e[name] == e0[name]
    ensures FoldersKept(rules, e0, MoveInto(e, category, name))
  {
    DirsUntouchedByMoveInto(rules, e0, e, category, name);
    FilesStayByMoveInto(rules, e0, e, category, name);
    FilesFromByMoveInto(rules, e0, e, category, name);
  }

  lemma DirsUntouchedByMoveInto(rules: seq<Rule>, e0: map<string, Entry>, e: map<string, Entry>,
                                category: string, name: string)
    requires DirsUntouched(rules, e0, e) && IsFileAt(e0, name)
    requires IsFileAt(e, name) && category in e && e[category].Dir? && category == CategoryOf(rules, name)
    ensures DirsUntouched(rules, e0, MoveInto(e, category, name))
  {
    assert IsDestination(rules, e0, category);
  }

  lemma FilesStayByMoveInto(rules: seq<Rule>, e0: map<string, Entry>, e: map<string, Entry>,
                            category: string, name: string)
    requires FilesStay(rules, e0, e) && IsFileAt(e0, name)
    requires IsFileAt(e, name) && category in e && e[category].Dir? && category == CategoryOf(rules, name)
    ensures FilesStay(rules, e0, MoveInto(e, category, name))
  {
    var r := MoveInto(e, category, name);
    forall n, f | n in e0 && e0[n].Dir? && f in e0[n].files && !(IsFileAt(e0, f) && CategoryOf(rules, f) == n)
      ensures InFolder(r, n, f, e0[n].files[f])
    {
      assert InFolder(e, n, f, e0[n].files[f]);
      if n == category {
        assert f != name;
      } else {
        assert n != name;
      }
    }
  }

  lemma FilesFromByMoveInto(rules: seq<Rule>, e0: map<string, Entry>, e: map<string, Entry>,
                            category: string, name: string)
    requires IsFileAt(e, name) && category in e && e[category].Dir? && category == CategoryOf(rules, name)
    requires FilesFrom(rules, e0, e) && IsFileAt(e0, name) && e[name] == e0[name]
    ensures FilesFrom(rules, e0, MoveInto(e, category, name))
  {
    var r := MoveInto(e, category, name);
    forall n, f | n in r && r[n].Dir? && f in r[n].files
      ensures CameFrom(rules, e0, n, f, r[n].files[f])
    {
      if n != category {
        assert n in e && r[n] == e[n];
      } else if f == name {
        assert r[n].files[f] == e0[f].data;
      } else {
        assert f in e[category].files && r[n].files[f] == e[n].files[f];
      }
    }
  }

  /** One step keeps `FoldersKept`, whether it skips, raises or moves. */
  lemma StepKeepsFolders(ctx: Context, e0: map<string, Entry>, st: PassState, name: string)
    requires Preserved(ctx.rules, e0, st.entries) && FoldersKept(ctx.rules, e0, st.entries)
    ensures FoldersKept(ctx.rules, e0, Step(ctx, st, name).entries)
  {
    if st.failure.None? && IsFileAt(st.entries, name) {
      var category := CategoryOf(ctx.rules, name);
      if category in st.entries && !st.entries[category].Dir? {
        StepBlocked(ctx, st, name);
      } else if category !in st.entries && category in ctx.faults.failingDirs {
        StepMakeDirsFails(ctx, st, name);
      } else {
        FoldersKeptByMakeDirs(ctx.rules, e0, st.entries, category);
        var made := MakeDirs(st.entries, category);
        if name in ctx.faults.failingMoves {
          StepMoveFails(ctx, st, name);
        } else {
          assert IsFileAt(e0, name) && made[name] == e0[name];
          FoldersKeptByMoveInto(ctx.rules, e0, made, category, name);
          if name in ctx.faults.failingInserts {
            StepInsertFails(ctx, st, name);
          } else {
            StepMoves(ctx, st, name);
          }
        }
      }
    } else {
      StepSkips(ctx, st, name);
    }
  }

  lemma {:induction false} RunKeepsFolders(ctx: Context, e0: map<string, Entry>, st: PassState, names: seq<string>)
    requires Preserved(ctx.rules, e0, st.entries) && FoldersKept(ctx.rules, e0, st.entries)
    ensures FoldersKept(ctx.rules, e0, Run(ctx, st, names).entries)
  {
    if names != [] {
      var init := names[..|names| - 1];
      RunKeepsFolders(ctx, e0, st, init);
      RunPreserves(ctx, e0, st, init);
      StepKeepsFolders(ctx, e0, Run(ctx, st, init), names[|names| - 1]);
    }
  }

  /** Whatever the listing and whatever fails, a pass loses no file and touches nothing it
      does not move: no file is lost and no entry other than a moved file leaves the top. */
  lemma PassLosesNoFile(ctx: Context, isDirectory: bool, e0: map<string, Entry>, listing: seq<string>)
    ensures Preserved(ctx.rules, e0, Organize(ctx, isDirectory, e0, listing).entries)
  {
    if !ctx.faults.connectFails && isDirectory {
      RunPreserves(ctx, e0, Start(e0), listing);
    }
  }

  /** Whatever the listing and whatever fails, a directory changes only by taking in files
      that belong under it: what it held stays, unless a moved file of the same name replaced
      it, and a directory no file belongs under is left as it was. */
  lemma PassKeepsFolders(ctx: Context, isDirectory: bool, e0: map<string, Entry>, listing: seq<string>)
    ensures FoldersKept(ctx.rules, e0, Organize(ctx, isDirectory, e0, listing).entries)
  {
    if !ctx.faults.connectFails && isDirectory {
      RunKeepsFolders(ctx, e0, Start(e0), listing);
    }
  }

  /** What the loop has done once it has gone through `done` without an exception: one row per
      file of `done`, in order, and the folder as `FolderProgress` describes it. */
  ghost predicate Progress(ctx: Context, e0: map<string, Entry>, done: seq<string>, st: PassState)
  {
    && st.failure.None?
    && st.inserted == Rows(ctx, FilesOf(done, e0))
    && st.moved == |FilesOf(done, e0)|
    && FolderProgress(ctx.rules, e0, done, st.entries)
  }

  /** Each file of `done` is in its category folder, exactly the files not yet visited are
      still at the top, and nothing is lost. */
  ghost predicate FolderProgress(rules: seq<Rule>, e0: map<string, Entry>, done: seq<string>, e: map<string, Entry>)
  {
    && (forall n :: n in done && IsFileAt(e0, n) ==> InFolder(e, CategoryOf(rules, n), n, e0[n].data))
    && (forall n :: IsFileAt(e, n) <==> IsFileAt(e0, n) && n !in done)
    && Preserved(rules, e0, e)
  }

  /** Moving one more file keeps every file moved before in its folder, by way of
      `os.makedirs` and `shutil.move`. */
  lemma MovedStayMoved(rules: seq<Rule>, e0: map<string, Entry>, e: map<string, Entry>,
                       done: seq<string>, name: string)
    requires name !in done && IsFileAt(e, name)
    requires CategoryOf(rules, name) in e ==> e[CategoryOf(rules, name)].Dir?
    requires forall n :: n in done && IsFileAt(e0, n) ==> InFolder(e, CategoryOf(rules, n), n, e0[n].data)
    ensures var category := CategoryOf(rules, name);
            var r := MoveInto(MakeDirs(e, category), category, name);
            forall n :: n in done && IsFileAt(e0, n) ==> InFolder(r, CategoryOf(rules, n), n, e0[n].data)
  {
    var category := CategoryOf(rules, name);
    var made := MakeDirs(e, category);
    var r := MoveInto(made, category, name);
    forall n | n in done && IsFileAt(e0, n)
      ensures InFolder(r, CategoryOf(rules, n), n, e0[n].data)
    {
      var c := CategoryOf(rules, n);
      assert InFolder(made, c, n, e0[n].data);
      if c == category {
        assert n in made[category].files && n != name;
      } else {
        assert c != name;
      }
    }
  }

  /** What a move does to the set of regular files at the top: it takes away the moved file. */
  lemma MoveTakesFile(e: map<string, Entry>, category: string, name: string)
    requires IsFileAt(e, name) && (category in e ==> e[category].Dir?)
    ensures var r := MoveInto(MakeDirs(e, category), category, name);
            forall n :: IsFileAt(r, n) <==> IsFileAt(e, n) && n != name
  {
  }

  /** Moving the next file appends its row. */
  lemma RowsAdvance(ctx: Context, e0: map<string, Entry>, done: seq<string>, inserted: seq<Record>, name: string)
    requires IsFileAt(e0, name) && inserted == Rows(ctx, FilesOf(done, e0))
    ensures |FilesOf(done + [name], e0)| == |FilesOf(done, e0)| + 1
    ensures inserted + [RowFor(ctx, |inserted|, name)] == Rows(ctx, FilesOf(done + [name], e0))
  {
    var next := done + [name];
    assert next[..|next| - 1] == done;
    var files := FilesOf(done, e0);
    assert FilesOf(next, e0) == files + [name];
    RowsSnoc(ctx, files, name);
  }

  lemma StepProgressMove(ctx: Context, e0: map<string, Entry>, done: seq<string>, st: PassState, name: string)
    requires name !in done && Progress(ctx, e0, done, st) && IsFileAt(st.entries, name)
    requires Step(ctx, st, name).failure.None?
    ensures Progress(ctx, e0, done + [name], Step(ctx, st, name))
  {
    var category := CategoryOf(ctx.rules, name);
    assert MakesDirs(ctx, st.entries, category);
    assert name !in ctx.faults.failingMoves && name !in ctx.faults.failingInserts;
    StepMoves(ctx, st, name);
    MoveProgress(ctx, e0, done, st, name);
  }

  /** A file moved into its category folder extends the progress invariant. */
  lemma MoveProgress(ctx: Context, e0: map<string, Entry>, done: seq<string>, st: PassState, name: string)
    requires name !in done && Progress(ctx, e0, done, st) && IsFileAt(st.entries, name)
    requires CategoryOf(ctx.rules, name) in st.entries ==> st.entries[CategoryOf(ctx.rules, name)].Dir?
    ensures var category := CategoryOf(ctx.rules, name);
            Progress(ctx, e0, done + [name],
                     PassState(MoveInto(MakeDirs(st.entries, category), category, name),
                               st.inserted + [RowFor(ctx, |st.inserted|, name)], st.moved + 1, None))
  {
    RowsAdvance(ctx, e0, done, st.inserted, name);
    MoveFolderProgress(ctx.rules, e0, done, st.entries, name);
  }

  /** The folder half of the same step. */
  lemma MoveFolderProgress(rules: seq<Rule>, e0: map<string, Entry>, done: seq<string>, e: map<string, Entry>,
                           name: string)
    requires name !in done && FolderProgress(rules, e0, done, e) && IsFileAt(e, name)
    requires CategoryOf(rules, name) in e ==> e[CategoryOf(rules, name)].Dir?
    ensures var category := CategoryOf(rules, name);
            FolderProgress(rules, e0, done + [name], MoveInto(MakeDirs(e, category), category, name))
  {
    var category := CategoryOf(rules, name);
    var made := MakeDirs(e, category);
    var r := MoveInto(made, category, name);
    PreservedByMakeDirs(rules, e0, e, category);
    PreservedByMoveInto(rules, e0, made, category, name);
    MoveKeepsFolders(rules, e0, e, done, name, made, r);
    MoveTakesFile(e, category, name);
  }

  /** After the move, every file of `done` and the moved file sit in their folders. */
  lemma MoveKeepsFolders(rules: seq<Rule>, e0: map<string, Entry>, e: map<string, Entry>,
                         done: seq<string>, name: string, made: map<string, Entry>, r: map<string, Entry>)
    requires name !in done && IsFileAt(e, name) && IsFileAt(e0, name) && e[name] == e0[name]
    requires CategoryOf(rules, name) in e ==> e[CategoryOf(rules, name)].Dir?
    requires forall n :: n in done && IsFileAt(e0, n) ==> InFolder(e, CategoryOf(rules, n), n, e0[n].data)
    requires made == MakeDirs(e, CategoryOf(rules, name)) && r == MoveInto(made, CategoryOf(rules, name), name)
    ensures forall n :: n in done + [name] && IsFileAt(e0, n) ==> InFolder(r, CategoryOf(rules, n), n, e0[n].data)
  {
    MovedStayMoved(rules, e0, e, done, name);
    assert InFolder(r, CategoryOf(rules, name), name, e0[name].data);
  }

  lemma StepProgressSkip(ctx: Context, e0: map<string, Entry>, done: seq<string>, st: PassState, name: string)
    requires name !in done && Progress(ctx, e0, done, st) && !IsFileAt(st.entries, name)
    ensures Progress(ctx, e0, done + [name], Step(ctx, st, name))
  {
    StepSkips(ctx, st, name);
    var next := done + [name];
    assert next[..|next| - 1] == done;
    assert FilesOf(next, e0) == FilesOf(done, e0);
  }

  /** By induction over the listing: as long as no exception is raised, `Progress` holds. */
  lemma {:induction false} RunProgress(ctx: Context, e0: map<string, Entry>, listing: seq<string>, k: nat)
    requires forall i, j :: 0 <= i < j < |listing| ==> listing[i] != listing[j]
    requires k <= |listing| && Run(ctx, Start(e0), listing[..k]).failure.None?
    ensures Progress(ctx, e0, listing[..k], Run(ctx, Start(e0), listing[..k]))
  {
    if k == 0 {
      assert listing[..0] == [];
      assert Rows(ctx, []) == [];
    } else {
      var done := listing[..k - 1];
      assert listing[..k][..k - 1] == done;
      assert listing[..k] == done + [listing[k - 1]];
      var prev := Run(ctx, Start(e0), done);
      assert prev.failure.None?;
      RunProgress(ctx, e0, listing, k - 1);
      if IsFileAt(prev.entries, listing[k - 1]) {
        StepProgressMove(ctx, e0, done, prev, listing[k - 1]);
      } else {
        StepProgressSkip(ctx, e0, done, prev, listing[k - 1]);
      }
    }
  }

  /** A pass that ends without an exception has moved every regular file at the top of the
      folder, each exactly once, into the folder of its category with its contents, leaves no
      regular file at the top, and has inserted exactly one row per moved file, in the order
      of the listing, with consecutive ids and the file's name, category and new path. */
  lemma PassMovesEveryFile(ctx: Context, isDirectory: bool, e0: map<string, Entry>, listing: seq<string>)
    requires IsListing(listing, e0)
    requires Organize(ctx, isDirectory, e0, listing).failure.None?
    ensures var st := Organize(ctx, isDirectory, e0, listing);
            var files := FilesOf(listing, e0);
            && (forall n :: n in files <==> IsFileAt(e0, n))
            && (forall i, j :: 0 <= i < j < |files| ==> files[i] != files[j])
            && (forall n :: IsFileAt(e0, n) ==> InFolder(st.entries, CategoryOf(ctx.rules, n), n, e0[n].data))
            && (forall n :: !IsFileAt(st.entries, n))
            && st.moved == |files| == |st.inserted|
            && st.inserted == Rows(ctx, files)
            && (forall k :: 0 <= k < |files| ==>
                  && st.inserted[k].id == ctx.firstId + k
                  && st.inserted[k].filename == files[k]
                  && st.inserted[k].filetype == CategoryOf(ctx.rules, files[k])
                  && st.inserted[k].newPath == Join(Join(ctx.base, CategoryOf(ctx.rules, files[k])), files[k]))
  {
    assert listing[..|listing|] == listing;
    RunProgress(ctx, e0, listing, |listing|);
    FilesOfDistinct(listing, e0);
    forall k | 0 <= k < |FilesOf(listing, e0)|
      ensures Rows(ctx, FilesOf(listing, e0))[k] == RowFor(ctx, k, FilesOf(listing, e0)[k])
    {
      RowsAt(ctx, FilesOf(listing, e0), k);
    }
  }

  /** Sufficient for the loop to finish: no move and no INSERT raises, no file's category name
      is taken at the start by something that is not a directory, and every category folder
      missing at the start can be created. */
  lemma {:induction false} RunCompletes(ctx: Context, e0: map<string, Entry>, names: seq<string>)
    requires forall n :: IsFileAt(e0, n) ==> n !in ctx.faults.failingMoves && n !in ctx.faults.failingInserts
    requires forall n :: IsFileAt(e0, n) && CategoryOf(ctx.rules, n) in e0 ==> e0[CategoryOf(ctx.rules, n)].Dir?
    requires forall n :: IsFileAt(e0, n) && CategoryOf(ctx.rules, n) !in e0 ==>
               CategoryOf(ctx.rules, n) !in ctx.faults.failingDirs
    ensures Run(ctx, Start(e0), names).failure.None?
  {
    if names != [] {
      var init, name := names[..|names| - 1], names[|names| - 1];
      RunCompletes(ctx, e0, init);
      var prev := Run(ctx, Start(e0), init);
      RunPreserves(ctx, e0, Start(e0), init);
      if IsFileAt(prev.entries, name) {
        assert IsFileAt(e0, name);
        var category := CategoryOf(ctx.rules, name);
        if category in e0 {
          assert e0[category].Dir?;
        }
        assert MakesDirs(ctx, prev.entries, category);
        StepMoves(ctx, prev, name);
      } else {
        StepSkips(ctx, prev, name);
      }
    }
  }

  /** A pass succeeds when the database opens and commits, the folder lists, no move or
      INSERT raises, and every file's category name is a directory or free and creatable. */
  lemma PassSucceedsWhen(ctx: Context, isDirectory: bool, e0: map<string, Entry>, listing: seq<string>)
    requires !ctx.faults.connectFails && isDirectory && !ctx.faults.commitFails
    requires forall n :: IsFileAt(e0, n) ==> n !in ctx.faults.failingMoves && n !in ctx.faults.failingInserts
    requires forall n :: IsFileAt(e0, n) && CategoryOf(ctx.rules, n) in e0 ==> e0[CategoryOf(ctx.rules, n)].Dir?
    requires forall n :: IsFileAt(e0, n) && CategoryOf(ctx.rules, n) !in e0 ==>
               CategoryOf(ctx.rules, n) !in ctx.faults.failingDirs
    ensures Organize(ctx, isDirectory, e0, listing).failure.None?
  {
    RunCompletes(ctx, e0, listing);
  }

  /** The files of `done` are in their category folders and every other regular file the
      folder started with is still at its top, unchanged. */
  ghost predicate MovedPrefix(rules: seq<Rule>, e0: map<string, Entry>, done: seq<string>, e: map<string, Entry>)
  {
    && (forall n :: n in done && IsFileAt(e0, n) ==> InFolder(e, CategoryOf(rules, n), n, e0[n].data))
    && (forall n :: IsFileAt(e0, n) && n !in done ==> n in e && e[n] == e0[n])
  }

  lemma ProgressMovedPrefix(rules: seq<Rule>, e0: map<string, Entry>, done: seq<string>, e: map<string, Entry>)
    requires FolderProgress(rules, e0, done, e)
    ensures MovedPrefix(rules, e0, done, e)
  {
    forall n | IsFileAt(e0, n) && n !in done
      ensures n in e && e[n] == e0[n]
    {
      assert IsFileAt(e, n);
    }
  }

  /** The step that raises keeps what the loop did before it. It has moved its own file only
      when the INSERT raised. */
  lemma StepFailureKeepsMoves(ctx: Context, e0: map<string, Entry>, done: seq<string>, st: PassState, name: string)
    requires name !in done && Progress(ctx, e0, done, st)
    requires Step(ctx, st, name).failure.Some?
    ensures IsFileAt(e0, name)
    ensures var after := Step(ctx, st, name);
            && (after.failure.value.InsertFailed? ==> MovedPrefix(ctx.rules, e0, done + [name], after.entries))
            && (!after.failure.value.InsertFailed? ==> MovedPrefix(ctx.rules, e0, done, after.entries))
  {
    var e := st.entries;
    var category := CategoryOf(ctx.rules, name);
    ProgressMovedPrefix(ctx.rules, e0, done, e);
    assert IsFileAt(e, name);
    if category in e && !e[category].Dir? {
      StepBlocked(ctx, st, name);
    } else if category !in e && category in ctx.faults.failingDirs {
      StepMakeDirsFails(ctx, st, name);
    } else if name in ctx.faults.failingMoves {
      StepMoveFails(ctx, st, name);
    } else {
      assert name in ctx.faults.failingInserts;
      StepInsertFails(ctx, st, name);
      var made := MakeDirs(e, category);
      var r := MoveInto(made, category, name);
      MoveKeepsFolders(ctx.rules, e0, e, done, name, made, r);
      forall n | IsFileAt(e0, n) && n !in done + [name]
        ensures n in r && r[n] == e0[n]
      {
        assert IsFileAt(e, n) && n != category;
      }
    }
  }

  /** When the loop raises at `listing[k]`, the files before it stay in their category folders
      and the files after it stay at the top, unchanged; `listing[k]` itself is in its folder
      if its INSERT raised and at the top, unchanged, otherwise. */
  lemma LoopFailureKeepsMoves(ctx: Context, e0: map<string, Entry>, listing: seq<string>, k: nat)
    requires IsListing(listing, e0) && k < |listing|
    requires Run(ctx, Start(e0), listing[..k]).failure.None?
    requires Run(ctx, Start(e0), listing[..k + 1]).failure.Some?
    ensures var st := Run(ctx, Start(e0), listing);
            && st.failure.Some? && IsFileAt(e0, listing[k])
            && (st.failure.value.InsertFailed? ==> MovedPrefix(ctx.rules, e0, listing[..k + 1], st.entries))
            && (!st.failure.value.InsertFailed? ==> MovedPrefix(ctx.rules, e0, listing[..k], st.entries))
  {
    var done, name := listing[..k], listing[k];
    FailingStepIsLast(ctx, Start(e0), listing, k);
    assert listing[..k + 1] == done + [name];
    RunProgress(ctx, e0, listing, k);
    assert name !in done;
    StepFailureKeepsMoves(ctx, e0, done, Run(ctx, Start(e0), done), name);
  }

  /** The loop's outcome is that of the step that raised. */
  lemma FailingStepIsLast(ctx: Context, st: PassState, names: seq<string>, k: nat)
    requires k < |names| && Run(ctx, st, names[..k + 1]).failure.Some?
    ensures Run(ctx, st, names) == Step(ctx, Run(ctx, st, names[..k]), names[k])
  {
    assert names[..k + 1][..k] == names[..k];
    RunAfterFailure(ctx, st, names, k + 1);
  }

  /** A pass whose commit raises has moved every regular file into its category folder and
      left none at the top, yet keeps no row. */
  lemma CommitFailureKeepsAllMoves(ctx: Context, e0: map<string, Entry>, listing: seq<string>)
    requires IsListing(listing, e0) && !ctx.faults.connectFails && ctx.faults.commitFails
    requires Run(ctx, Start(e0), listing).failure.None?
    ensures var r := Organize(ctx, true, e0, listing);
            && r.failure == Some(CommitFailed) && Durable(r) == []
            && MovedPrefix(ctx.rules, e0, listing, r.entries)
            && (forall n :: !IsFileAt(r.entries, n))
  {
    assert listing[..|listing|] == listing;
    RunProgress(ctx, e0, listing, |listing|);
    ProgressMovedPrefix(ctx.rules, e0, listing, Run(ctx, Start(e0), listing).entries);
  }

  /** A pass that raised keeps no row, and what it leaves depends on where it raised: when the
      database or the listing fails the folder is untouched; when the loop raises, `k` is the
      first name that raised and the files before it (and that one too, when its INSERT
      raised) are in their category folders while the rest stay at the top; when the commit
      raises every file has been moved. */
  lemma FailedPassKeepsMoves(ctx: Context, isDirectory: bool, e0: map<string, Entry>, listing: seq<string>)
      returns (k: nat)
    requires IsListing(listing, e0)
    requires Organize(ctx, isDirectory, e0, listing).failure.Some?
    ensures Durable(Organize(ctx, isDirectory, e0, listing)) == []
    ensures ctx.faults.connectFails || !isDirectory ==> Organize(ctx, isDirectory, e0, listing).entries == e0
    ensures !ctx.faults.connectFails && isDirectory && Run(ctx, Start(e0), listing).failure.None? ==>
              var r := Organize(ctx, isDirectory, e0, listing);
              && r.failure == Some(CommitFailed)
              && MovedPrefix(ctx.rules, e0, listing, r.entries)
              && (forall n :: !IsFileAt(r.entries, n))
    ensures !ctx.faults.connectFails && isDirectory && Run(ctx, Start(e0), listing).failure.Some? ==>
              var r := Organize(ctx, isDirectory, e0, listing);
              && k < |listing| && IsFileAt(e0, listing[k])
              && Run(ctx, Start(e0), listing[..k]).failure.None?
              && Run(ctx, Start(e0), listing[..k + 1]).failure.Some?
              && (r.failure.value.InsertFailed? ==> MovedPrefix(ctx.rules, e0, listing[..k + 1], r.entries))
              && (!r.failure.value.InsertFailed? ==> MovedPrefix(ctx.rules, e0, listing[..k], r.entries))
  {
    k := 0;
    if !ctx.faults.connectFails && isDirectory {
      if Run(ctx, Start(e0), listing).failure.None? {
        CommitFailureKeepsAllMoves(ctx, e0, listing);
      } else {
        k := FirstFailure(ctx, Start(e0), listing);
        LoopFailureKeepsMoves(ctx, e0, listing, k);
      }
    }
  }

  /** A regular file whose name is its own category makes `os.makedirs(base/name,
      exist_ok=True)` raise when its turn comes, since the name is taken by the file itself:
      such a pass never succeeds. */
  lemma SelfNamedFileFailsPass(ctx: Context, isDirectory: bool, e0: map<string, Entry>, listing: seq<string>,
                               name: string)
    requires IsListing(listing, e0) && IsFileAt(e0, name) && CategoryOf(ctx.rules, name) == name
    ensures Organize(ctx, isDirectory, e0, listing).failure.Some?
  {
    if !ctx.faults.connectFails && isDirectory {
      SelfNamedFileFailsLoop(ctx, e0, listing, name);
    }
  }

  /** The loop over the listing raises at such a file, or earlier. */
  lemma SelfNamedFileFailsLoop(ctx: Context, e0: map<string, Entry>, listing: seq<string>, name: string)
    requires IsListing(listing, e0) && IsFileAt(e0, name) && CategoryOf(ctx.rules, name) == name
    ensures Run(ctx, Start(e0), listing).failure.Some?
  {
    assert name in listing;
    var k :| 0 <= k < |listing| && listing[k] == name;
    SelfNamedFileBlocks(ctx, e0, listing, k);
    RunAfterFailure(ctx, Start(e0), listing, k + 1);
  }

  /** The step at such a file raises, unless an earlier one already has. */
  lemma SelfNamedFileBlocks(ctx: Context, e0: map<string, Entry>, listing: seq<string>, k: nat)
    requires IsListing(listing, e0) && k < |listing|
    requires IsFileAt(e0, listing[k]) && CategoryOf(ctx.rules, listing[k]) == listing[k]
    ensures Run(ctx, Start(e0), listing[..k + 1]).failure.Some?
  {
    var name := listing[k];
    var prev := Run(ctx, Start(e0), listing[..k]);
    assert listing[..k + 1][..k] == listing[..k];
    if prev.failure.None? {
      RunProgress(ctx, e0, listing, k);
      assert name !in listing[..k];
      StepBlocked(ctx, prev, name);
    } else {
      StepSkips(ctx, prev, name);
    }
  }

  /** Under the organizer's table that file is one named `Others`: it has no extension, so
      its category is `Others`. */
  lemma FileNamedOthersFailsPass(ctx: Context, isDirectory: bool, e0: map<string, Entry>, listing: seq<string>)
    requires ctx.rules == Table()
    requires IsListing(listing, e0) && IsFileAt(e0, Others)
    ensures Organize(ctx, isDirectory, e0, listing).failure.Some?
  {
    ExtensionOfDotless(Others);
    ClassifyNoExtension(Others);
    SelfNamedFileFailsPass(ctx, isDirectory, e0, listing, Others);
  }

  /** With no regular file at the top, the loop changes nothing. */
  lemma {:induction false} RunWithoutFiles(ctx: Context, st: PassState, names: seq<string>)
    requires forall n :: !IsFileAt(st.entries, n)
    ensures Run(ctx, st, names) == st
  {
    if names != [] {
      RunWithoutFiles(ctx, st, names[..|names| - 1]);
      StepSkips(ctx, st, names[|names| - 1]);
    }
  }

  /** Organizing is idempotent: after a pass that succeeded, a second pass over the result,
      in any listing order, moves nothing, inserts no row and leaves the folder as it is. */
  lemma SecondPassChangesNothing(ctx: Context, isDirectory: bool, e0: map<string, Entry>, listing: seq<string>,
                                 ctx2: Context, listing2: seq<string>)
    requires IsListing(listing, e0)
    requires Organize(ctx, isDirectory, e0, listing).failure.None?
    requires !ctx2.faults.connectFails && !ctx2.faults.commitFails
    ensures var e1 := Organize(ctx, isDirectory, e0, listing).entries;
            Organize(ctx2, true, e1, listing2) == PassState(e1, [], 0, None)
  {
    PassMovesEveryFile(ctx, isDirectory, e0, listing);
    RunWithoutFiles(ctx2, Start(Organize(ctx, isDirectory, e0, listing).entries), listing2);
  }

  /** `datetime.now()` never goes backwards during a pass. */
  ghost predicate Monotone(clock: nat -> DateTime)
  {
    forall a: nat, b: nat :: a < b ==> !Before(clock(b), clock(a))
  }

  /** With a clock that does not go backwards, the rows of a pass are in `ORDER BY date`
      order: no later row has a smaller `date` string than an earlier one. */
  lemma RowsInDateOrder(ctx: Context, files: seq<string>, i: nat, j: nat)
    requires Monotone(ctx.clock) && i < j < |files|
    ensures !LexLess(Rows(ctx, files)[j].date, Rows(ctx, files)[i].date)
  {
    RowsAt(ctx, files, i);
    RowsAt(ctx, files, j);
    FormatOrder(ctx.clock(j), ctx.clock(i));
    assert !Before(ctx.clock(j), ctx.clock(i));
  }
}
