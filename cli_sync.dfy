/**
 * The older planners of the command-line binary (src/bin/canvas-sync/main.rs).
 * Its `IndentStack` is the same code as the library's and is modelled by
 * `Sync.IndentStack`. The planners differ from the library's: neither fixes
 * up an empty download URL, and module mode handles only SubHeader and File
 * items, so external links are ignored.
 */
module CliSync {
  import opened Wrappers
  import opened CanvasApi
  import opened CanvasFiles
  import opened CanvasModules
  import opened CanvasLmsSync
  import opened Sync

  // ---------------------------------------------------------------------------
  // download_files

  /** What the binary's `download_files` does with one item of the file listing. */
  ghost function FilesStep(m: map<int, FolderResp>, fs: FileSystem, st: FilesState, item: Result<FileResp, Error>): FilesState
    requires item.Ok? ==> ChainEnds(m, item.value.folderId)
  {
    if st.panic.Some? || item.Err? then st
    else
      var f := item.value;
      match FolderChain(m, f.folderId)
      case None => st.(panic := Some(MissingFolder(f.folderId)))
      case Some(folders) =>
        var task := DownloadTask(f.url, LocalPathOf(folders, f.displayName));
        if Matches(fs, task.path, f.size) then st else st.(tasks := st.tasks + [task])
  }

  /** The binary's `download_files` over the whole file listing, given the folder map. */
  ghost function FilesRun(m: map<int, FolderResp>, fs: FileSystem, files: seq<Result<FileResp, Error>>): FilesState
    requires ChainsEnd(m, files)
    decreases |files|
  {
    if files == [] then FilesState([], None)
    else
      var init := files[..|files| - 1];
      assert ChainsEnd(m, init) by {
        forall i | 0 <= i < |init| && init[i].Ok? ensures ChainEnds(m, init[i].value.folderId) {
          assert init[i] == files[i];
        }
      }
      FilesStep(m, fs, FilesRun(m, fs, init), files[|files| - 1])
  }

  lemma FilesRunSnoc(m: map<int, FolderResp>, fs: FileSystem, files: seq<Result<FileResp, Error>>, i: nat)
    requires ChainsEnd(m, files) && i < |files|
    ensures ChainsEnd(m, files[..i]) && ChainsEnd(m, files[..i + 1])
    ensures files[i].Ok? ==> ChainEnds(m, files[i].value.folderId)
    ensures FilesRun(m, fs, files[..i + 1]) == FilesStep(m, fs, FilesRun(m, fs, files[..i]), files[i])
  {
    var prefix := files[..i + 1];
    assert prefix[..i] == files[..i];
    assert forall k :: 0 <= k < |prefix| ==> prefix[k] == files[k];
  }

  lemma {:induction false} FilesRunAfterPanic(m: map<int, FolderResp>, fs: FileSystem, files: seq<Result<FileResp, Error>>, k: nat)
    requires ChainsEnd(m, files) && k <= |files|
    requires ChainsEnd(m, files[..k]) && FilesRun(m, fs, files[..k]).panic.Some?
    ensures FilesRun(m, fs, files) == FilesRun(m, fs, files[..k])
    decreases |files| - k
  {
    if k < |files| {
      FilesRunSnoc(m, fs, files, k);
      FilesRunAfterPanic(m, fs, files, k + 1);
    } else {
      assert files[..k] == files;
    }
  }

  /** A step from a state that has not panicked only appends to it. */
  lemma FilesStepAppends(m: map<int, FolderResp>, fs: FileSystem, tasks: seq<DownloadTask>, item: Result<FileResp, Error>)
    requires item.Ok? ==> ChainEnds(m, item.value.folderId)
    ensures var one := FilesStep(m, fs, FilesState([], None), item);
      FilesStep(m, fs, FilesState(tasks, None), item) == FilesState(tasks + one.tasks, one.panic)
  {
  }

  /** The binary's loop body for one listed file: no URL fix-up. */
  method DownloadFile(folders: map<int, FolderResp>, fs: FileSystem, downloader: Downloader, resp: FileResp)
    returns (found: bool)
    requires ChainEnds(folders, resp.folderId)
    modifies downloader
    ensures var one := FilesStep(folders, fs, FilesState([], None), Ok(resp));
      downloader.queue == old(downloader.queue) + one.tasks && (found <==> one.panic == None)
  {
    var file := new File.FromResp(resp);
    found := file.SetFolderPath(folders, resp.folderId);
    if found {
      var matches := file.LocalFileMatches(fs);
      if !matches {
        var task := file.IntoTask();
        downloader.Submit(task);
      }
    }
  }

  /** The file loop of the binary's `download_files`, over an already fetched listing. */
  method DownloadListedFiles(folders: map<int, FolderResp>, fs: FileSystem, downloader: Downloader,
                             fileItems: seq<Result<FileResp, Error>>)
    returns (panic: Option<Panic>)
    requires ChainsEnd(folders, fileItems)
    modifies downloader
    ensures var r := FilesRun(folders, fs, fileItems);
      downloader.queue == old(downloader.queue) + r.tasks && panic == r.panic
  {
    panic := None;
    ghost var st := FilesState([], None);
    for i := 0 to |fileItems|
      invariant ChainsEnd(folders, fileItems[..i])
      invariant st == FilesRun(folders, fs, fileItems[..i]) && st.panic == None
      invariant downloader.queue == old(downloader.queue) + st.tasks
    {
      FilesRunSnoc(folders, fs, fileItems, i);
      if fileItems[i].Ok? {
        var resp := fileItems[i].value;
        FilesStepAppends(folders, fs, st.tasks, fileItems[i]);
        ghost var one := FilesStep(folders, fs, FilesState([], None), fileItems[i]);
        var found := DownloadFile(folders, fs, downloader, resp);
        AppendAssoc(old(downloader.queue), st.tasks, one.tasks);
        st := FilesState(st.tasks + one.tasks, one.panic);
        if !found {
          panic := Some(MissingFolder(resp.folderId));
          FilesRunAfterPanic(folders, fs, fileItems, i + 1);
          assert fileItems[..|fileItems|] == fileItems;
          return;
        }
      }
    }
    assert fileItems[..|fileItems|] == fileItems;
  }

  /** The binary's `download_files`: the folder map first, then every listed file. */
  method DownloadFiles(courseId: int, canvas: Canvas, fs: FileSystem, downloader: Downloader)
    returns (panic: Option<Panic>)
    requires HostOk(canvas.client.host)
    requires Finite(canvas.files.folders, FoldersUrl(canvas.client, courseId))
    requires Finite(canvas.files.files, FilesUrl(canvas.client, courseId))
    requires ChainsEnd(FolderMapOf(Stream(canvas.files.folders, FoldersUrl(canvas.client, courseId))),
                       Stream(canvas.files.files, FilesUrl(canvas.client, courseId)))
    modifies downloader
    ensures var r := FilesRun(FolderMapOf(Stream(canvas.files.folders, FoldersUrl(canvas.client, courseId))),
                              fs, Stream(canvas.files.files, FilesUrl(canvas.client, courseId)));
      downloader.queue == old(downloader.queue) + r.tasks && panic == r.panic
  {
    var folderItems := GetAllFolders(canvas.client, canvas.files, courseId);
    var folders := BuildFolderMap(folderItems);
    var fileItems := GetAllFiles(canvas.client, canvas.files, courseId);
    panic := DownloadListedFiles(folders, fs, downloader, fileItems);
  }

  /** Every listed file already has a download URL. */
  predicate UrlsPresent(files: seq<Result<FileResp, Error>>) {
    forall i :: 0 <= i < |files| && files[i].Ok? ==> files[i].value.url != ""
  }

  /**
   * The two `download_files` agree whenever the server lists every file with
   * a URL; they differ only through the library's URL fix-up.
   */
  lemma {:induction false} FilesPlannersAgree(c: Client, m: map<int, FolderResp>, fs: FileSystem, files: seq<Result<FileResp, Error>>)
    requires HostOk(c.host) && ChainsEnd(m, files) && UrlsPresent(files)
    ensures FilesRun(m, fs, files) == Sync.FilesRun(c, m, fs, files)
    decreases |files|
  {
    if files != [] {
      var n := |files| - 1;
      FilesRunSnoc(m, fs, files, n);
      Sync.FilesRunSnoc(c, m, fs, files, n);
      assert files[..n + 1] == files;
      assert UrlsPresent(files[..n]) by {
        forall i | 0 <= i < n && files[..n][i].Ok? ensures files[..n][i].value.url != "" {
          assert files[..n][i] == files[i];
        }
      }
      FilesPlannersAgree(c, m, fs, files[..n]);
      if files[n].Ok? {
        WithUrlFacts(c, files[n].value);
      }
    }
  }

  /**
   * A file listed without a URL whose folder resolves and whose local copy
   * does not match is submitted with the empty URL by the binary, while the
   * library submits it with the guessed download URL.
   */
  lemma EmptyUrlSubmitted(c: Client, m: map<int, FolderResp>, fs: FileSystem, f: FileResp)
    requires HostOk(c.host) && ChainEnds(m, f.folderId) && f.url == ""
    requires FolderChain(m, f.folderId).Some?
    requires !Matches(fs, LocalPathOf(FolderChain(m, f.folderId).value, f.displayName), f.size)
    ensures ChainsEnd(m, [Ok(f)])
    ensures FilesRun(m, fs, [Ok(f)]).tasks == [DownloadTask("", LocalPathOf(FolderChain(m, f.folderId).value, f.displayName))]
    ensures Sync.FilesRun(c, m, fs, [Ok(f)]).tasks ==
      [DownloadTask(DownloadUrl(c, f), LocalPathOf(FolderChain(m, f.folderId).value, f.displayName))]
  {
    var files: seq<Result<FileResp, Error>> := [Ok(f)];
    assert files[..0] == [];
    FilesRunSnoc(m, fs, files, 0);
    Sync.FilesRunSnoc(c, m, fs, files, 0);
    assert files[..1] == files;
  }

  // ---------------------------------------------------------------------------
  // download_modules

  /** What the binary's module mode depends on besides the listings. */
  datatype CliCourse = CliCourse(canvas: Canvas, courseId: int, fs: FileSystem)

  /** The binary's File branch: the fetched record's URL is used as it is. */
  function FileEffect(course: CliCourse, mod: ModuleResp, stack: seq<(int, ModuleItemResp)>, it: ModuleItemResp): (e: ModuleState)
    requires HostOk(course.canvas.client.host)
    ensures e.links == [] && e.stack == stack && |e.tasks| <= 1
  {
    if it.contentId.None? then ModuleState([], [], stack, Some(NoContentId(it.id)))
    else
      var resp := GetCourseFile(course.canvas.client, course.canvas.files, course.courseId, it.contentId.value);
      if resp.Err? then ModuleState([], [], stack, Some(CourseFileFailed(resp.error)))
      else
        var f := resp.value;
        var task := DownloadTask(f.url, LocalPathOf(ModuleFolder(mod, stack), f.displayName));
        ModuleState(if Matches(course.fs, task.path, f.size) then [] else [task], [], stack, None)
  }

  /** What one listed item adds: only SubHeader and File items have an effect. */
  function ItemEffect(course: CliCourse, mod: ModuleResp, stack: seq<(int, ModuleItemResp)>, it: ModuleItemResp): ModuleState
    requires HostOk(course.canvas.client.host)
  {
    if it.kind == "SubHeader" then ModuleState([], [], Pushed(stack, it.indent, it), None)
    else if it.kind == "File" then FileEffect(course, mod, stack, it)
    else ModuleState([], [], stack, None)
  }

  function ItemStep(course: CliCourse, mod: ModuleResp, st: ModuleState, item: Result<ModuleItemResp, Error>): ModuleState
    requires HostOk(course.canvas.client.host)
  {
    if st.panic.Some? || item.Err? then st
    else
      var e := ItemEffect(course, mod, st.stack, item.value);
      ModuleState(st.tasks + e.tasks, st.links + e.links, e.stack, e.panic)
  }

  function ModuleRun(course: CliCourse, mod: ModuleResp, st: ModuleState, items: seq<Result<ModuleItemResp, Error>>): ModuleState
    requires HostOk(course.canvas.client.host)
    decreases |items|
  {
    if items == [] then st
    else ItemStep(course, mod, ModuleRun(course, mod, st, items[..|items| - 1]), items[|items| - 1])
  }

  /** The module mode of the library on the same server, with a shortcut writer that always succeeds. */
  function LibraryCourse(course: CliCourse, path: LocalPath): Course {
    Course(course.canvas, SyncConfig(course.courseId, path), course.fs, _ => true)
  }

  /** The item listing of a module. */
  ghost function ModuleItems(course: CliCourse, mod: ModuleResp): seq<Result<ModuleItemResp, Error>>
    requires HostOk(course.canvas.client.host)
    requires Finite(course.canvas.modules.items, ItemsUrl(course.canvas.client, course.courseId, mod.id))
  {
    Stream(course.canvas.modules.items, ItemsUrl(course.canvas.client, course.courseId, mod.id))
  }

  ghost predicate ItemsFinite(course: CliCourse, modules: seq<Result<ModuleResp, Error>>)
    requires HostOk(course.canvas.client.host)
  {
    forall i :: 0 <= i < |modules| && modules[i].Ok? ==>
      Finite(course.canvas.modules.items, ItemsUrl(course.canvas.client, course.courseId, modules[i].value.id))
  }

  /** The binary's `download_modules` over the module listing; every module starts with an empty stack. */
  ghost function CourseRun(course: CliCourse, modules: seq<Result<ModuleResp, Error>>): ModuleState
    requires HostOk(course.canvas.client.host) && ItemsFinite(course, modules)
    decreases |modules|
  {
    if modules == [] then Start
    else
      var init := modules[..|modules| - 1];
      assert ItemsFinite(course, init) by {
        forall i | 0 <= i < |init| && init[i].Ok?
          ensures Finite(course.canvas.modules.items, ItemsUrl(course.canvas.client, course.courseId, init[i].value.id))
        {
          assert init[i] == modules[i];
        }
      }
      var prev := CourseRun(course, init);
      var m := modules[|modules| - 1];
      if prev.panic.Some? || m.Err? then prev
      else ModuleRun(course, m.value, prev.(stack := []), ModuleItems(course, m.value))
  }

  lemma ModuleRunSnoc(course: CliCourse, mod: ModuleResp, st: ModuleState, items: seq<Result<ModuleItemResp, Error>>, j: nat)
    requires HostOk(course.canvas.client.host) && j < |items|
    ensures ModuleRun(course, mod, st, items[..j + 1]) == ItemStep(course, mod, ModuleRun(course, mod, st, items[..j]), items[j])
  {
    assert items[..j + 1][..j] == items[..j];
  }

  lemma CourseRunSnoc(course: CliCourse, modules: seq<Result<ModuleResp, Error>>, i: nat)
    requires HostOk(course.canvas.client.host) && ItemsFinite(course, modules) && i < |modules|
    ensures ItemsFinite(course, modules[..i]) && ItemsFinite(course, modules[..i + 1])
    ensures var prev := CourseRun(course, modules[..i]);
      CourseRun(course, modules[..i + 1]) ==
        if prev.panic.Some? || modules[i].Err? then prev
        else ModuleRun(course, modules[i].value, prev.(stack := []), ModuleItems(course, modules[i].value))
  {
    var prefix := modules[..i + 1];
    assert prefix[..i] == modules[..i];
    assert forall k :: 0 <= k < |prefix| ==> prefix[k] == modules[k];
  }

  lemma {:induction false} ModuleRunAfterPanic(course: CliCourse, mod: ModuleResp, st: ModuleState, items: seq<Result<ModuleItemResp, Error>>, k: nat)
    requires HostOk(course.canvas.client.host) && k <= |items|
    requires ModuleRun(course, mod, st, items[..k]).panic.Some?
    ensures ModuleRun(course, mod, st, items) == ModuleRun(course, mod, st, items[..k])
    decreases |items| - k
  {
    if k < |items| {
      assert items[..k + 1][..k] == items[..k];
      ModuleRunAfterPanic(course, mod, st, items, k + 1);
    } else {
      assert items[..k] == items;
    }
  }

  lemma {:induction false} CourseRunAfterPanic(course: CliCourse, modules: seq<Result<ModuleResp, Error>>, k: nat)
    requires HostOk(course.canvas.client.host) && ItemsFinite(course, modules) && k <= |modules|
    requires ItemsFinite(course, modules[..k]) && CourseRun(course, modules[..k]).panic.Some?
    ensures CourseRun(course, modules) == CourseRun(course, modules[..k])
    decreases |modules| - k
  {
    if k < |modules| {
      CourseRunSnoc(course, modules, k);
      CourseRunAfterPanic(course, modules, k + 1);
    } else {
      assert modules[..k] == modules;
    }
  }

  lemma ItemStepOk(course: CliCourse, mod: ModuleResp, st: ModuleState, it: ModuleItemResp)
    requires HostOk(course.canvas.client.host) && st.panic.None?
    ensures var e := ItemEffect(course, mod, st.stack, it);
      ItemStep(course, mod, st, Ok(it)) == ModuleState(st.tasks + e.tasks, st.links + e.links, e.stack, e.panic)
  {
  }

  /** A module's contribution does not depend on what earlier modules submitted. */
  lemma {:induction false} ModuleRunAppends(course: CliCourse, mod: ModuleResp, tasks: seq<DownloadTask>, links: seq<UrlFile>,
                                            items: seq<Result<ModuleItemResp, Error>>)
    requires HostOk(course.canvas.client.host)
    ensures var one := ModuleRun(course, mod, Start, items);
      ModuleRun(course, mod, ModuleState(tasks, links, [], None), items) ==
        ModuleState(tasks + one.tasks, links + one.links, one.stack, one.panic)
    decreases |items|
  {
    if items != [] {
      var init := items[..|items| - 1];
      ModuleRunAppends(course, mod, tasks, links, init);
      var one := ModuleRun(course, mod, Start, init);
      var big := ModuleRun(course, mod, ModuleState(tasks, links, [], None), init);
      assert big == ModuleState(tasks + one.tasks, links + one.links, one.stack, one.panic);
      if one.panic.None? && items[|items| - 1].Ok? {
        var it := items[|items| - 1].value;
        var e := ItemEffect(course, mod, one.stack, it);
        ItemStepOk(course, mod, one, it);
        ItemStepOk(course, mod, big, it);
        AppendAssoc(tasks, one.tasks, e.tasks);
        AppendAssoc(links, one.links, e.links);
      }
    }
  }

  /** The binary never writes a shortcut file. */
  lemma {:induction false} ModuleRunNoLinks(course: CliCourse, mod: ModuleResp, st: ModuleState, items: seq<Result<ModuleItemResp, Error>>)
    requires HostOk(course.canvas.client.host)
    ensures ModuleRun(course, mod, st, items).links == st.links
    decreases |items|
  {
    if items != [] {
      ModuleRunNoLinks(course, mod, st, items[..|items| - 1]);
    }
  }

  /** Every file the binary's module mode fetches already has a URL, and no item is an external link with a URL. */
  predicate CliCompatible(course: CliCourse, items: seq<Result<ModuleItemResp, Error>>)
    requires HostOk(course.canvas.client.host)
  {
    forall i :: 0 <= i < |items| && items[i].Ok? ==> ItemCompatible(course, items[i].value)
  }

  /** The item is no external link with a URL, and a file it names already has a download URL. */
  predicate ItemCompatible(course: CliCourse, it: ModuleItemResp)
    requires HostOk(course.canvas.client.host)
  {
    ((it.kind == "ExternalUrl" || it.kind == "ExternalTool") ==> it.url.None?) &&
    (it.kind == "File" && it.contentId.Some? &&
      GetCourseFile(course.canvas.client, course.canvas.files, course.courseId, it.contentId.value).Ok? ==>
      GetCourseFile(course.canvas.client, course.canvas.files, course.courseId, it.contentId.value).value.url != "")
  }

  /** On a compatible item both planners have the same effect. */
  lemma ItemEffectsAgree(course: CliCourse, path: LocalPath, mod: ModuleResp, stack: seq<(int, ModuleItemResp)>,
                         it: ModuleItemResp)
    requires HostOk(course.canvas.client.host) && ItemCompatible(course, it)
    ensures ItemEffect(course, mod, stack, it) == Sync.ItemEffect(LibraryCourse(course, path), mod, stack, it)
  {
    if it.kind == "File" && it.contentId.Some? {
      var resp := GetCourseFile(course.canvas.client, course.canvas.files, course.courseId, it.contentId.value);
      if resp.Ok? {
        WithUrlFacts(course.canvas.client, resp.value);
      }
    }
  }

  /**
   * On a module whose files all have URLs and which has no external links,
   * the binary's module mode submits what the library's does, whatever the
   * library's destination root.
   */
  lemma {:induction false} ModulePlannersAgree(course: CliCourse, path: LocalPath, mod: ModuleResp, st: ModuleState,
                                               items: seq<Result<ModuleItemResp, Error>>)
    requires HostOk(course.canvas.client.host) && CliCompatible(course, items)
    ensures ModuleRun(course, mod, st, items) == Sync.ModuleRun(LibraryCourse(course, path), mod, st, items)
    decreases |items|
  {
    if items != [] {
      var n := |items| - 1;
      var init := items[..n];
      assert CliCompatible(course, init) by {
        forall i | 0 <= i < n && init[i].Ok? ensures init[i] == items[i] {
        }
      }
      ModulePlannersAgree(course, path, mod, st, init);
      if items[n].Ok? {
        ItemEffectsAgree(course, path, mod, ModuleRun(course, mod, st, init).stack, items[n].value);
      }
    }
  }

  /** The binary's loop body for one listed item. */
  method DownloadItem(course: CliCourse, mod: ModuleResp, indent: IndentStack<ModuleItemResp>,
                      downloader: Downloader, it: ModuleItemResp)
    returns (panic: Option<Panic>)
    requires HostOk(course.canvas.client.host)
    modifies indent, downloader
    ensures var e := ItemEffect(course, mod, old(indent.stack), it);
      downloader.queue == old(downloader.queue) + e.tasks && indent.stack == e.stack && panic == e.panic
  {
    panic := None;
    if it.kind == "SubHeader" {
      indent.Add(it.indent, it);
    } else if it.kind == "File" {
      if it.contentId.None? {
        return Some(NoContentId(it.id));
      }
      var resp := GetCourseFile(course.canvas.client, course.canvas.files, course.courseId, it.contentId.value);
      if resp.Err? {
        return Some(CourseFileFailed(resp.error));
      }
      var folder := [ModulesDir, mod.name] + Titles(indent.Get());
      SubmitAsListed(course.fs, downloader, resp.value, folder);
    }
  }

  /** Place a fetched file record in `folder` and submit it unless the local copy matches. */
  method SubmitAsListed(fs: FileSystem, downloader: Downloader, resp: FileResp, folder: seq<string>)
    modifies downloader
    ensures var task := DownloadTask(resp.url, LocalPathOf(folder, resp.displayName));
      downloader.queue == old(downloader.queue) + if Matches(fs, task.path, resp.size) then [] else [task]
  {
    var file := new File.FromResp(resp);
    file.folderPath := folder;
    var matches := file.LocalFileMatches(fs);
    if !matches {
      var task := file.IntoTask();
      downloader.Submit(task);
    }
  }

  /** One module of the binary's `download_modules`: a fresh stack, then every listed item. */
  method DownloadModule(course: CliCourse, mod: ModuleResp, downloader: Downloader)
    returns (panic: Option<Panic>)
    requires HostOk(course.canvas.client.host)
    requires Finite(course.canvas.modules.items, ItemsUrl(course.canvas.client, course.courseId, mod.id))
    modifies downloader
    ensures var one := ModuleRun(course, mod, Start, ModuleItems(course, mod));
      downloader.queue == old(downloader.queue) + one.tasks && panic == one.panic
  {
    var indent := new IndentStack<ModuleItemResp>();
    var items := ListModuleItems(course.canvas.client, course.canvas.modules, course.courseId, mod.id);
    assert items == ModuleItems(course, mod);
    panic := None;
    ghost var st := Start;
    for j := 0 to |items|
      invariant st == ModuleRun(course, mod, Start, items[..j]) && st.panic == None && panic == None
      invariant downloader.queue == old(downloader.queue) + st.tasks
      invariant indent.stack == st.stack
    {
      ModuleRunSnoc(course, mod, Start, items, j);
      if items[j].Ok? {
        ghost var e := ItemEffect(course, mod, st.stack, items[j].value);
        ItemStepOk(course, mod, st, items[j].value);
        panic := DownloadItem(course, mod, indent, downloader, items[j].value);
        AppendAssoc(old(downloader.queue), st.tasks, e.tasks);
      }
      st := ItemStep(course, mod, st, items[j]);
      if panic.Some? {
        ModuleRunAfterPanic(course, mod, Start, items, j + 1);
        return;
      }
    }
    assert items[..|items|] == items;
    assert st == ModuleRun(course, mod, Start, items);
  }

  /** The binary's `download_modules`: every listed module in order, each with its own stack. */
  method DownloadModules(courseId: int, canvas: Canvas, fs: FileSystem, downloader: Downloader)
    returns (panic: Option<Panic>)
    requires HostOk(canvas.client.host)
    requires Finite(canvas.modules.modules, ModulesUrl(canvas.client, courseId))
    requires ItemsFinite(CliCourse(canvas, courseId, fs), Stream(canvas.modules.modules, ModulesUrl(canvas.client, courseId)))
    modifies downloader
    ensures var r := CourseRun(CliCourse(canvas, courseId, fs), Stream(canvas.modules.modules, ModulesUrl(canvas.client, courseId)));
      downloader.queue == old(downloader.queue) + r.tasks && panic == r.panic
  {
    var course := CliCourse(canvas, courseId, fs);
    var modules := ListModules(canvas.client, canvas.modules, courseId);
    panic := None;
    ghost var st := Start;
    for i := 0 to |modules|
      invariant ItemsFinite(course, modules[..i])
      invariant st == CourseRun(course, modules[..i]) && st.panic == None && panic == None
      invariant downloader.queue == old(downloader.queue) + st.tasks
    {
      CourseRunSnoc(course, modules, i);
      if modules[i].Ok? {
        var m := modules[i].value;
        ghost var one := ModuleRun(course, m, Start, ModuleItems(course, m));
        ModuleRunAppends(course, m, st.tasks, st.links, ModuleItems(course, m));
        panic := DownloadModule(course, m, downloader);
        AppendAssoc(old(downloader.queue), st.tasks, one.tasks);
        st := ModuleRun(course, m, st.(stack := []), ModuleItems(course, m));
      }
      if panic.Some? {
        CourseRunAfterPanic(course, modules, i + 1);
        return;
      }
    }
    assert modules[..|modules|] == modules;
  }
}
