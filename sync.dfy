/**
 * The sync planners (src/sync.rs): the heading stack of module mode, the two
 * planners that turn remote listings into download tasks and URL shortcut
 * files, and the state they feed (the downloader's queue, the shortcut writer).
 */
module Sync {
  import opened Wrappers
  import opened Path
  import opened CanvasApi
  import opened CanvasFiles
  import opened CanvasModules
  import opened CanvasLmsSync

  // ---------------------------------------------------------------------------
  // IndentStack

  /** `retain(|(i, _)| *i < indent)`: the entries below the indent, in their order. */
  function KeepBelow<T>(s: seq<(int, T)>, indent: int): (r: seq<(int, T)>)
    ensures |r| <= |s|
    decreases |s|
  {
    if s == [] then []
    else (if s[0].0 < indent then [s[0]] else []) + KeepBelow(s[1..], indent)
  }

  /** `retain` keeps exactly the entries below the indent: each kept one is, and each one below is kept. */
  lemma {:induction false} KeepBelowMembers<T>(s: seq<(int, T)>, indent: int)
    ensures var r := KeepBelow(s, indent);
      && (forall i :: 0 <= i < |r| ==> r[i] in s && r[i].0 < indent)
      && (forall i :: 0 <= i < |s| && s[i].0 < indent ==> s[i] in r)
    decreases |s|
  {
    if s != [] {
      KeepBelowMembers(s[1..], indent);
      var r := KeepBelow(s, indent);
      var rt := KeepBelow(s[1..], indent);
      var h: seq<(int, T)> := if s[0].0 < indent then [s[0]] else [];
      assert r == h + rt;
      forall i | 0 <= i < |r| ensures r[i] in s && r[i].0 < indent {
        if i < |h| {
          assert r[i] == s[0];
        } else {
          assert r[i] == rt[i - |h|];
          assert rt[i - |h|] in s[1..];
        }
      }
      forall i | 0 <= i < |s| && s[i].0 < indent ensures s[i] in r {
        if i == 0 {
          assert r[0] == s[0];
        } else {
          assert s[i] == s[1..][i - 1];
          assert s[i] in rt;
        }
      }
    }
  }

  /** The stack after `add(indent, item)`. */
  function Pushed<T>(s: seq<(int, T)>, indent: int, item: T): seq<(int, T)> {
    KeepBelow(s, indent) + [(indent, item)]
  }

  /** The items of the entries, in stack order (`get`). */
  function Items<T>(s: seq<(int, T)>): (r: seq<T>)
    ensures |r| == |s|
    ensures forall i :: 0 <= i < |s| ==> r[i] == s[i].1
  {
    if s == [] then [] else [s[0].1] + Items(s[1..])
  }

  /** Indents strictly increase from the bottom of the stack to its top. */
  predicate Increasing<T>(s: seq<(int, T)>) {
    forall i, j :: 0 <= i < j < |s| ==> s[i].0 < s[j].0
  }

  lemma {:induction false} KeepBelowNone<T>(s: seq<(int, T)>, indent: int)
    requires forall i :: 0 <= i < |s| ==> s[i].0 >= indent
    ensures KeepBelow(s, indent) == []
    decreases |s|
  {
    if s != [] {
      KeepBelowNone(s[1..], indent);
    }
  }

  /**
   * On a stack with increasing indents, `retain` only pops: what it keeps is a
   * prefix, and everything it drops has an indent at or above the new one.
   */
  lemma {:induction false} KeepBelowIsPrefix<T>(s: seq<(int, T)>, indent: int)
    requires Increasing(s)
    ensures var r := KeepBelow(s, indent);
      r == s[..|r|] && forall i :: |r| <= i < |s| ==> s[i].0 >= indent
    decreases |s|
  {
    if s != [] {
      var tail := s[1..];
      assert Increasing(tail) by {
        forall i, j | 0 <= i < j < |tail| ensures tail[i].0 < tail[j].0 {
          assert tail[i] == s[i + 1] && tail[j] == s[j + 1];
        }
      }
      if s[0].0 >= indent {
        assert forall i :: 0 <= i < |tail| ==> tail[i] == s[i + 1];
        KeepBelowNone(tail, indent);
        assert KeepBelow(s, indent) == [] + [];
      } else {
        KeepBelowIsPrefix(tail, indent);
      }
    }
  }

  /** `add` keeps the indents strictly increasing. */
  lemma PushedIncreasing<T>(s: seq<(int, T)>, indent: int, item: T)
    requires Increasing(s)
    ensures Increasing(Pushed(s, indent, item))
  {
    KeepBelowIsPrefix(s, indent);
    KeepBelowMembers(s, indent);
    var r := KeepBelow(s, indent);
    var p := Pushed(s, indent, item);
    forall i, j | 0 <= i < j < |p| ensures p[i].0 < p[j].0 {
      if j < |r| {
        assert p[i] == s[i] && p[j] == s[j];
      } else {
        assert p[i] == r[i];
        assert r[i] in r;
      }
    }
  }

  /** `retain` looks at the bottom entry, then at the rest. */
  lemma KeepBelowCons<T>(x: (int, T), s: seq<(int, T)>, indent: int)
    ensures KeepBelow([x] + s, indent) == (if x.0 < indent then [x] else []) + KeepBelow(s, indent)
  {
    assert ([x] + s)[1..] == s;
  }

  lemma PushDeeper<T>(a: T, b: T)
    ensures Pushed([(1, a)], 2, b) == [(1, a), (2, b)]
  {
    KeepBelowCons((1, a), [], 2);
  }

  lemma PushSibling<T>(a: T, b: T, c: T)
    ensures Pushed([(1, a), (2, b)], 2, c) == [(1, a), (2, c)]
  {
    var s := [(1, a), (2, b)];
    assert s == [(1, a)] + [(2, b)];
    KeepBelowCons((1, a), [(2, b)], 2);
    KeepBelowCons((2, b), [], 2);
    assert KeepBelow(s, 2) == [(1, a)];
  }

  lemma PushOutermost<T>(a: T, c: T, d: T)
    ensures Pushed([(1, a), (2, c)], 1, d) == [(1, d)]
  {
    assert [(1, a), (2, c)] == [(1, a)] + [(2, c)];
    KeepBelowCons((1, a), [(2, c)], 1);
    KeepBelowCons((2, c), [], 1);
  }

  /** Adding (1,A), (2,B), (2,C), (1,D) gives [A], [A,B], [A,C], [D]. */
  lemma StackExample<T>(a: T, b: T, c: T, d: T)
    ensures var s1 := Pushed([], 1, a);
      var s2 := Pushed(s1, 2, b);
      var s3 := Pushed(s2, 2, c);
      var s4 := Pushed(s3, 1, d);
      Items(s1) == [a] && Items(s2) == [a, b] && Items(s3) == [a, c] && Items(s4) == [d]
  {
    assert Pushed([], 1, a) == [(1, a)];
    PushDeeper(a, b);
    PushSibling(a, b, c);
    PushOutermost(a, c, d);
  }

  /** `IndentStack<T>`: a `Vec<(i64, T)>` of the headings currently open. */
  class IndentStack<T> {
    var stack: seq<(int, T)>

    /** `IndentStack::new`. */
    constructor ()
      ensures stack == []
    {
      stack := [];
    }

    /** `add`: drops every entry at or above `indent`, then pushes `(indent, item)`. */
    method Add(indent: int, item: T)
      modifies this
      ensures stack == Pushed(old(stack), indent, item)
      ensures Increasing(old(stack)) ==> Increasing(stack)
    {
      if Increasing(stack) {
        PushedIncreasing(stack, indent, item);
      }
      stack := KeepBelow(stack, indent);
      stack := stack + [(indent, item)];
    }

    /** `get`: the items, bottom first. */
    function Get(): (r: seq<T>)
      reads this
      ensures |r| == |stack| && forall i :: 0 <= i < |stack| ==> r[i] == stack[i].1
    {
      Items(stack)
    }
  }

  // ---------------------------------------------------------------------------
  // What the planners drive

  /** `Downloader` as the planners see it: `submit` appends to its queue. */
  class Downloader {
    var queue: seq<DownloadTask>

    constructor ()
      ensures queue == []
    {
      queue := [];
    }

    method Submit(task: DownloadTask)
      modifies this
      ensures queue == old(queue) + [task]
    {
      queue := queue + [task];
    }
  }

  /** One call of `write_url_file(url, title, folder)`. */
  datatype UrlFile = UrlFile(url: string, title: string, folder: LocalPath)

  /**
   * `write_url_file`, whose body is not part of this model: every call is
   * recorded; `accepts` says which calls return `Ok`.
   */
  class UrlFileWriter {
    const accepts: UrlFile -> bool
    var written: seq<UrlFile>

    constructor (accepts: UrlFile -> bool)
      ensures this.accepts == accepts && written == []
    {
      this.accepts := accepts;
      written := [];
    }

    method Write(call: UrlFile) returns (ok: bool)
      modifies this
      ensures written == old(written) + [call] && ok == accepts(call)
    {
      written := written + [call];
      ok := accepts(call);
    }
  }

  /** `SyncConfig`. */
  datatype SyncConfig = SyncConfig(courseId: int, path: LocalPath)

  /** The server a planner talks to, by endpoint. */
  datatype Canvas = Canvas(client: Client, files: FilesApi, modules: ModulesApi)

  /** The `unwrap`/`expect` calls of the planners that end the run by panicking. */
  datatype Panic =
    | NoContentId(itemId: int)
    | CourseFileFailed(error: Error)
    | UrlFileFailed(call: UrlFile)
    | MissingFolder(folderId: int)

  /** The download URL guessed for a file the API lists without one. */
  function DownloadUrl(c: Client, f: FileResp): string
    requires HostOk(c.host)
  {
    BuildUrl(c.host, "/files/" + Decimal(f.id) + "/download?download_frd=1&verifier=" + f.uuid)
  }

  /** `if file.url == "" { file.url = build_url(...) }`. */
  function WithUrl(c: Client, f: FileResp): (r: FileResp)
    requires HostOk(c.host)
  {
    if f.url == "" then f.(url := DownloadUrl(c, f)) else f
  }

  /** After the fix-up every file has a URL; only the URL changes, and only when it was empty. */
  lemma WithUrlFacts(c: Client, f: FileResp)
    requires HostOk(c.host)
    ensures WithUrl(c, f).url != ""
    ensures f.url != "" ==> WithUrl(c, f) == f
    ensures f.url == "" ==> WithUrl(c, f) == f.(url := DownloadUrl(c, f))
    ensures f.url == "" ==> WithUrl(c, f).url[..|c.host|] == c.host
  {
  }

  // ---------------------------------------------------------------------------
  // download_files

  /** The folder map built from the folder listing: each `Ok` folder inserted in turn. */
  function FolderMapOf(items: seq<Result<FolderResp, Error>>): map<int, FolderResp>
    decreases |items|
  {
    if items == [] then map[]
    else
      var m := FolderMapOf(items[..|items| - 1]);
      match items[|items| - 1]
      case Ok(f) => m[f.id := f]
      case Err(_) => m
  }

  /**
   * An id is in the map exactly when some listed folder has it, and it is
   * mapped to the last folder listed with it.
   */
  lemma {:induction false} FolderMapOfLast(items: seq<Result<FolderResp, Error>>, id: int)
    ensures id in FolderMapOf(items) <==> exists i :: 0 <= i < |items| && items[i].Ok? && items[i].value.id == id
    ensures id in FolderMapOf(items) ==>
      exists i :: (0 <= i < |items| && items[i] == Ok(FolderMapOf(items)[id]) &&
        forall j :: i < j < |items| ==> !(items[j].Ok? && items[j].value.id == id))
    decreases |items|
  {
    if items != [] {
      var n := |items| - 1;
      var init := items[..n];
      FolderMapOfLast(init, id);
      assert forall i :: 0 <= i < n ==> init[i] == items[i];
      if items[n].Ok? && items[n].value.id == id {
        assert items[n] == Ok(FolderMapOf(items)[id]);
      } else if id in FolderMapOf(init) {
        assert FolderMapOf(items)[id] == FolderMapOf(init)[id];
        var i :| 0 <= i < |init| && init[i] == Ok(FolderMapOf(init)[id]) &&
          forall j :: i < j < |init| ==> !(init[j].Ok? && init[j].value.id == id);
        assert items[i] == Ok(FolderMapOf(items)[id]);
      }
    }
  }

  /** The folder walk terminates for every listed file (no cyclic parent chain). */
  ghost predicate ChainsEnd(m: map<int, FolderResp>, files: seq<Result<FileResp, Error>>) {
    forall i :: 0 <= i < |files| && files[i].Ok? ==> ChainEnds(m, files[i].value.folderId)
  }

  /** The download tasks submitted so far and whether the run has panicked. */
  datatype FilesState = FilesState(tasks: seq<DownloadTask>, panic: Option<Panic>)

  /** What `download_files` does with one item of the file listing. */
  ghost function FilesStep(c: Client, m: map<int, FolderResp>, fs: FileSystem, st: FilesState, item: Result<FileResp, Error>): FilesState
    requires HostOk(c.host)
    requires item.Ok? ==> ChainEnds(m, item.value.folderId)
  {
    if st.panic.Some? || item.Err? then st
    else
      var f := WithUrl(c, item.value);
      match FolderChain(m, f.folderId)
      case None => st.(panic := Some(MissingFolder(f.folderId)))
      case Some(folders) =>
        var task := DownloadTask(f.url, LocalPathOf(folders, f.displayName));
        if Matches(fs, task.path, f.size) then st else st.(tasks := st.tasks + [task])
  }

  /** `download_files` over the whole file listing, given the folder map. */
  ghost function FilesRun(c: Client, m: map<int, FolderResp>, fs: FileSystem, files: seq<Result<FileResp, Error>>): FilesState
    requires HostOk(c.host) && ChainsEnd(m, files)
    decreases |files|
  {
    if files == [] then FilesState([], None)
    else
      var init := files[..|files| - 1];
      assert ChainsEnd(m, init) by {
        forall i | 0 <= i < |init| && init[i].Ok? ensures ChainEnds(m, init[i].value.folderId) {
          assert init[i] == files[i];
        }
      }
      FilesStep(c, m, fs, FilesRun(c, m, fs, init), files[|files| - 1])
  }

  lemma {:induction false} FilesRunAfterPanic(c: Client, m: map<int, FolderResp>, fs: FileSystem, files: seq<Result<FileResp, Error>>, k: nat)
    requires HostOk(c.host) && ChainsEnd(m, files) && k <= |files|
    requires ChainsEnd(m, files[..k]) && FilesRun(c, m, fs, files[..k]).panic.Some?
    ensures FilesRun(c, m, fs, files) == FilesRun(c, m, fs, files[..k])
    decreases |files| - k
  {
    if k < |files| {
      var next := files[..k + 1];
      assert next[..k] == files[..k];
      assert ChainsEnd(m, next) by {
        forall i | 0 <= i < |next| && next[i].Ok? ensures ChainEnds(m, next[i].value.folderId) {
          assert next[i] == files[i];
        }
      }
      FilesRunAfterPanic(c, m, fs, files, k + 1);
    } else {
      assert files[..k] == files;
    }
  }

  lemma FilesRunSnoc(c: Client, m: map<int, FolderResp>, fs: FileSystem, files: seq<Result<FileResp, Error>>, i: nat)
    requires HostOk(c.host) && ChainsEnd(m, files) && i < |files|
    ensures ChainsEnd(m, files[..i]) && ChainsEnd(m, files[..i + 1])
    ensures files[i].Ok? ==> ChainEnds(m, files[i].value.folderId)
    ensures FilesRun(c, m, fs, files[..i + 1]) == FilesStep(c, m, fs, FilesRun(c, m, fs, files[..i]), files[i])
  {
    var prefix := files[..i + 1];
    assert prefix[..i] == files[..i];
    assert forall k :: 0 <= k < |prefix| ==> prefix[k] == files[k];
  }

  /** A step from a state that has not panicked only appends to it. */
  lemma FilesStepAppends(c: Client, m: map<int, FolderResp>, fs: FileSystem, tasks: seq<DownloadTask>, item: Result<FileResp, Error>)
    requires HostOk(c.host)
    requires item.Ok? ==> ChainEnds(m, item.value.folderId)
    ensures var one := FilesStep(c, m, fs, FilesState([], None), item);
      FilesStep(c, m, fs, FilesState(tasks, None), item) == FilesState(tasks + one.tasks, one.panic)
  {
  }

  /** The body of `download_files`' loop for one listed file. */
  method DownloadFile(c: Client, folders: map<int, FolderResp>, fs: FileSystem, downloader: Downloader, resp: FileResp)
    returns (found: bool)
    requires HostOk(c.host) && ChainEnds(folders, resp.folderId)
    modifies downloader
    ensures var one := FilesStep(c, folders, fs, FilesState([], None), Ok(resp));
      downloader.queue == old(downloader.queue) + one.tasks && (found <==> one.panic == None)
  {
    var r := resp;
    if r.url == "" {
      r := r.(url := DownloadUrl(c, r));
    }
    assert r == WithUrl(c, resp);
    var file := new File.FromResp(r);
    found := file.SetFolderPath(folders, r.folderId);
    if found {
      var matches := file.LocalFileMatches(fs);
      if !matches {
        var task := file.IntoTask();
        downloader.Submit(task);
      }
    }
  }

  /** The folder map of `download_files`, built by inserting each listed folder. */
  method BuildFolderMap(folderItems: seq<Result<FolderResp, Error>>) returns (folders: map<int, FolderResp>)
    ensures folders == FolderMapOf(folderItems)
  {
    folders := map[];
    for i := 0 to |folderItems|
      invariant folders == FolderMapOf(folderItems[..i])
    {
      assert folderItems[..i + 1][..i] == folderItems[..i];
      if folderItems[i].Ok? {
        var folder := folderItems[i].value;
        folders := folders[folder.id := folder];
      }
    }
    assert folderItems[..|folderItems|] == folderItems;
  }

  /** The file loop of `download_files`, over an already fetched listing. */
  method DownloadListedFiles(c: Client, folders: map<int, FolderResp>, fs: FileSystem, downloader: Downloader,
                             fileItems: seq<Result<FileResp, Error>>)
    returns (panic: Option<Panic>)
    requires HostOk(c.host) && ChainsEnd(folders, fileItems)
    modifies downloader
    ensures var r := FilesRun(c, folders, fs, fileItems);
      downloader.queue == old(downloader.queue) + r.tasks && panic == r.panic
  {
    panic := None;
    ghost var st := FilesState([], None);
    for i := 0 to |fileItems|
      invariant ChainsEnd(folders, fileItems[..i])
      invariant st == FilesRun(c, folders, fs, fileItems[..i]) && st.panic == None
      invariant downloader.queue == old(downloader.queue) + st.tasks
    {
      FilesRunSnoc(c, folders, fs, fileItems, i);
      if fileItems[i].Ok? {
        var resp := fileItems[i].value;
        FilesStepAppends(c, folders, fs, st.tasks, fileItems[i]);
        ghost var one := FilesStep(c, folders, fs, FilesState([], None), fileItems[i]);
        var found := DownloadFile(c, folders, fs, downloader, resp);
        AppendAssoc(old(downloader.queue), st.tasks, one.tasks);
        st := FilesState(st.tasks + one.tasks, one.panic);
        if !found {
          panic := Some(MissingFolder(resp.folderId));
          FilesRunAfterPanic(c, folders, fs, fileItems, i + 1);
          assert fileItems[..|fileItems|] == fileItems;
          return;
        }
      }
    }
    assert fileItems[..|fileItems|] == fileItems;
  }

  /**
   * `download_files`: the whole folder listing becomes the folder map first;
   * then every listed file gets its URL fixed up and its folder path, and is
   * submitted unless the local copy matches. Errors of either listing are
   * only logged.
   */
  method DownloadFiles(config: SyncConfig, canvas: Canvas, fs: FileSystem, downloader: Downloader)
    returns (panic: Option<Panic>)
    requires HostOk(canvas.client.host)
    requires Finite(canvas.files.folders, FoldersUrl(canvas.client, config.courseId))
    requires Finite(canvas.files.files, FilesUrl(canvas.client, config.courseId))
    requires ChainsEnd(FolderMapOf(Stream(canvas.files.folders, FoldersUrl(canvas.client, config.courseId))),
                       Stream(canvas.files.files, FilesUrl(canvas.client, config.courseId)))
    modifies downloader
    ensures var r := FilesRun(canvas.client,
                              FolderMapOf(Stream(canvas.files.folders, FoldersUrl(canvas.client, config.courseId))),
                              fs, Stream(canvas.files.files, FilesUrl(canvas.client, config.courseId)));
      downloader.queue == old(downloader.queue) + r.tasks && panic == r.panic
  {
    var folderItems := GetAllFolders(canvas.client, canvas.files, config.courseId);
    var folders := BuildFolderMap(folderItems);
    var fileItems := GetAllFiles(canvas.client, canvas.files, config.courseId);
    panic := DownloadListedFiles(canvas.client, folders, fs, downloader, fileItems);
  }

  // ---------------------------------------------------------------------------
  // What download_files submits, stated without the skip rule

  /** A file that `download_files` would download if nothing were on disk, with its remote size. */
  datatype Candidate = Candidate(task: DownloadTask, size: I64)

  /** The candidates of a file listing and the panic that ends the run, if any. */
  datatype Candidates = Candidates(files: seq<Candidate>, panic: Option<Panic>)

  /** Every listed file up to the first one whose folder is missing, independent of the local disk. */
  ghost function FileCandidates(c: Client, m: map<int, FolderResp>, files: seq<Result<FileResp, Error>>): Candidates
    requires HostOk(c.host) && ChainsEnd(m, files)
    decreases |files|
  {
    if files == [] then Candidates([], None)
    else
      var init := files[..|files| - 1];
      assert ChainsEnd(m, init) by {
        forall i | 0 <= i < |init| && init[i].Ok? ensures ChainEnds(m, init[i].value.folderId) {
          assert init[i] == files[i];
        }
      }
      var prev := FileCandidates(c, m, init);
      var item := files[|files| - 1];
      if prev.panic.Some? || item.Err? then prev
      else
        var f := WithUrl(c, item.value);
        match FolderChain(m, f.folderId)
        case None => prev.(panic := Some(MissingFolder(f.folderId)))
        case Some(folders) =>
          prev.(files := prev.files + [Candidate(DownloadTask(f.url, LocalPathOf(folders, f.displayName)), f.size)])
  }

  /** The candidates whose local copy does not match, in order. */
  function Missing(fs: FileSystem, cs: seq<Candidate>): (r: seq<DownloadTask>)
    ensures |r| <= |cs|
    decreases |cs|
  {
    if cs == [] then []
    else
      var last := cs[|cs| - 1];
      Missing(fs, cs[..|cs| - 1]) + (if Matches(fs, last.task.path, last.size) then [] else [last.task])
  }

  /** The download tasks of the candidates. */
  function Tasks(cs: seq<Candidate>): (r: seq<DownloadTask>)
    ensures |r| == |cs| && forall i :: 0 <= i < |cs| ==> r[i] == cs[i].task
    decreases |cs|
  {
    if cs == [] then [] else Tasks(cs[..|cs| - 1]) + [cs[|cs| - 1].task]
  }

  /**
   * `download_files` submits exactly the candidates whose local copy does not
   * match, in listing order, and panics exactly where the candidates end.
   */
  lemma {:induction false} FilesRunIsMissing(c: Client, m: map<int, FolderResp>, fs: FileSystem, files: seq<Result<FileResp, Error>>)
    requires HostOk(c.host) && ChainsEnd(m, files)
    ensures var cands := FileCandidates(c, m, files);
      FilesRun(c, m, fs, files) == FilesState(Missing(fs, cands.files), cands.panic)
    decreases |files|
  {
    if files != [] {
      var n := |files| - 1;
      FilesRunSnoc(c, m, fs, files, n);
      assert files[..n + 1] == files;
      FilesRunIsMissing(c, m, fs, files[..n]);
      var prev := FileCandidates(c, m, files[..n]);
      if prev.panic.None? && files[n].Ok? {
        var f := WithUrl(c, files[n].value);
        if FolderChain(m, f.folderId).Some? {
          var cs := prev.files + [Candidate(DownloadTask(f.url, LocalPathOf(FolderChain(m, f.folderId).value, f.displayName)), f.size)];
          assert cs[..|cs| - 1] == prev.files;
        }
      }
    }
  }

  lemma {:induction false} MissingNone(fs: FileSystem, cs: seq<Candidate>)
    requires forall i :: 0 <= i < |cs| ==> Matches(fs, cs[i].task.path, cs[i].size)
    ensures Missing(fs, cs) == []
    decreases |cs|
  {
    if cs != [] {
      MissingNone(fs, cs[..|cs| - 1]);
    }
  }

  lemma {:induction false} MissingAll(fs: FileSystem, cs: seq<Candidate>)
    requires forall i :: 0 <= i < |cs| ==> cs[i].task.path !in fs
    ensures Missing(fs, cs) == Tasks(cs)
    decreases |cs|
  {
    if cs != [] {
      MissingAll(fs, cs[..|cs| - 1]);
    }
  }

  /**
   * Once every candidate's local copy matches its remote size, a run against
   * the same listings submits nothing and panics exactly where the candidates end.
   */
  lemma MatchingRunSubmitsNothing(c: Client, m: map<int, FolderResp>, fs: FileSystem, files: seq<Result<FileResp, Error>>)
    requires HostOk(c.host) && ChainsEnd(m, files)
    requires var cs := FileCandidates(c, m, files).files;
      forall i :: 0 <= i < |cs| ==> Matches(fs, cs[i].task.path, cs[i].size)
    ensures FilesRun(c, m, fs, files) == FilesState([], FileCandidates(c, m, files).panic)
  {
    FilesRunIsMissing(c, m, fs, files);
    MissingNone(fs, FileCandidates(c, m, files).files);
  }

  /** The candidates whose local copy does not match, in order, with their sizes. */
  function Unmatched(fs: FileSystem, cs: seq<Candidate>): (r: seq<Candidate>)
    ensures |r| <= |cs|
    decreases |cs|
  {
    if cs == [] then []
    else
      var last := cs[|cs| - 1];
      Unmatched(fs, cs[..|cs| - 1]) + (if Matches(fs, last.task.path, last.size) then [] else [last])
  }

  lemma {:induction false} TasksAppend(a: seq<Candidate>, b: seq<Candidate>)
    ensures Tasks(a + b) == Tasks(a) + Tasks(b)
  {
    assert forall i :: 0 <= i < |a| + |b| ==> (a + b)[i].task == (Tasks(a) + Tasks(b))[i];
  }

  /** What `Missing` submits is the tasks of the unmatched candidates. */
  lemma {:induction false} MissingIsUnmatched(fs: FileSystem, cs: seq<Candidate>)
    ensures Missing(fs, cs) == Tasks(Unmatched(fs, cs))
    decreases |cs|
  {
    if cs != [] {
      var init, last := cs[..|cs| - 1], cs[|cs| - 1];
      MissingIsUnmatched(fs, init);
      TasksAppend(Unmatched(fs, init), if Matches(fs, last.task.path, last.size) then [] else [last]);
    }
  }

  /** Every unmatched candidate is a candidate, and every candidate that does not match is unmatched. */
  lemma {:induction false} UnmatchedMembers(fs: FileSystem, cs: seq<Candidate>)
    ensures forall k :: 0 <= k < |Unmatched(fs, cs)| ==> Unmatched(fs, cs)[k] in cs
    ensures forall i :: 0 <= i < |cs| && !Matches(fs, cs[i].task.path, cs[i].size) ==> cs[i] in Unmatched(fs, cs)
    decreases |cs|
  {
    if cs != [] {
      var init := cs[..|cs| - 1];
      UnmatchedMembers(fs, init);
      assert forall k :: 0 <= k < |init| ==> init[k] == cs[k];
    }
  }

  /** The disk after the file of each candidate of `us` is written at its listed size, in order. */
  function Downloaded(fs: FileSystem, us: seq<Candidate>): FileSystem
    decreases |us|
  {
    if us == [] then fs
    else Downloaded(fs, us[..|us| - 1])[us[|us| - 1].task.path := AsU64(us[|us| - 1].size)]
  }

  /** Some candidate of `us` is written to `p`. */
  predicate WrittenTo(us: seq<Candidate>, p: LocalPath) {
    exists k :: 0 <= k < |us| && us[k].task.path == p
  }

  /** A path nobody writes keeps what it held; a written path holds the size of one of its writers. */
  lemma {:induction false} DownloadedAt(fs: FileSystem, us: seq<Candidate>, p: LocalPath)
    ensures !WrittenTo(us, p) ==> (p in Downloaded(fs, us) <==> p in fs) && (p in fs ==> Downloaded(fs, us)[p] == fs[p])
    ensures WrittenTo(us, p) ==>
      && p in Downloaded(fs, us)
      && exists k :: 0 <= k < |us| && us[k].task.path == p && Downloaded(fs, us)[p] == AsU64(us[k].size)
    decreases |us|
  {
    if us != [] {
      var n := |us| - 1;
      var init := us[..n];
      DownloadedAt(fs, init, p);
      assert forall k :: 0 <= k < n ==> init[k] == us[k];
      if us[n].task.path != p {
        if WrittenTo(us, p) {
          var k :| 0 <= k < |us| && us[k].task.path == p;
          assert init[k] == us[k];
          var j :| 0 <= j < n && init[j].task.path == p && Downloaded(fs, init)[p] == AsU64(init[j].size);
          assert us[j] == init[j];
        } else {
          assert forall k :: 0 <= k < n ==> init[k].task.path != p;
        }
      }
    }
  }

  /** Candidates that share a local path have the same size, so the order in which their files land does not matter. */
  predicate SizesAgree(cs: seq<Candidate>) {
    forall i, j :: 0 <= i < |cs| && 0 <= j < |cs| && cs[i].task.path == cs[j].task.path ==>
      AsU64(cs[i].size) == AsU64(cs[j].size)
  }

  /** After the unmatched candidates are written out, every candidate matches. */
  lemma DownloadsMatch(fs: FileSystem, cs: seq<Candidate>)
    requires SizesAgree(cs)
    ensures forall i :: 0 <= i < |cs| ==> Matches(Downloaded(fs, Unmatched(fs, cs)), cs[i].task.path, cs[i].size)
  {
    var us := Unmatched(fs, cs);
    var after := Downloaded(fs, us);
    UnmatchedMembers(fs, cs);
    forall i | 0 <= i < |cs| ensures Matches(after, cs[i].task.path, cs[i].size) {
      var p := cs[i].task.path;
      DownloadedAt(fs, us, p);
      if !Matches(fs, p, cs[i].size) {
        var k :| 0 <= k < |us| && us[k] == cs[i];
        assert WrittenTo(us, p);
      }
      if WrittenTo(us, p) {
        var k :| 0 <= k < |us| && us[k].task.path == p && after[p] == AsU64(us[k].size);
        var j :| 0 <= j < |cs| && cs[j] == us[k];
        assert AsU64(cs[i].size) == AsU64(cs[j].size);
      }
    }
  }

  /**
   * Running `download_files` twice. The first run submits the unmatched
   * candidates; once their files are written at their listed sizes, the second
   * run over the same listings submits nothing and panics where the first did,
   * provided candidates that share a local path agree on their size.
   */
  lemma SecondRunSubmitsNothing(c: Client, m: map<int, FolderResp>, fs: FileSystem, files: seq<Result<FileResp, Error>>)
    requires HostOk(c.host) && ChainsEnd(m, files)
    requires SizesAgree(FileCandidates(c, m, files).files)
    ensures var cands := FileCandidates(c, m, files);
      var first := FilesRun(c, m, fs, files);
      var us := Unmatched(fs, cands.files);
      && first == FilesState(Tasks(us), cands.panic)
      && FilesRun(c, m, Downloaded(fs, us), files) == FilesState([], first.panic)
  {
    var cs := FileCandidates(c, m, files).files;
    FilesRunIsMissing(c, m, fs, files);
    MissingIsUnmatched(fs, cs);
    DownloadsMatch(fs, cs);
    MatchingRunSubmitsNothing(c, m, Downloaded(fs, Unmatched(fs, cs)), files);
  }

  /** `:` and `?` are both replaced by `_`, so `a:b` and `a?b` are stored under the same name. */
  lemma ColonAndQuestionMarkCollide()
    ensures SanitizeFileName("a:b") == "a_b" && SanitizeFileName("a?b") == "a_b"
  {
    var r1, r2 := SanitizeFileName("a:b"), SanitizeFileName("a?b");
    assert r1[0] == 'a' && r1[1] == '_' && r1[2] == 'b';
    assert r2[0] == 'a' && r2[1] == '_' && r2[2] == 'b';
  }

  /** Two files at the course root named `a:b` and `a?b`: both candidates go to `a_b`. */
  lemma CollidingCandidates(c: Client, m: map<int, FolderResp>, f1: FileResp, f2: FileResp)
    requires HostOk(c.host)
    requires f1.folderId == 0 && f1.displayName == "a:b" && f1.url != ""
    requires f2.folderId == 0 && f2.displayName == "a?b" && f2.url != ""
    ensures ChainsEnd(m, [Ok(f1), Ok(f2)])
    ensures FileCandidates(c, m, [Ok(f1), Ok(f2)]) ==
      Candidates([Candidate(DownloadTask(f1.url, ["a_b"]), f1.size), Candidate(DownloadTask(f2.url, ["a_b"]), f2.size)], None)
  {
    var files: seq<Result<FileResp, Error>> := [Ok(f1), Ok(f2)];
    assert ChainEndsWithin(m, 0, 0);
    FolderChainStep(m, 0);
    assert ChainsEnd(m, files);
    WithUrlFacts(c, f1);
    WithUrlFacts(c, f2);
    ColonAndQuestionMarkCollide();
    assert LocalPathOf([], "a:b") == ["a_b"] && LocalPathOf([], "a?b") == ["a_b"];
    var one: seq<Result<FileResp, Error>> := [Ok(f1)];
    assert files[..1] == one && one[..0] == [];
    assert ChainsEnd(m, one);
    var c1 := Candidate(DownloadTask(f1.url, ["a_b"]), f1.size);
    assert FileCandidates(c, m, one) == Candidates([c1], None);
  }

  /**
   * With two files whose names sanitise to the same path and whose sizes
   * differ, no disk the downloads can leave makes a second run submit nothing:
   * whichever file lands last, the other one is fetched again.
   */
  lemma CollidingNamesRedownload(c: Client, m: map<int, FolderResp>, f1: FileResp, f2: FileResp)
    requires HostOk(c.host)
    requires f1.folderId == 0 && f1.displayName == "a:b" && f1.url != "" && f1.size == 1
    requires f2.folderId == 0 && f2.displayName == "a?b" && f2.url != "" && f2.size == 2
    ensures ChainsEnd(m, [Ok(f1), Ok(f2)])
    ensures var files := [Ok(f1), Ok(f2)];
      var t1, t2 := DownloadTask(f1.url, ["a_b"]), DownloadTask(f2.url, ["a_b"]);
      && !SizesAgree(FileCandidates(c, m, files).files)
      && FilesRun(c, m, map[], files) == FilesState([t1, t2], None)
      && FilesRun(c, m, map[["a_b"] := 2], files) == FilesState([t1], None)
      && FilesRun(c, m, map[["a_b"] := 1], files) == FilesState([t2], None)
  {
    var files: seq<Result<FileResp, Error>> := [Ok(f1), Ok(f2)];
    CollidingCandidates(c, m, f1, f2);
    var cs := FileCandidates(c, m, files).files;
    assert cs == [cs[0], cs[1]];
    assert !SizesAgree(cs) by {
      assert cs[0].task.path == cs[1].task.path && AsU64(cs[0].size) != AsU64(cs[1].size);
    }
    CollidingRun(c, m, f1, f2, map[]);
    CollidingRun(c, m, f1, f2, map[["a_b"] := 2]);
    CollidingRun(c, m, f1, f2, map[["a_b"] := 1]);
  }

  /** The run over the two colliding files against any disk: each is submitted unless `a_b` matches its size. */
  lemma CollidingRun(c: Client, m: map<int, FolderResp>, f1: FileResp, f2: FileResp, fs: FileSystem)
    requires HostOk(c.host)
    requires f1.folderId == 0 && f1.displayName == "a:b" && f1.url != ""
    requires f2.folderId == 0 && f2.displayName == "a?b" && f2.url != ""
    ensures ChainsEnd(m, [Ok(f1), Ok(f2)])
    ensures FilesRun(c, m, fs, [Ok(f1), Ok(f2)]) == FilesState(
      (if Matches(fs, ["a_b"], f1.size) then [] else [DownloadTask(f1.url, ["a_b"])]) +
      (if Matches(fs, ["a_b"], f2.size) then [] else [DownloadTask(f2.url, ["a_b"])]), None)
  {
    var files: seq<Result<FileResp, Error>> := [Ok(f1), Ok(f2)];
    CollidingCandidates(c, m, f1, f2);
    var cs := FileCandidates(c, m, files).files;
    FilesRunIsMissing(c, m, fs, files);
    MissingOfTwo(fs, cs[0], cs[1]);
  }

  lemma MissingOfTwo(fs: FileSystem, x: Candidate, y: Candidate)
    ensures Missing(fs, [x, y]) ==
      (if Matches(fs, x.task.path, x.size) then [] else [x.task]) +
      (if Matches(fs, y.task.path, y.size) then [] else [y.task])
  {
    assert [x, y][..1] == [x] && [x][..0] == [];
  }

  /** Against a destination that has none of the candidate paths, every candidate is submitted. */
  lemma FreshRunSubmitsAll(c: Client, m: map<int, FolderResp>, fs: FileSystem, files: seq<Result<FileResp, Error>>)
    requires HostOk(c.host) && ChainsEnd(m, files)
    requires var cs := FileCandidates(c, m, files).files;
      forall i :: 0 <= i < |cs| ==> cs[i].task.path !in fs
    ensures FilesRun(c, m, fs, files).tasks == Tasks(FileCandidates(c, m, files).files)
  {
    FilesRunIsMissing(c, m, fs, files);
    MissingAll(fs, FileCandidates(c, m, files).files);
  }

  // ---------------------------------------------------------------------------
  // download_modules

  /** The titles of the stacked headings. */
  function Titles(items: seq<ModuleItemResp>): (r: seq<string>)
    ensures |r| == |items| && forall i :: 0 <= i < |items| ==> r[i] == items[i].title
  {
    if items == [] then [] else [items[0].title] + Titles(items[1..])
  }

  /** The top-level folder of module mode. */
  const ModulesDir: string := "Modules"

  /** The folder path a File item gets: `Modules`, the module's name, then the open headings' titles. */
  function ModuleFolder(mod: ModuleResp, stack: seq<(int, ModuleItemResp)>): seq<string> {
    [ModulesDir, mod.name] + Titles(Items(stack))
  }

  /** The `write_url_file` call for an external link item. */
  function LinkCall(config: SyncConfig, mod: ModuleResp, title: string, url: string): UrlFile {
    UrlFile(url, title, config.path + [ModulesDir, SanitizeFileName(mod.name), SanitizeFileName(title)])
  }

  /** Everything module mode depends on besides the listings themselves. */
  datatype Course = Course(canvas: Canvas, config: SyncConfig, fs: FileSystem, accepts: UrlFile -> bool)

  /** Submitted tasks, `write_url_file` calls, the current module's heading stack, and a panic if one happened. */
  datatype ModuleState = ModuleState(
    tasks: seq<DownloadTask>,
    links: seq<UrlFile>,
    stack: seq<(int, ModuleItemResp)>,
    panic: Option<Panic>)

  const Start: ModuleState := ModuleState([], [], [], None)

  /** The download task for a fetched file record placed in `folder`, after the URL fix-up. */
  function FileTask(c: Client, resp: FileResp, folder: seq<string>): DownloadTask
    requires HostOk(c.host)
  {
    var f := WithUrl(c, resp);
    DownloadTask(f.url, LocalPathOf(folder, f.displayName))
  }

  /** The skip rule applied to that task: nothing if the local copy matches. */
  function Submission(c: Client, fs: FileSystem, resp: FileResp, folder: seq<string>): seq<DownloadTask>
    requires HostOk(c.host)
  {
    var task := FileTask(c, resp, folder);
    if Matches(fs, task.path, resp.size) then [] else [task]
  }

  /** A File item: fetch the file record, fix up its URL, and submit it unless the local copy matches. */
  function FileEffect(course: Course, mod: ModuleResp, stack: seq<(int, ModuleItemResp)>, it: ModuleItemResp): (e: ModuleState)
    requires HostOk(course.canvas.client.host)
    ensures e.links == [] && e.stack == stack && |e.tasks| <= 1
  {
    if it.contentId.None? then ModuleState([], [], stack, Some(NoContentId(it.id)))
    else
      var resp := GetCourseFile(course.canvas.client, course.canvas.files, course.config.courseId, it.contentId.value);
      if resp.Err? then ModuleState([], [], stack, Some(CourseFileFailed(resp.error)))
      else ModuleState(Submission(course.canvas.client, course.fs, resp.value, ModuleFolder(mod, stack)), [], stack, None)
  }

  /** An ExternalUrl or ExternalTool item: one `write_url_file` call when it has a URL. */
  function LinkEffect(course: Course, mod: ModuleResp, stack: seq<(int, ModuleItemResp)>, it: ModuleItemResp): (e: ModuleState)
    ensures e.tasks == [] && e.stack == stack && |e.links| <= 1
  {
    if it.url.None? then ModuleState([], [], stack, None)
    else
      var call := LinkCall(course.config, mod, it.title, it.url.value);
      ModuleState([], [call], stack, if course.accepts(call) then None else Some(UrlFileFailed(call)))
  }

  /** What one listed item adds, given the heading stack before it. */
  function ItemEffect(course: Course, mod: ModuleResp, stack: seq<(int, ModuleItemResp)>, it: ModuleItemResp): ModuleState
    requires HostOk(course.canvas.client.host)
  {
    if it.kind == "SubHeader" then ModuleState([], [], Pushed(stack, it.indent, it), None)
    else if it.kind == "File" then FileEffect(course, mod, stack, it)
    else if it.kind == "ExternalUrl" || it.kind == "ExternalTool" then LinkEffect(course, mod, stack, it)
    else ModuleState([], [], stack, None)
  }

  /** What `download_modules` does with one item of a module's item listing. */
  function ItemStep(course: Course, mod: ModuleResp, st: ModuleState, item: Result<ModuleItemResp, Error>): ModuleState
    requires HostOk(course.canvas.client.host)
  {
    if st.panic.Some? || item.Err? then st
    else
      var e := ItemEffect(course, mod, st.stack, item.value);
      ModuleState(st.tasks + e.tasks, st.links + e.links, e.stack, e.panic)
  }

  /** `download_modules` over one module's item listing, from state `st`. */
  function ModuleRun(course: Course, mod: ModuleResp, st: ModuleState, items: seq<Result<ModuleItemResp, Error>>): ModuleState
    requires HostOk(course.canvas.client.host)
    decreases |items|
  {
    if items == [] then st
    else ItemStep(course, mod, ModuleRun(course, mod, st, items[..|items| - 1]), items[|items| - 1])
  }

  /** The item listing of a module. */
  ghost function ModuleItems(course: Course, mod: ModuleResp): seq<Result<ModuleItemResp, Error>>
    requires HostOk(course.canvas.client.host)
    requires Finite(course.canvas.modules.items, ItemsUrl(course.canvas.client, course.config.courseId, mod.id))
  {
    Stream(course.canvas.modules.items, ItemsUrl(course.canvas.client, course.config.courseId, mod.id))
  }

  /** Every listed module's item listing ends. */
  ghost predicate ItemsFinite(course: Course, modules: seq<Result<ModuleResp, Error>>)
    requires HostOk(course.canvas.client.host)
  {
    forall i :: 0 <= i < |modules| && modules[i].Ok? ==>
      Finite(course.canvas.modules.items, ItemsUrl(course.canvas.client, course.config.courseId, modules[i].value.id))
  }

  /** `download_modules` over the module listing; every module starts with an empty stack. */
  ghost function CourseRun(course: Course, modules: seq<Result<ModuleResp, Error>>): ModuleState
    requires HostOk(course.canvas.client.host) && ItemsFinite(course, modules)
    decreases |modules|
  {
    if modules == [] then Start
    else
      var init := modules[..|modules| - 1];
      assert ItemsFinite(course, init) by {
        forall i | 0 <= i < |init| && init[i].Ok?
          ensures Finite(course.canvas.modules.items, ItemsUrl(course.canvas.client, course.config.courseId, init[i].value.id))
        {
          assert init[i] == modules[i];
        }
      }
      var prev := CourseRun(course, init);
      var m := modules[|modules| - 1];
      if prev.panic.Some? || m.Err? then prev
      else ModuleRun(course, m.value, prev.(stack := []), ModuleItems(course, m.value))
  }

  lemma CourseRunSnoc(course: Course, modules: seq<Result<ModuleResp, Error>>, i: nat)
    requires HostOk(course.canvas.client.host) && ItemsFinite(course, modules) && i < |modules|
    ensures ItemsFinite(course, modules[..i]) && ItemsFinite(course, modules[..i + 1])
    ensures var prev := CourseRun(course, modules[..i]);
      CourseRun(course, modules[..i + 1]) ==
        if prev.panic.Some? || modules[i].Err? then prev
        else ModuleRun(course, modules[i].value, prev.(stack := []), ModuleItems(course, modules[i].value))
  {
    var prefix := modules[..i + 1];
    assert prefix[..i] == modules[..i];
    assert forall k :: 0 <= k < |prefix| ==> prefix[k] == modules[k];
  }

  lemma ModuleRunSnoc(course: Course, mod: ModuleResp, st: ModuleState, items: seq<Result<ModuleItemResp, Error>>, j: nat)
    requires HostOk(course.canvas.client.host) && j < |items|
    ensures ModuleRun(course, mod, st, items[..j + 1]) == ItemStep(course, mod, ModuleRun(course, mod, st, items[..j]), items[j])
  {
    assert items[..j + 1][..j] == items[..j];
  }

  lemma AppendAssoc<T>(a: seq<T>, b: seq<T>, c: seq<T>)
    ensures a + b + c == a + (b + c)
  {
  }

  lemma ItemStepOk(course: Course, mod: ModuleResp, st: ModuleState, it: ModuleItemResp)
    requires HostOk(course.canvas.client.host) && st.panic.None?
    ensures var e := ItemEffect(course, mod, st.stack, it);
      ItemStep(course, mod, st, Ok(it)) == ModuleState(st.tasks + e.tasks, st.links + e.links, e.stack, e.panic)
  {
  }

  /** A heading item only pushes onto the indent stack. */
  lemma HeadingStep(course: Course, mod: ModuleResp, stack: seq<(int, ModuleItemResp)>, h: ModuleItemResp)
    requires HostOk(course.canvas.client.host) && h.kind == "SubHeader"
    ensures ItemStep(course, mod, ModuleState([], [], stack, None), Ok(h)) == ModuleState([], [], Pushed(stack, h.indent, h), None)
  {
  }

  /** A panicked state is final: no later item changes it. */
  lemma {:induction false} ModuleRunAfterPanic(course: Course, mod: ModuleResp, st: ModuleState, items: seq<Result<ModuleItemResp, Error>>, k: nat)
    requires HostOk(course.canvas.client.host) && k <= |items|
    requires ModuleRun(course, mod, st, items[..k]).panic.Some?
    ensures ModuleRun(course, mod, st, items) == ModuleRun(course, mod, st, items[..k])
    decreases |items| - k
  {
    if k < |items| {
      assert items[..k + 1][..k] == items[..k];
      ModuleRunAfterPanic(course, mod, st, items, k + 1);
    } else {
      assert items[..k] == items;
    }
  }

  lemma {:induction false} CourseRunAfterPanic(course: Course, modules: seq<Result<ModuleResp, Error>>, k: nat)
    requires HostOk(course.canvas.client.host) && ItemsFinite(course, modules) && k <= |modules|
    requires ItemsFinite(course, modules[..k]) && CourseRun(course, modules[..k]).panic.Some?
    ensures CourseRun(course, modules) == CourseRun(course, modules[..k])
    decreases |modules| - k
  {
    if k < |modules| {
      CourseRunSnoc(course, modules, k);
      CourseRunAfterPanic(course, modules, k + 1);
    } else {
      assert modules[..k] == modules;
    }
  }

  /**
   * What a module contributes depends only on its own items: a run from any
   * state that has not panicked and has an empty stack appends exactly what
   * a run from the start state produces.
   */
  lemma {:induction false} ModuleRunAppends(course: Course, mod: ModuleResp, tasks: seq<DownloadTask>, links: seq<UrlFile>,
                                            items: seq<Result<ModuleItemResp, Error>>)
    requires HostOk(course.canvas.client.host)
    ensures var one := ModuleRun(course, mod, Start, items);
      ModuleRun(course, mod, ModuleState(tasks, links, [], None), items) ==
        ModuleState(tasks + one.tasks, links + one.links, one.stack, one.panic)
    decreases |items|
  {
    if items != [] {
      var init := items[..|items| - 1];
      ModuleRunAppends(course, mod, tasks, links, init);
      var one := ModuleRun(course, mod, Start, init);
      var big := ModuleRun(course, mod, ModuleState(tasks, links, [], None), init);
      assert big == ModuleState(tasks + one.tasks, links + one.links, one.stack, one.panic);
      if one.panic.None? && items[|items| - 1].Ok? {
        var it := items[|items| - 1].value;
        var e := ItemEffect(course, mod, one.stack, it);
        ItemStepOk(course, mod, one, it);
        ItemStepOk(course, mod, big, it);
        AppendAssoc(tasks, one.tasks, e.tasks);
        AppendAssoc(links, one.links, e.links);
      }
    }
  }

  // ---------------------------------------------------------------------------
  // Properties of module mode

  /** `Modules` has no forbidden character, so sanitising keeps it. */
  lemma ModulesDirClean()
    ensures SanitizeFileName(ModulesDir) == ModulesDir
  {
    assert Clean(ModulesDir);
    SanitizeKeepsCleanName(ModulesDir);
  }

  /** A task of module `mod`: `Modules/<module>/…/<file>`, every component free of forbidden characters. */
  predicate ModuleTaskOf(mod: ModuleResp, t: DownloadTask) {
    |t.path| >= 3 && t.path[0] == ModulesDir && t.path[1] == SanitizeFileName(mod.name) &&
    forall k :: 0 <= k < |t.path| ==> Clean(t.path[k])
  }

  /** A shortcut of module `mod`: in `<config.path>/Modules/<module>/<title>`. */
  predicate LinkOf(config: SyncConfig, mod: ModuleResp, l: UrlFile) {
    l.folder == config.path + [ModulesDir, SanitizeFileName(mod.name), SanitizeFileName(l.title)]
  }

  lemma EffectShape(course: Course, mod: ModuleResp, stack: seq<(int, ModuleItemResp)>, it: ModuleItemResp)
    requires HostOk(course.canvas.client.host)
    ensures var e := ItemEffect(course, mod, stack, it);
      (forall i :: 0 <= i < |e.tasks| ==> ModuleTaskOf(mod, e.tasks[i])) &&
      (forall i :: 0 <= i < |e.links| ==> LinkOf(course.config, mod, e.links[i]))
  {
    var e := ItemEffect(course, mod, stack, it);
    if |e.tasks| > 0 {
      var resp := GetCourseFile(course.canvas.client, course.canvas.files, course.config.courseId, it.contentId.value).value;
      var f := WithUrl(course.canvas.client, resp);
      ModulesDirClean();
      LocalPathClean(ModuleFolder(mod, stack), f.displayName);
      assert e.tasks == [FileTask(course.canvas.client, resp, ModuleFolder(mod, stack))];
    }
  }

  /**
   * A module's run only appends, and what it appends are tasks under
   * `Modules/<module>` and shortcuts under `<config.path>/Modules/<module>`.
   */
  lemma {:induction false} ModuleRunShape(course: Course, mod: ModuleResp, st: ModuleState, items: seq<Result<ModuleItemResp, Error>>)
    requires HostOk(course.canvas.client.host)
    ensures var r := ModuleRun(course, mod, st, items);
      |st.tasks| <= |r.tasks| && r.tasks[..|st.tasks|] == st.tasks &&
      |st.links| <= |r.links| && r.links[..|st.links|] == st.links &&
      (forall i :: |st.tasks| <= i < |r.tasks| ==> ModuleTaskOf(mod, r.tasks[i])) &&
      (forall i :: |st.links| <= i < |r.links| ==> LinkOf(course.config, mod, r.links[i]))
    decreases |items|
  {
    if items != [] {
      var init := items[..|items| - 1];
      ModuleRunShape(course, mod, st, init);
      var prev := ModuleRun(course, mod, st, init);
      var item := items[|items| - 1];
      if prev.panic.None? && item.Ok? {
        EffectShape(course, mod, prev.stack, item.value);
        var e := ItemEffect(course, mod, prev.stack, item.value);
        var r := ModuleRun(course, mod, st, items);
        assert r.tasks == prev.tasks + e.tasks && r.links == prev.links + e.links;
        forall i | |st.tasks| <= i < |r.tasks| ensures ModuleTaskOf(mod, r.tasks[i]) {
          if i >= |prev.tasks| {
            assert r.tasks[i] == e.tasks[i - |prev.tasks|];
          } else {
            assert r.tasks[i] == prev.tasks[i];
          }
        }
        forall i | |st.links| <= i < |r.links| ensures LinkOf(course.config, mod, r.links[i]) {
          if i >= |prev.links| {
            assert r.links[i] == e.links[i - |prev.links|];
          } else {
            assert r.links[i] == prev.links[i];
          }
        }
        assert r.tasks[..|st.tasks|] == prev.tasks[..|st.tasks|];
        assert r.links[..|st.links|] == prev.links[..|st.links|];
      }
    }
  }

  /** A task of some module. */
  predicate ModuleTask(t: DownloadTask) {
    |t.path| >= 3 && t.path[0] == ModulesDir && forall k :: 0 <= k < |t.path| ==> Clean(t.path[k])
  }

  /** A shortcut folder three levels below `<config.path>/Modules`. */
  predicate LinkUnder(config: SyncConfig, l: UrlFile) {
    |l.folder| == |config.path| + 3 && l.folder[..|config.path|] == config.path && l.folder[|config.path|] == ModulesDir
  }

  /**
   * Every task of module mode is a relative path that starts with `Modules`,
   * whatever `config.path` is; every shortcut is written under
   * `<config.path>/Modules`.
   */
  lemma {:induction false} CourseRunShape(course: Course, modules: seq<Result<ModuleResp, Error>>)
    requires HostOk(course.canvas.client.host) && ItemsFinite(course, modules)
    ensures var r := CourseRun(course, modules);
      (forall i :: 0 <= i < |r.tasks| ==> ModuleTask(r.tasks[i])) &&
      (forall i :: 0 <= i < |r.links| ==> LinkUnder(course.config, r.links[i]))
    decreases |modules|
  {
    if modules != [] {
      var n := |modules| - 1;
      CourseRunSnoc(course, modules, n);
      assert modules[..n + 1] == modules;
      CourseRunShape(course, modules[..n]);
      var prev := CourseRun(course, modules[..n]);
      if prev.panic.None? && modules[n].Ok? {
        var m := modules[n].value;
        var start := prev.(stack := []);
        ModuleRunShape(course, m, start, ModuleItems(course, m));
        var r := CourseRun(course, modules);
        forall i | 0 <= i < |r.tasks| ensures ModuleTask(r.tasks[i]) {
          if i < |prev.tasks| {
            assert r.tasks[i] == r.tasks[..|prev.tasks|][i];
          } else {
            assert ModuleTaskOf(m, r.tasks[i]);
          }
        }
        forall i | 0 <= i < |r.links| ensures LinkUnder(course.config, r.links[i]) {
          if i < |prev.links| {
            assert r.links[i] == r.links[..|prev.links|][i];
          } else {
            assert LinkOf(course.config, m, r.links[i]);
          }
        }
      }
    }
  }

  /** Every `add` keeps the stack's indents strictly increasing, through a whole module. */
  lemma {:induction false} ModuleRunIncreasing(course: Course, mod: ModuleResp, st: ModuleState, items: seq<Result<ModuleItemResp, Error>>)
    requires HostOk(course.canvas.client.host) && Increasing(st.stack)
    ensures Increasing(ModuleRun(course, mod, st, items).stack)
    decreases |items|
  {
    if items != [] {
      var init := items[..|items| - 1];
      ModuleRunIncreasing(course, mod, st, init);
      var prev := ModuleRun(course, mod, st, init);
      var item := items[|items| - 1];
      if prev.panic.None? && item.Ok? && item.value.kind == "SubHeader" {
        PushedIncreasing(prev.stack, item.value.indent, item.value);
      }
    }
  }

  /**
   * Headings never carry into the next module: after a module that did not
   * panic, the next one adds exactly what it adds when run on its own.
   */
  lemma CourseRunNextModule(course: Course, modules: seq<Result<ModuleResp, Error>>, i: nat)
    requires HostOk(course.canvas.client.host) && ItemsFinite(course, modules) && i < |modules|
    requires ItemsFinite(course, modules[..i]) && CourseRun(course, modules[..i]).panic.None? && modules[i].Ok?
    ensures ItemsFinite(course, modules[..i + 1])
    ensures var prev := CourseRun(course, modules[..i]);
      var one := ModuleRun(course, modules[i].value, Start, ModuleItems(course, modules[i].value));
      CourseRun(course, modules[..i + 1]) == ModuleState(prev.tasks + one.tasks, prev.links + one.links, one.stack, one.panic)
  {
    CourseRunSnoc(course, modules, i);
    var prev := CourseRun(course, modules[..i]);
    ModuleRunAppends(course, modules[i].value, prev.tasks, prev.links, ModuleItems(course, modules[i].value));
  }

  /** `local_path` of a four-folder path, component by component. */
  lemma FourFolderPath(a: string, b: string, c: string, d: string, name: string)
    ensures LocalPathOf([a, b, c, d], name) ==
      [SanitizeFileName(a), SanitizeFileName(b), SanitizeFileName(c), SanitizeFileName(d), SanitizeFileName(name)]
  {
    var p := LocalPathOf([a, b, c, d], name);
    assert p[0] == SanitizeFileName(a) && p[1] == SanitizeFileName(b) && p[2] == SanitizeFileName(c);
    assert p[3] == SanitizeFileName(d) && p[4] == SanitizeFileName(name);
  }

  lemma ThreeHeadings(course: Course, mod: ModuleResp, h1: ModuleItemResp, h2: ModuleItemResp, h3: ModuleItemResp)
    requires HostOk(course.canvas.client.host)
    requires h1.kind == "SubHeader" && h1.indent == 1
    requires h2.kind == "SubHeader" && h2.indent == 2
    requires h3.kind == "SubHeader" && h3.indent == 2
    ensures var r := ModuleRun(course, mod, Start, [Ok(h1), Ok(h2), Ok(h3)]);
      r.tasks == [] && r.links == [] && r.panic == None && ModuleFolder(mod, r.stack) == [ModulesDir, mod.name, h1.title, h3.title]
  {
    StackExample(h1, h2, h3, h1);
    HeadingsRun(course, mod, h1, h2, h3);
    var s3 := Pushed(Pushed(Pushed([], 1, h1), 2, h2), 2, h3);
    assert Titles(Items(s3)) == [h1.title, h3.title];
  }

  /** Three headings in a row only build the indent stack. */
  lemma HeadingsRun(course: Course, mod: ModuleResp, h1: ModuleItemResp, h2: ModuleItemResp, h3: ModuleItemResp)
    requires HostOk(course.canvas.client.host)
    requires h1.kind == "SubHeader" && h2.kind == "SubHeader" && h3.kind == "SubHeader"
    ensures ModuleRun(course, mod, Start, [Ok(h1), Ok(h2), Ok(h3)]) ==
      ModuleState([], [], Pushed(Pushed(Pushed([], h1.indent, h1), h2.indent, h2), h3.indent, h3), None)
  {
    var items: seq<Result<ModuleItemResp, Error>> := [Ok(h1), Ok(h2), Ok(h3)];
    var s1 := Pushed([], h1.indent, h1);
    var s2 := Pushed(s1, h2.indent, h2);
    assert items[..0] == [];
    ModuleRunSnoc(course, mod, Start, items, 0);
    HeadingStep(course, mod, [], h1);
    ModuleRunSnoc(course, mod, Start, items, 1);
    HeadingStep(course, mod, s1, h2);
    ModuleRunSnoc(course, mod, Start, items, 2);
    HeadingStep(course, mod, s2, h3);
    assert items[..3] == items;
  }

  /**
   * A file under two headings, the second replaced by a sibling at the same
   * indent: the download task path holds the first heading and the sibling, in order.
   */
  lemma HeadingExample(course: Course, mod: ModuleResp, h1: ModuleItemResp, h2: ModuleItemResp, h3: ModuleItemResp,
                       fileItem: ModuleItemResp, resp: FileResp)
    requires HostOk(course.canvas.client.host)
    requires h1.kind == "SubHeader" && h1.indent == 1
    requires h2.kind == "SubHeader" && h2.indent == 2
    requires h3.kind == "SubHeader" && h3.indent == 2
    requires fileItem.kind == "File" && fileItem.contentId.Some?
    requires GetCourseFile(course.canvas.client, course.canvas.files, course.config.courseId, fileItem.contentId.value) == Ok(resp)
    requires !Matches(course.fs, FileTask(course.canvas.client, resp, [ModulesDir, mod.name, h1.title, h3.title]).path, resp.size)
    ensures var r := ModuleRun(course, mod, Start, [Ok(h1), Ok(h2), Ok(h3), Ok(fileItem)]);
      r.panic == None && r.links == [] &&
      r.tasks == [DownloadTask(WithUrl(course.canvas.client, resp).url,
                               [ModulesDir, SanitizeFileName(mod.name), SanitizeFileName(h1.title),
                                SanitizeFileName(h3.title), SanitizeFileName(resp.displayName)])]
  {
    var items: seq<Result<ModuleItemResp, Error>> := [Ok(h1), Ok(h2), Ok(h3), Ok(fileItem)];
    assert items[..3] == [Ok(h1), Ok(h2), Ok(h3)];
    ThreeHeadings(course, mod, h1, h2, h3);
    var folder := [ModulesDir, mod.name, h1.title, h3.title];
    var task := FileTask(course.canvas.client, resp, folder);
    assert ModuleRun(course, mod, Start, items).tasks == [] + [task];
    ModulesDirClean();
    FourFolderPath(ModulesDir, mod.name, h1.title, h3.title, resp.displayName);
  }

  /** Fix up the URL of a fetched file record, place it in `folder`, and submit it unless the local copy matches. */
  method SubmitFile(c: Client, fs: FileSystem, downloader: Downloader, resp: FileResp, folder: seq<string>)
    requires HostOk(c.host)
    modifies downloader
    ensures downloader.queue == old(downloader.queue) + Submission(c, fs, resp, folder)
  {
    var r := resp;
    if r.url == "" {
      r := r.(url := DownloadUrl(c, r));
    }
    assert r == WithUrl(c, resp);
    var file := new File.FromResp(r);
    file.folderPath := folder;
    var matches := file.LocalFileMatches(fs);
    if !matches {
      var task := file.IntoTask();
      downloader.Submit(task);
    }
  }

  /** The File branch of `download_modules`' item loop. */
  method DownloadFileItem(course: Course, mod: ModuleResp, stack: seq<(int, ModuleItemResp)>,
                          downloader: Downloader, it: ModuleItemResp)
    returns (panic: Option<Panic>)
    requires HostOk(course.canvas.client.host)
    modifies downloader
    ensures var e := FileEffect(course, mod, stack, it);
      downloader.queue == old(downloader.queue) + e.tasks && panic == e.panic
  {
    var c := course.canvas.client;
    if it.contentId.None? {
      return Some(NoContentId(it.id));
    }
    var resp := GetCourseFile(c, course.canvas.files, course.config.courseId, it.contentId.value);
    if resp.Err? {
      return Some(CourseFileFailed(resp.error));
    }
    var folder := [ModulesDir, mod.name] + Titles(Items(stack));
    SubmitFile(c, course.fs, downloader, resp.value, folder);
    panic := None;
  }

  /** The ExternalUrl / ExternalTool branch of `download_modules`' item loop. */
  method WriteLinkItem(course: Course, mod: ModuleResp, stack: seq<(int, ModuleItemResp)>,
                       writer: UrlFileWriter, it: ModuleItemResp)
    returns (panic: Option<Panic>)
    requires writer.accepts == course.accepts
    modifies writer
    ensures var e := LinkEffect(course, mod, stack, it);
      writer.written == old(writer.written) + e.links && panic == e.panic
  {
    panic := None;
    if it.url.Some? {
      var call := LinkCall(course.config, mod, it.title, it.url.value);
      var ok := writer.Write(call);
      if !ok {
        panic := Some(UrlFileFailed(call));
      }
    }
  }

  /** The body of `download_modules`' item loop for one listed item. */
  method DownloadItem(course: Course, mod: ModuleResp, indent: IndentStack<ModuleItemResp>,
                      downloader: Downloader, writer: UrlFileWriter, it: ModuleItemResp)
    returns (panic: Option<Panic>)
    requires HostOk(course.canvas.client.host) && writer.accepts == course.accepts
    modifies indent, downloader, writer
    ensures var e := ItemEffect(course, mod, old(indent.stack), it);
      downloader.queue == old(downloader.queue) + e.tasks && writer.written == old(writer.written) + e.links &&
      indent.stack == e.stack && panic == e.panic
  {
    panic := None;
    if it.kind == "SubHeader" {
      indent.Add(it.indent, it);
    } else if it.kind == "File" {
      panic := DownloadFileItem(course, mod, indent.stack, downloader, it);
    } else if it.kind == "ExternalUrl" || it.kind == "ExternalTool" {
      panic := WriteLinkItem(course, mod, indent.stack, writer, it);
    }
  }

  /** One module of `download_modules`: a fresh stack, then every listed item in order. */
  method DownloadModule(course: Course, mod: ModuleResp, downloader: Downloader, writer: UrlFileWriter)
    returns (panic: Option<Panic>)
    requires HostOk(course.canvas.client.host) && writer.accepts == course.accepts
    requires Finite(course.canvas.modules.items, ItemsUrl(course.canvas.client, course.config.courseId, mod.id))
    modifies downloader, writer
    ensures var one := ModuleRun(course, mod, Start, ModuleItems(course, mod));
      downloader.queue == old(downloader.queue) + one.tasks && writer.written == old(writer.written) + one.links &&
      panic == one.panic
  {
    var indent := new IndentStack<ModuleItemResp>();
    var items := ListModuleItems(course.canvas.client, course.canvas.modules, course.config.courseId, mod.id);
    assert items == ModuleItems(course, mod);
    panic := None;
    ghost var st := Start;
    for j := 0 to |items|
      invariant st == ModuleRun(course, mod, Start, items[..j]) && st.panic == None && panic == None
      invariant downloader.queue == old(downloader.queue) + st.tasks
      invariant writer.written == old(writer.written) + st.links
      invariant indent.stack == st.stack
    {
      ModuleRunSnoc(course, mod, Start, items, j);
      if items[j].Ok? {
        ghost var e := ItemEffect(course, mod, st.stack, items[j].value);
        ItemStepOk(course, mod, st, items[j].value);
        ghost var q0, w0 := downloader.queue, writer.written;
        panic := DownloadItem(course, mod, indent, downloader, writer, items[j].value);
        AppendAssoc(old(downloader.queue), st.tasks, e.tasks);
        AppendAssoc(old(writer.written), st.links, e.links);
      }
      st := ItemStep(course, mod, st, items[j]);
      if panic.Some? {
        ModuleRunAfterPanic(course, mod, Start, items, j + 1);
        return;
      }
    }
    assert items[..|items|] == items;
    assert st == ModuleRun(course, mod, Start, items);
  }

  /**
   * `download_modules`: every listed module in order, each with its own stack;
   * errors of either listing are only logged.
   */
  method DownloadModules(config: SyncConfig, canvas: Canvas, fs: FileSystem, downloader: Downloader, writer: UrlFileWriter)
    returns (panic: Option<Panic>)
    requires HostOk(canvas.client.host)
    requires Finite(canvas.modules.modules, ModulesUrl(canvas.client, config.courseId))
    requires ItemsFinite(Course(canvas, config, fs, writer.accepts), Stream(canvas.modules.modules, ModulesUrl(canvas.client, config.courseId)))
    modifies downloader, writer
    ensures var r := CourseRun(Course(canvas, config, fs, writer.accepts), Stream(canvas.modules.modules, ModulesUrl(canvas.client, config.courseId)));
      downloader.queue == old(downloader.queue) + r.tasks && writer.written == old(writer.written) + r.links &&
      panic == r.panic
  {
    var course := Course(canvas, config, fs, writer.accepts);
    var modules := ListModules(canvas.client, canvas.modules, config.courseId);
    panic := None;
    ghost var st := Start;
    for i := 0 to |modules|
      invariant ItemsFinite(course, modules[..i])
      invariant st == CourseRun(course, modules[..i]) && st.panic == None && panic == None
      invariant downloader.queue == old(downloader.queue) + st.tasks
      invariant writer.written == old(writer.written) + st.links
    {
      CourseRunSnoc(course, modules, i);
      if modules[i].Ok? {
        var m := modules[i].value;
        ghost var one := ModuleRun(course, m, Start, ModuleItems(course, m));
        ModuleRunAppends(course, m, st.tasks, st.links, ModuleItems(course, m));
        panic := DownloadModule(course, m, downloader, writer);
        AppendAssoc(old(downloader.queue), st.tasks, one.tasks);
        AppendAssoc(old(writer.written), st.links, one.links);
        st := ModuleRun(course, m, st.(stack := []), ModuleItems(course, m));
      }
      if panic.Some? {
        CourseRunAfterPanic(course, modules, i + 1);
        return;
      }
    }
    assert modules[..|modules|] == modules;
  }
}
