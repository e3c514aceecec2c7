/**
 * The crate root (src/lib.rs): the local view of a remote file, how its folder
 * path is resolved through the folder map, how its local path is built, and the
 * "already downloaded" rule.
 */
module CanvasLmsSync {
  import opened Wrappers
  import opened Path
  import opened CanvasFiles

  /** A `PathBuf`, as the sequence of components pushed onto it. */
  type LocalPath = seq<string>

  /** `download::DownloadTask`. */
  datatype DownloadTask = DownloadTask(url: string, path: LocalPath)

  /** The local filesystem as the sync sees it: the length of whatever exists at a path. */
  type FileSystem = map<LocalPath, nat>

  /** `size as u64` on an `i64`: two's-complement reinterpretation. */
  function AsU64(x: I64): (r: nat)
    ensures r < 0x1_0000_0000_0000_0000
    ensures x >= 0 ==> r == x
    ensures x < 0 ==> r >= 0x8000_0000_0000_0000
  {
    if x < 0 then x + 0x1_0000_0000_0000_0000 else x
  }

  // ---------------------------------------------------------------------------
  // The folder chain walked by set_folder_path

  /** `folder.parent_folder_id.unwrap_or(0)`: 0 is the sentinel that ends the walk. */
  function ParentId(f: FolderResp): int {
    f.parentFolderId.GetOr(0)
  }

  /**
   * Walking up from `id` reaches the sentinel 0, or an id missing from the map,
   * within `n` steps. A cyclic parent chain satisfies this for no `n`.
   */
  predicate ChainEndsWithin(m: map<int, FolderResp>, id: int, n: nat)
    decreases n
  {
    id == 0 || id !in m || (n > 0 && ChainEndsWithin(m, ParentId(m[id]), n - 1))
  }

  /** The walk from `id` terminates: the `while cur_folder != 0` loop does not spin forever. */
  ghost predicate ChainEnds(m: map<int, FolderResp>, id: int) {
    exists n: nat :: ChainEndsWithin(m, id, n)
  }

  /** Folder names from the root down to `id`, or `None` when a missing id is met. */
  function ChainWithin(m: map<int, FolderResp>, id: int, n: nat): Option<seq<string>>
    requires ChainEndsWithin(m, id, n)
    decreases n
  {
    if id == 0 then Some([])
    else if id !in m then None
    else match ChainWithin(m, ParentId(m[id]), n - 1)
      case None => None
      case Some(above) => Some(above + [m[id].name])
  }

  lemma {:induction false} ChainFuel(m: map<int, FolderResp>, id: int, n: nat, k: nat)
    requires ChainEndsWithin(m, id, n) && ChainEndsWithin(m, id, k)
    ensures ChainWithin(m, id, n) == ChainWithin(m, id, k)
    decreases n
  {
    if id != 0 && id in m {
      ChainFuel(m, ParentId(m[id]), n - 1, k - 1);
    }
  }

  /** The folder path of a file in folder `id`; `None` where `set_folder_path` would panic. */
  ghost function FolderChain(m: map<int, FolderResp>, id: int): Option<seq<string>>
    requires ChainEnds(m, id)
  {
    var n: nat :| ChainEndsWithin(m, id, n);
    ChainWithin(m, id, n)
  }

  lemma FolderChainIs(m: map<int, FolderResp>, id: int, n: nat)
    requires ChainEndsWithin(m, id, n)
    ensures ChainEnds(m, id) && FolderChain(m, id) == ChainWithin(m, id, n)
  {
    forall k: nat | ChainEndsWithin(m, id, k) ensures ChainWithin(m, id, k) == ChainWithin(m, id, n) {
      ChainFuel(m, id, k, n);
    }
  }

  /**
   * The chain, one step at a time: folder id 0 gives the empty path; a missing
   * id fails; otherwise the parent's path followed by this folder's own name, so
   * the root comes first and the last name is that of `id`'s folder.
   */
  lemma FolderChainStep(m: map<int, FolderResp>, id: int)
    requires ChainEnds(m, id)
    ensures id == 0 ==> FolderChain(m, id) == Some([])
    ensures id != 0 && id !in m ==> FolderChain(m, id) == None
    ensures id != 0 && id in m ==>
      var parent := ParentId(m[id]);
      && ChainEnds(m, parent)
      && FolderChain(m, id) == match FolderChain(m, parent) {
           case None => None
           case Some(above) => Some(above + [m[id].name])
         }
  {
    var n: nat :| ChainEndsWithin(m, id, n);
    FolderChainIs(m, id, n);
    if id != 0 && id in m {
      FolderChainIs(m, ParentId(m[id]), n - 1);
    }
  }

  /** A folder without a parent is a root: its path is its name alone. */
  lemma RootFolder(m: map<int, FolderResp>, id: int)
    requires id != 0 && id in m && m[id].parentFolderId.None?
    ensures ChainEnds(m, id) && FolderChain(m, id) == Some([m[id].name])
  {
    assert ChainEndsWithin(m, 0, 0);
    assert ChainEndsWithin(m, id, 1);
    FolderChainIs(m, id, 1);
    assert [] + [m[id].name] == [m[id].name];
  }

  /** `Vec::reverse`. */
  function Reversed<T>(s: seq<T>): (r: seq<T>)
    ensures |r| == |s|
    ensures forall i :: 0 <= i < |s| ==> r[i] == s[|s| - 1 - i]
  {
    if s == [] then [] else Reversed(s[1..]) + [s[0]]
  }

  /** The chain found so far, followed by the names collected (leaf first) in root-first order. */
  function Extend(prefix: Option<seq<string>>, suffix: seq<string>): Option<seq<string>> {
    match prefix
    case None => None
    case Some(p) => Some(p + suffix)
  }

  /** One step of the walk: the names above the parent, then this folder's name, then the rest. */
  lemma ExtendStep(m: map<int, FolderResp>, id: int, n: nat, rest: seq<string>)
    requires id != 0 && id in m && ChainEndsWithin(m, id, n)
    ensures n > 0 && ChainEndsWithin(m, ParentId(m[id]), n - 1)
    ensures Extend(ChainWithin(m, id, n), rest) == Extend(ChainWithin(m, ParentId(m[id]), n - 1), [m[id].name] + rest)
  {
    match ChainWithin(m, ParentId(m[id]), n - 1)
    case None =>
    case Some(above) =>
      assert above + [m[id].name] + rest == above + ([m[id].name] + rest);
  }

  // ---------------------------------------------------------------------------
  // Local paths and the skip rule

  /** The components of `local_path`: the sanitised folder names, then the sanitised file name. */
  function LocalPathOf(folderPath: seq<string>, fileName: string): (p: LocalPath)
    ensures |p| == |folderPath| + 1
    ensures forall i :: 0 <= i < |folderPath| ==> p[i] == SanitizeFileName(folderPath[i])
    ensures p[|folderPath|] == SanitizeFileName(fileName)
  {
    SanitizeAll(folderPath) + [SanitizeFileName(fileName)]
  }

  /** No component of a local path contains a forbidden character, `/` included. */
  lemma LocalPathClean(folderPath: seq<string>, fileName: string)
    ensures forall i :: 0 <= i < |LocalPathOf(folderPath, fileName)| ==> Clean(LocalPathOf(folderPath, fileName)[i])
  {
    var p := LocalPathOf(folderPath, fileName);
    forall i | 0 <= i < |p| ensures Clean(p[i]) {
      if i < |folderPath| {
        SanitizedIsClean(folderPath[i]);
      } else {
        SanitizedIsClean(fileName);
      }
    }
  }

  /** The skip rule: something exists at the path and its length is the remote size. */
  predicate Matches(fs: FileSystem, p: LocalPath, size: I64) {
    p in fs && fs[p] == AsU64(size)
  }

  /** For a non-negative size the skip rule compares lengths directly. */
  lemma MatchesNonNegative(fs: FileSystem, p: LocalPath, size: I64)
    requires size >= 0
    ensures Matches(fs, p, size) <==> p in fs && fs[p] == size
  {
  }

  /** A negative size wraps to at least 2^63, which no file shorter than that matches. */
  lemma MatchesNegative(fs: FileSystem, p: LocalPath, size: I64)
    requires size < 0 && p in fs && fs[p] < 0x8000_0000_0000_0000
    ensures !Matches(fs, p, size)
  {
  }

  // ---------------------------------------------------------------------------
  // File

  /** `lib::File` without its three timestamp fields. */
  class File {
    var folderPath: seq<string>
    var fileName: string
    var size: I64
    var url: string

    /** `From<FileResp>`: no folders yet, the display name, size and URL copied. */
    constructor FromResp(resp: FileResp)
      ensures folderPath == [] && fileName == resp.displayName
      ensures size == resp.size && url == resp.url
    {
      folderPath := [];
      fileName := resp.displayName;
      size := resp.size;
      url := resp.url;
    }

    /**
     * `set_folder_path`: clears the path, walks up from `folderId` pushing each
     * folder's name until the sentinel 0, then reverses. Returns false where the
     * source's `unwrap` panics on an id missing from the map.
     */
    method SetFolderPath(folderMap: map<int, FolderResp>, folderId: int) returns (found: bool)
      requires ChainEnds(folderMap, folderId)
      modifies this
      ensures found <==> FolderChain(folderMap, folderId).Some?
      ensures found ==> folderPath == FolderChain(folderMap, folderId).value
      ensures fileName == old(fileName) && size == old(size) && url == old(url)
    {
      ghost var n: nat :| ChainEndsWithin(folderMap, folderId, n);
      ghost var fuel: nat := n;
      FolderChainIs(folderMap, folderId, n);
      folderPath := [];
      var cur := folderId;
      assert Extend(ChainWithin(folderMap, cur, fuel), Reversed(folderPath)) == ChainWithin(folderMap, cur, fuel) by {
        if ChainWithin(folderMap, cur, fuel).Some? {
          assert ChainWithin(folderMap, cur, fuel).value + [] == ChainWithin(folderMap, cur, fuel).value;
        }
      }
      while cur != 0
        invariant ChainEndsWithin(folderMap, cur, fuel)
        invariant ChainWithin(folderMap, folderId, n) == Extend(ChainWithin(folderMap, cur, fuel), Reversed(folderPath))
        invariant fileName == old(fileName) && size == old(size) && url == old(url)
        decreases fuel
      {
        if cur !in folderMap {
          return false;
        }
        var folder := folderMap[cur];
        assert Reversed(folderPath + [folder.name]) == [folder.name] + Reversed(folderPath);
        ExtendStep(folderMap, cur, fuel, Reversed(folderPath));
        folderPath := folderPath + [folder.name];
        cur := ParentId(folder);
        fuel := fuel - 1;
      }
      folderPath := Reversed(folderPath);
      found := true;
    }

    /** `sanitized_folder_path`: each folder name sanitised, in order. */
    function SanitizedFolderPath(): (r: seq<string>)
      reads this
      ensures |r| == |folderPath|
      ensures forall i :: 0 <= i < |r| ==> r[i] == SanitizeFileName(folderPath[i])
      ensures forall i :: 0 <= i < |r| ==> Clean(r[i]) && (Clean(folderPath[i]) ==> r[i] == folderPath[i])
    {
      var r := SanitizeAll(folderPath);
      forall i | 0 <= i < |r| ensures Clean(r[i]) && (Clean(folderPath[i]) ==> r[i] == folderPath[i]) {
        SanitizedIsClean(folderPath[i]);
        if Clean(folderPath[i]) {
          SanitizeKeepsCleanName(folderPath[i]);
        }
      }
      r
    }

    /** `sanitized_file_name`: the display name with its forbidden characters replaced. */
    function SanitizedFileName(): (r: string)
      reads this
      ensures |r| == |fileName| && Clean(r)
      ensures forall i :: 0 <= i < |r| ==> r[i] == if Forbidden(fileName[i]) then '_' else fileName[i]
      ensures Clean(fileName) ==> r == fileName
    {
      SanitizedIsClean(fileName);
      assert Clean(fileName) ==> SanitizeFileName(fileName) == fileName by {
        if Clean(fileName) {
          SanitizeKeepsCleanName(fileName);
        }
      }
      SanitizeFileName(fileName)
    }

    /** `local_path`: pushes each sanitised folder name, then the sanitised file name. */
    method LocalPath() returns (p: LocalPath)
      ensures p == LocalPathOf(folderPath, fileName)
    {
      var folders := SanitizedFolderPath();
      p := [];
      for i := 0 to |folders|
        invariant p == folders[..i]
      {
        p := p + [folders[i]];
      }
      assert folders[..|folders|] == folders;
      p := p + [SanitizedFileName()];
    }

    /** `local_file_matches`: false if nothing exists at the local path or its length differs. */
    method LocalFileMatches(fs: FileSystem) returns (m: bool)
      ensures m <==> Matches(fs, LocalPathOf(folderPath, fileName), size)
    {
      var path := LocalPath();
      if path !in fs {
        return false;
      }
      if fs[path] != AsU64(size) {
        return false;
      }
      return true;
    }

    /** `Into<DownloadTask>`: the file's URL to its local path. */
    method IntoTask() returns (t: DownloadTask)
      ensures t == DownloadTask(url, LocalPathOf(folderPath, fileName))
    {
      var path := LocalPath();
      t := DownloadTask(url, path);
    }
  }

  /**
   * A file in F3 (parent F2, parent F1, a root) named `report:final.pdf` goes to
   * `F1/F2/F3/report_final.pdf`; stated for any names without forbidden
   * characters in place of F1, F2, F3, `report` and `final.pdf`.
   */
  lemma ReportExample(f1: string, f2: string, f3: string, stem: string, ext: string)
    requires Clean(f1) && Clean(f2) && Clean(f3) && Clean(stem) && Clean(ext)
    ensures var m := map[
        3 := FolderResp(3, f3, Some(2)),
        2 := FolderResp(2, f2, Some(1)),
        1 := FolderResp(1, f1, None)];
      && ChainEnds(m, 3)
      && FolderChain(m, 3) == Some([f1, f2, f3])
      && LocalPathOf(FolderChain(m, 3).value, stem + ":" + ext) == [f1, f2, f3, stem + "_" + ext]
  {
    var m := map[
      3 := FolderResp(3, f3, Some(2)),
      2 := FolderResp(2, f2, Some(1)),
      1 := FolderResp(1, f1, None)];
    assert ChainEndsWithin(m, 3, 3);
    FolderChainIs(m, 3, 3);
    assert m[1].name == f1 && ParentId(m[1]) == 0;
    assert m[2].name == f2 && ParentId(m[2]) == 1;
    assert m[3].name == f3 && ParentId(m[3]) == 2;
    assert ChainWithin(m, 0, 0) == Some([]);
    assert ChainWithin(m, 1, 1) == Some([] + [f1]);
    assert [] + [f1] == [f1];
    assert ChainWithin(m, 2, 2) == Some([f1] + [f2]);
    assert [f1] + [f2] == [f1, f2];
    assert ChainWithin(m, 3, 3) == Some([f1, f2] + [f3]);
    assert [f1, f2] + [f3] == [f1, f2, f3];
    SanitizeKeepsCleanName(f1);
    SanitizeKeepsCleanName(f2);
    SanitizeKeepsCleanName(f3);
    var name := stem + ":" + ext;
    var r := SanitizeFileName(name);
    assert r == stem + "_" + ext by {
      assert forall i :: 0 <= i < |stem| ==> name[i] == stem[i];
      assert forall i :: |stem| < i < |name| ==> name[i] == ext[i - |stem| - 1];
    }
  }
}
