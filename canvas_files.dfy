/** Folder and file listings of a course (src/canvas_api/files.rs). */
module CanvasFiles {
  import opened Wrappers
  import opened CanvasApi

  /** An `i64` value, as the JSON fields `id` and `size` are decoded. */
  type I64 = x: int | -0x8000_0000_0000_0000 <= x < 0x8000_0000_0000_0000

  /** The fields of `FolderResp` that the sync logic reads. */
  datatype FolderResp = FolderResp(id: int, name: string, parentFolderId: Option<int>)

  /** The fields of `FileResp` that the sync logic reads. */
  datatype FileResp = FileResp(
    id: int,
    uuid: string,
    folderId: int,
    displayName: string,
    url: string,
    size: I64)

  /** The server's answers to the requests of this file. */
  datatype FilesApi = FilesApi(
    folders: Endpoint<FolderResp>,
    files: Endpoint<FileResp>,
    file: string -> Result<Response<FileResp>, Error>)

  function CoursePath(courseId: int): string {
    "/api/v1/courses/" + Decimal(courseId)
  }

  function FoldersUrl(c: Client, courseId: int): (r: string)
    requires HostOk(c.host)
  {
    BuildUrl(c.host, CoursePath(courseId) + "/folders")
  }

  function FilesUrl(c: Client, courseId: int): (r: string)
    requires HostOk(c.host)
  {
    BuildUrl(c.host, CoursePath(courseId) + "/files")
  }

  function CourseFileUrl(c: Client, courseId: int, fileId: int): (r: string)
    requires HostOk(c.host)
  {
    BuildUrl(c.host, CoursePath(courseId) + "/files/" + Decimal(fileId))
  }

  /** `get_all_folders`: the listing that starts at `/api/v1/courses/{id}/folders`. */
  method GetAllFolders(c: Client, api: FilesApi, courseId: int) returns (items: seq<Result<FolderResp, Error>>)
    requires HostOk(c.host)
    requires Finite(api.folders, FoldersUrl(c, courseId))
    ensures items == Stream(api.folders, FoldersUrl(c, courseId))
  {
    items := FetchAll(api.folders, FoldersUrl(c, courseId));
  }

  /** `get_all_files`: the listing that starts at `/api/v1/courses/{id}/files`. */
  method GetAllFiles(c: Client, api: FilesApi, courseId: int) returns (items: seq<Result<FileResp, Error>>)
    requires HostOk(c.host)
    requires Finite(api.files, FilesUrl(c, courseId))
    ensures items == Stream(api.files, FilesUrl(c, courseId))
  {
    items := FetchAll(api.files, FilesUrl(c, courseId));
  }

  /**
   * `get_course_file`: one request to `/api/v1/courses/{c}/files/{f}`; its
   * `Link` header is ignored.
   */
  function GetCourseFile(c: Client, api: FilesApi, courseId: int, fileId: int): (r: Result<FileResp, Error>)
    requires HostOk(c.host)
    ensures var answer := api.file(CourseFileUrl(c, courseId, fileId));
      && (r.Ok? <==> answer.Ok?)
      && (r.Ok? ==> r.value == answer.value.body)
      && (r.Err? ==> r.error == answer.error)
  {
    match api.file(CourseFileUrl(c, courseId, fileId))
    case Ok(resp) => Ok(resp.body)
    case Err(e) => Err(e)
  }

  /** The answer does not depend on the pagination header of the response. */
  lemma CourseFileIgnoresLink(c: Client, a1: FilesApi, a2: FilesApi, courseId: int, fileId: int)
    requires HostOk(c.host)
    requires var u := CourseFileUrl(c, courseId, fileId);
      (a1.file(u).Ok? <==> a2.file(u).Ok?) &&
      (a1.file(u).Ok? ==> a1.file(u).value.body == a2.file(u).value.body) &&
      (a1.file(u).Err? ==> a1.file(u).error == a2.file(u).error)
    ensures GetCourseFile(c, a1, courseId, fileId) == GetCourseFile(c, a2, courseId, fileId)
  {
  }

  /** `get_all_folders` addresses the course's `folders` collection under the host. */
  lemma FoldersUrlShape(c: Client, courseId: int)
    requires HostOk(c.host)
    ensures FoldersUrl(c, courseId) == c.host + "api/v1/courses/" + Decimal(courseId) + "/folders"
  {
    var d := Decimal(courseId);
    CoursesPrefix(d);
    RootedAppend("api/v1/courses/" + d, "/folders");
    BuildUrlRooted(c.host, "api/v1/courses/" + d + "/folders");
  }

  /** `get_all_files` addresses the course's `files` collection under the host. */
  lemma FilesUrlShape(c: Client, courseId: int)
    requires HostOk(c.host)
    ensures FilesUrl(c, courseId) == c.host + "api/v1/courses/" + Decimal(courseId) + "/files"
  {
    var d := Decimal(courseId);
    CoursesPrefix(d);
    RootedAppend("api/v1/courses/" + d, "/files");
    BuildUrlRooted(c.host, "api/v1/courses/" + d + "/files");
  }

  /** `get_course_file` addresses one file of the course under the host. */
  lemma CourseFileUrlShape(c: Client, courseId: int, fileId: int)
    requires HostOk(c.host)
    ensures CourseFileUrl(c, courseId, fileId) ==
      c.host + "api/v1/courses/" + Decimal(courseId) + "/files/" + Decimal(fileId)
  {
    var d := Decimal(courseId);
    var e := Decimal(fileId);
    CoursesPrefix(d);
    RootedAppend("api/v1/courses/" + d, "/files/");
    RootedAppend("api/v1/courses/" + d + "/files/", e);
    BuildUrlRooted(c.host, "api/v1/courses/" + d + "/files/" + e);
  }
}
