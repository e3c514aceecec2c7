/** Module and module-item listings of a course (src/canvas_api/modules.rs). */
module CanvasModules {
  import opened Wrappers
  import opened CanvasApi

  /** The fields of `ModuleResp` that the sync logic reads. */
  datatype ModuleResp = ModuleResp(id: int, name: string)

  /** The fields of `ModuleItemResp` that the sync logic reads; `kind` is the JSON `type`. */
  datatype ModuleItemResp = ModuleItemResp(
    id: int,
    title: string,
    indent: int,
    kind: string,
    contentId: Option<int>,
    url: Option<string>)

  /** The server's answers to the requests of this file. */
  datatype ModulesApi = ModulesApi(modules: Endpoint<ModuleResp>, items: Endpoint<ModuleItemResp>)

  function ModulesUrl(c: Client, courseId: int): string
    requires HostOk(c.host)
  {
    BuildUrl(c.host, "/api/v1/courses/" + Decimal(courseId) + "/modules")
  }

  function ItemsUrl(c: Client, courseId: int, moduleId: int): string
    requires HostOk(c.host)
  {
    BuildUrl(c.host, "/api/v1/courses/" + Decimal(courseId) + "/modules/" + Decimal(moduleId) + "/items")
  }

  /** `list_modules` addresses the course's `modules` collection under the host. */
  lemma ModulesUrlShape(c: Client, courseId: int)
    requires HostOk(c.host)
    ensures ModulesUrl(c, courseId) == c.host + "api/v1/courses/" + Decimal(courseId) + "/modules"
  {
    var d := Decimal(courseId);
    CoursesPrefix(d);
    RootedAppend("api/v1/courses/" + d, "/modules");
    BuildUrlRooted(c.host, "api/v1/courses/" + d + "/modules");
  }

  /** `list_module_items` addresses the module's `items` collection under the host. */
  lemma ItemsUrlShape(c: Client, courseId: int, moduleId: int)
    requires HostOk(c.host)
    ensures ItemsUrl(c, courseId, moduleId) ==
      c.host + "api/v1/courses/" + Decimal(courseId) + "/modules/" + Decimal(moduleId) + "/items"
  {
    var d := Decimal(courseId);
    var e := Decimal(moduleId);
    CoursesPrefix(d);
    RootedAppend("api/v1/courses/" + d, "/modules/");
    RootedAppend("api/v1/courses/" + d + "/modules/", e);
    RootedAppend("api/v1/courses/" + d + "/modules/" + e, "/items");
    BuildUrlRooted(c.host, "api/v1/courses/" + d + "/modules/" + e + "/items");
  }

  /** `list_modules`: the listing that starts at `/api/v1/courses/{id}/modules`. */
  method ListModules(c: Client, api: ModulesApi, courseId: int) returns (items: seq<Result<ModuleResp, Error>>)
    requires HostOk(c.host)
    requires Finite(api.modules, ModulesUrl(c, courseId))
    ensures items == Stream(api.modules, ModulesUrl(c, courseId))
  {
    items := FetchAll(api.modules, ModulesUrl(c, courseId));
  }

  /** `list_module_items`: the listing that starts at `/api/v1/courses/{c}/modules/{m}/items`. */
  method ListModuleItems(c: Client, api: ModulesApi, courseId: int, moduleId: int)
    returns (items: seq<Result<ModuleItemResp, Error>>)
    requires HostOk(c.host)
    requires Finite(api.items, ItemsUrl(c, courseId, moduleId))
    ensures items == Stream(api.items, ItemsUrl(c, courseId, moduleId))
  {
    items := FetchAll(api.items, ItemsUrl(c, courseId, moduleId));
  }
}
