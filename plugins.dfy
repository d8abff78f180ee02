/**
 * The plugin interface (src/localghost/plugins/base.py): endpoint
 * definitions with their defaults, and plugins as the data the registry
 * reads from them (name, version, description, endpoint list).
 */
module Plugins {

  datatype EndpointType = Public | Protected

  /** The enum's string value, as reported in the capability listing. */
  function EndpointTypeValue(t: EndpointType): string {
    match t
    case Public => "public"
    case Protected => "protected"
  }

  /** The two endpoint types have distinct string values, and these are the only two. */
  lemma EndpointTypeValues(t: EndpointType)
    ensures EndpointTypeValue(t) in {"public", "protected"}
    ensures EndpointTypeValue(t) == "public" <==> t == Public
  {
  }

  /**
   * An endpoint definition. The handler coroutine is represented by its
   * name; the model never calls it.
   */
  datatype Endpoint = Endpoint(
    path: string,
    handler: string,
    endpointType: EndpointType,
    httpMethod: string,
    description: string,
    permissions: seq<string>)

  /** `Endpoint(path, handler)` with every other field at its default. */
  function DefaultEndpoint(path: string, handler: string): (e: Endpoint)
    ensures e.path == path && e.handler == handler
    ensures e.endpointType == Protected && e.httpMethod == "GET" && e.description == "" && e.permissions == []
  {
    Endpoint(path, handler, Protected, "GET", "", [])
  }

  /**
   * A plugin as the registry sees it: `get_endpoints()` returns the same
   * list on every call. The `on_load`/`on_unload` hooks default to doing
   * nothing and have no counterpart here.
   */
  datatype Plugin = Plugin(name: string, version: string, description: string, endpoints: seq<Endpoint>)

  /** A plugin that does not override `description`. */
  function DefaultPlugin(name: string, version: string, endpoints: seq<Endpoint>): (p: Plugin)
    ensures p.name == name && p.version == version && p.endpoints == endpoints
    ensures p.description == ""
  {
    Plugin(name, version, "", endpoints)
  }
}
