/**
 * The plugin registry (src/localghost/plugins/registry.py): plugins by name
 * and endpoints by their full path "/{plugin name}{endpoint path}". The
 * FastAPI routers it also fills are not modelled.
 */
module Registry {
  import opened Wrappers
  import opened Text
  import opened Plugins

  function FullPath(pluginName: string, path: string): string {
    "/" + pluginName + path
  }

  /** Within one plugin, different endpoint paths give different full paths. */
  lemma FullPathInjective(pluginName: string, p: string, q: string)
    requires FullPath(pluginName, p) == FullPath(pluginName, q)
    ensures p == q
  {
    var n := |pluginName| + 1;
    assert p == FullPath(pluginName, p)[n..];
    assert q == FullPath(pluginName, q)[n..];
  }

  /** The full paths of a list of endpoints. */
  function FullPaths(pluginName: string, eps: seq<Endpoint>): set<string> {
    set i | 0 <= i < |eps| :: FullPath(pluginName, eps[i].path)
  }

  /**
   * The endpoint map a plugin contributes when its endpoints are stored in
   * list order, so that a later endpoint with the same full path replaces
   * an earlier one.
   */
  function RouteTable(pluginName: string, eps: seq<Endpoint>): (t: map<string, Endpoint>)
    ensures t.Keys == FullPaths(pluginName, eps)
  {
    if eps == [] then map[]
    else
      var init := eps[..|eps| - 1];
      var last := eps[|eps| - 1];
      assert FullPaths(pluginName, eps) == FullPaths(pluginName, init) + {FullPath(pluginName, last.path)} by {
        forall s | s in FullPaths(pluginName, eps)
          ensures s in FullPaths(pluginName, init) + {FullPath(pluginName, last.path)}
        {
          var i :| 0 <= i < |eps| && s == FullPath(pluginName, eps[i].path);
          if i < |eps| - 1 { assert eps[i] == init[i]; }
        }
        forall s | s in FullPaths(pluginName, init) ensures s in FullPaths(pluginName, eps) {
          var i :| 0 <= i < |init| && s == FullPath(pluginName, init[i].path);
          assert init[i] == eps[i];
        }
      }
      RouteTable(pluginName, init)[FullPath(pluginName, last.path) := last]
  }

  /** Registering one more endpoint of the list adds or replaces one route. */
  lemma RouteTableExtend(pluginName: string, eps: seq<Endpoint>, i: nat)
    requires i < |eps|
    ensures RouteTable(pluginName, eps[..i + 1]) ==
      RouteTable(pluginName, eps[..i])[FullPath(pluginName, eps[i].path) := eps[i]]
  {
    assert eps[..i + 1][..i] == eps[..i];
  }

  lemma UnionUpdate(a: map<string, Endpoint>, b: map<string, Endpoint>, k: string, v: Endpoint)
    ensures (a + b)[k := v] == a + b[k := v]
  {
  }

  /** Each endpoint is found under its full path unless a later one has the same path. */
  lemma {:induction false} RouteTableLookup(pluginName: string, eps: seq<Endpoint>, i: nat)
    requires i < |eps|
    requires forall j :: i < j < |eps| ==> eps[j].path != eps[i].path
    ensures FullPath(pluginName, eps[i].path) in RouteTable(pluginName, eps)
    ensures RouteTable(pluginName, eps)[FullPath(pluginName, eps[i].path)] == eps[i]
  {
    var last := eps[|eps| - 1];
    if i < |eps| - 1 {
      var init := eps[..|eps| - 1];
      RouteTableLookup(pluginName, init, i);
      if FullPath(pluginName, last.path) == FullPath(pluginName, eps[i].path) {
        FullPathInjective(pluginName, last.path, eps[i].path);
      }
    }
  }

  /** Registering a plugin whose full paths are all new, then unregistering it, restores the endpoint map. */
  lemma RegisterUnregisterRestores(endpoints: map<string, Endpoint>, pluginName: string, eps: seq<Endpoint>)
    requires endpoints.Keys !! FullPaths(pluginName, eps)
    ensures (endpoints + RouteTable(pluginName, eps)) - FullPaths(pluginName, eps) == endpoints
  {
  }

  /** One entry of a plugin's capability listing. */
  datatype EndpointInfo = EndpointInfo(path: string, httpMethod: string, endpointType: string, description: string)

  /** One plugin's capability listing. */
  datatype Capability = Capability(version: string, description: string, endpoints: seq<EndpointInfo>)

  function InfoOf(pluginName: string, e: Endpoint): EndpointInfo {
    EndpointInfo(FullPath(pluginName, e.path), e.httpMethod, EndpointTypeValue(e.endpointType), e.description)
  }

  class PluginRegistry {
    var plugins: map<string, Plugin>
    var endpoints: map<string, Endpoint>

    constructor ()
      ensures plugins == map[] && endpoints == map[]
    {
      plugins := map[];
      endpoints := map[];
    }

    /**
     * `register`: a plugin whose name is taken is skipped; otherwise it is
     * recorded and each of its endpoints is stored under its full path, in
     * list order.
     */
    method Register(plugin: Plugin)
      modifies this
      ensures plugin.name in old(plugins) ==> plugins == old(plugins) && endpoints == old(endpoints)
      ensures plugin.name !in old(plugins) ==>
        && plugins == old(plugins)[plugin.name := plugin]
        && endpoints == old(endpoints) + RouteTable(plugin.name, plugin.endpoints)
    {
      if plugin.name in plugins {
        return;
      }
      plugins := plugins[plugin.name := plugin];
      var eps := plugin.endpoints;
      for i := 0 to |eps|
        invariant plugins == old(plugins)[plugin.name := plugin]
        invariant endpoints == old(endpoints) + RouteTable(plugin.name, eps[..i])
      {
        RouteTableExtend(plugin.name, eps, i);
        UnionUpdate(old(endpoints), RouteTable(plugin.name, eps[..i]), FullPath(plugin.name, eps[i].path), eps[i]);
        endpoints := endpoints[FullPath(plugin.name, eps[i].path) := eps[i]];
      }
      assert eps[..|eps|] == eps;
    }

    /**
     * `unregister`: for a registered name, removes each of the plugin's full
     * paths from the endpoint map and the plugin itself; otherwise nothing.
     */
    method Unregister(pluginName: string)
      modifies this
      ensures pluginName !in old(plugins) ==> plugins == old(plugins) && endpoints == old(endpoints)
      ensures pluginName in old(plugins) ==>
        && plugins == old(plugins) - {pluginName}
        && endpoints == old(endpoints) - FullPaths(pluginName, old(plugins)[pluginName].endpoints)
    {
      if pluginName !in plugins {
        return;
      }
      var eps := plugins[pluginName].endpoints;
      for i := 0 to |eps|
        invariant plugins == old(plugins)
        invariant endpoints == old(endpoints) - FullPaths(pluginName, eps[..i])
      {
        assert FullPaths(pluginName, eps[..i + 1]) == FullPaths(pluginName, eps[..i]) + {FullPath(pluginName, eps[i].path)} by {
          assert forall j :: 0 <= j < i ==> eps[..i + 1][j] == eps[..i][j];
        }
        endpoints := endpoints - {FullPath(pluginName, eps[i].path)};
      }
      assert eps[..|eps|] == eps;
      plugins := plugins - {pluginName};
    }

    /** `get_endpoint`: the endpoint stored under a full path, if any. */
    function GetEndpoint(path: string): (r: Option<Endpoint>)
      reads this
      ensures r.Some? <==> path in endpoints
      ensures r.Some? ==> r.value == endpoints[path]
    {
      if path in endpoints then Some(endpoints[path]) else None
    }

    /**
     * `is_public`: a registered path is public exactly when its endpoint is
     * PUBLIC; an unregistered one when it starts with "/public/".
     */
    function IsPublic(path: string): (r: bool)
      reads this
      ensures path in endpoints ==> (r <==> endpoints[path].endpointType == Public)
      ensures path !in endpoints ==> (r <==> StartsWith(path, "/public/"))
    {
      match GetEndpoint(path)
      case Some(e) => e.endpointType == Public
      case None => StartsWith(path, "/public/")
    }

    /** The `plugins` property: a copy of the plugin map (map values are never shared). */
    function Plugins(): (r: map<string, Plugin>)
      reads this
      ensures r.Keys == plugins.Keys && forall n :: n in r ==> r[n] == plugins[n]
    {
      plugins
    }

    /**
     * `get_capabilities`: one entry per registered plugin, with its version,
     * description and endpoints in list order, each under its full path
     * with its type's string value.
     */
    method GetCapabilities() returns (caps: map<string, Capability>)
      ensures caps.Keys == plugins.Keys
      ensures forall n :: n in caps ==>
        && caps[n].version == plugins[n].version
        && caps[n].description == plugins[n].description
        && |caps[n].endpoints| == |plugins[n].endpoints|
        && forall i :: 0 <= i < |caps[n].endpoints| ==>
             caps[n].endpoints[i] == InfoOf(n, plugins[n].endpoints[i])
    {
      caps := map[];
      var names := plugins.Keys;
      while names != {}
        invariant names <= plugins.Keys
        invariant caps.Keys == plugins.Keys - names
        invariant forall n :: n in caps ==>
          && caps[n].version == plugins[n].version
          && caps[n].description == plugins[n].description
          && |caps[n].endpoints| == |plugins[n].endpoints|
          && forall i :: 0 <= i < |caps[n].endpoints| ==>
               caps[n].endpoints[i] == InfoOf(n, plugins[n].endpoints[i])
        decreases names
      {
        var name :| name in names;
        var plugin := plugins[name];
        var infos: seq<EndpointInfo> := [];
        for i := 0 to |plugin.endpoints|
          invariant |infos| == i
          invariant forall j :: 0 <= j < i ==> infos[j] == InfoOf(name, plugin.endpoints[j])
        {
          var e := plugin.endpoints[i];
          infos := infos + [EndpointInfo(FullPath(name, e.path), e.httpMethod, EndpointTypeValue(e.endpointType), e.description)];
        }
        caps := caps[name := Capability(plugin.version, plugin.description, infos)];
        names := names - {name};
      }
    }
  }
}
