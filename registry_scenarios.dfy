/**
 * A plugin in a fresh plugin registry: registration routes each endpoint
 * under "/<name><path>" and classifies it by its type, a second
 * registration under the same name is ignored, and unregistration removes
 * the route again.
 */
module RegistryScenarios {
  import opened Wrappers
  import opened Plugins
  import opened Registry

  method RegisterLookupUnregister(plugin: Plugin, other: Plugin, i: nat)
    returns (found: Option<Endpoint>, public: bool, afterUnregister: Option<Endpoint>)
    requires i < |plugin.endpoints| && other.name == plugin.name
    requires forall j :: i < j < |plugin.endpoints| ==> plugin.endpoints[j].path != plugin.endpoints[i].path
    ensures found == Some(plugin.endpoints[i])
    ensures public <==> plugin.endpoints[i].endpointType == Public
    ensures afterUnregister == None
  {
    var registry := new PluginRegistry();
    registry.Register(plugin);
    registry.Register(other);
    var path := FullPath(plugin.name, plugin.endpoints[i].path);
    RouteTableLookup(plugin.name, plugin.endpoints, i);
    found := registry.GetEndpoint(path);
    public := registry.IsPublic(path);
    registry.Unregister(plugin.name);
    assert path in FullPaths(plugin.name, plugin.endpoints);
    afterUnregister := registry.GetEndpoint(path);
  }
}
