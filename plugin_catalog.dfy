/** The plugin definitions the plugins form reads from the plugins database
    (lib/db/db_plugins.py, which is not part of this model). A definition is
    a value; the query that selects definitions is modelled as a filter that
    keeps the database's order. */
module PluginCatalog {
  import opened Common

  /** A definition's 'version' entry: 'current', and 'latest' when that key
      exists (None here when it is absent). */
  datatype VersionInfo = VersionInfo(current: Scalar, latest: Option<Scalar>)

  /** The fields of a plugin definition that the form reads. */
  datatype PluginDefn = PluginDefn(
    id: string,
    repoId: string,
    name: string,
    external: bool,
    installed: bool,
    version: VersionInfo)

  /** The definition passes every filter that is given (None means any). */
  predicate Selected(p: PluginDefn, installed: Option<bool>, repoId: Option<string>, pluginId: Option<string>) {
    && (installed.Some? ==> p.installed == installed.value)
    && (repoId.Some? ==> p.repoId == repoId.value)
    && (pluginId.Some? ==> p.id == pluginId.value)
  }

  /** get_plugins(_installed, _repo_id, _plugin_id). */
  function QueryPlugins(db: seq<PluginDefn>, installed: Option<bool>, repoId: Option<string>, pluginId: Option<string>)
    : (r: seq<PluginDefn>)
    ensures forall p :: p in r <==> p in db && Selected(p, installed, repoId, pluginId)
    ensures |r| <= |db|
  {
    if db == [] then []
    else
      (if Selected(db[0], installed, repoId, pluginId) then [db[0]] else []) +
      QueryPlugins(db[1..], installed, repoId, pluginId)
  }
}
