/** Records that the WordPress host hands to the plugin and that more than one
    of the plugin's classes reads. */
module Host {
  import opened Wrappers

  /** One entry of the core-update list (`get_core_updates()` and the `update_core`
      site transient): its `response` ("upgrade", "latest", ...) may be unset. */
  datatype CoreOffer = CoreOffer(response: Option<string>, version: string)

  /** One entry of the `update_plugins` site transient's `response` or `no_update`
      lists. Fields the source sets only on some paths are options. */
  datatype PluginUpdate = PluginUpdate(
    slug: string,
    plugin: string,
    newVersion: string,
    url: string,
    package: string,
    tested: Option<string>,
    requiresPhp: Option<string>,
    requiresWp: Option<string>,
    icons: Option<map<string, string>>,
    banners: Option<map<string, string>>)

  /** The `update_plugins` site transient: installed versions that were checked,
      the plugins with an update, and the plugins known to be current. */
  datatype PluginUpdates = PluginUpdates(
    checked: map<string, string>,
    response: map<string, PluginUpdate>,
    noUpdate: map<string, PluginUpdate>)
}
