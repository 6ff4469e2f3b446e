/** The self-updater (class WM_Monitor_Updater): a remote metadata lookup behind a
    single-entry transient cache with a twelve-hour lifetime, and the host filters
    that feed WordPress's own update screens from it. */
module SelfUpdate {
  import opened Wrappers
  import Php
  import opened Host

  /** The lifetime of the `wm_monitor_update_info` transient, in seconds. */
  const CacheDuration := 43200

  /** The decoded remote metadata; every field may be missing from the JSON. */
  datatype RemoteInfo = RemoteInfo(
    version: Option<string>,
    name: Option<string>,
    homepage: Option<string>,
    downloadUrl: Option<string>,
    tested: Option<string>,
    requiresPhp: Option<string>,
    requiresWp: Option<string>,
    author: Option<string>,
    authorProfile: Option<string>,
    sections: Option<map<string, string>>,
    icons: Option<map<string, string>>,
    banners: Option<map<string, string>>)

  /** What `wp_remote_get` produced: a transport error, or a status code and a body
      that `json_decode` turned into an object (`Some`) or into something falsy or
      not an object (`None`). */
  datatype Response = TransportError | Http(code: int, body: Option<RemoteInfo>)

  /** The cached transient together with the time at which it expires. */
  datatype CacheEntry = CacheEntry(info: RemoteInfo, expires: int)

  /** The outcome of one remote request: the metadata, or `None` for a transport
      error, a status other than 200, an undecodable body or a missing version. */
  function Fetch(response: Response): (r: Option<RemoteInfo>)
    ensures r.Some? <==> response.Http? && response.code == 200 && response.body.Some?
                         && response.body.value.version.Some?
    ensures r.Some? ==> r == response.body
  {
    match response
    case TransportError => None
    case Http(code, body) =>
      if code != 200 then None
      else if body.None? || body.value.version.None? then None
      else body
  }

  /** `get_transient` at time `now`: an entry is served until its expiry time has passed. */
  function Fresh(cache: Option<CacheEntry>, now: int): (served: Option<RemoteInfo>) {
    if cache.Some? && now <= cache.value.expires then Some(cache.value.info) else None
  }

  /** The result of `get_remote_info($force)` against the cache `cache` at time `now`,
      when a request, if one is made, would produce `response`. */
  function RemoteLookup(cache: Option<CacheEntry>, force: bool, now: int, response: Response): (r: Option<RemoteInfo>) {
    if !force && Fresh(cache, now).Some? then Fresh(cache, now) else Fetch(response)
  }

  /** The cache after that same call: untouched on a hit, a new entry for twelve hours
      after a successful request, and otherwise what is left once an expired entry has
      been read (and so deleted) -- a failed request never stores anything. */
  function CacheAfter(cache: Option<CacheEntry>, force: bool, now: int, response: Response): (after: Option<CacheEntry>) {
    if !force && Fresh(cache, now).Some? then cache
    else match Fetch(response)
      case Some(d) => Some(CacheEntry(d, now + CacheDuration))
      case None => if force then cache else None
  }

  /** A cache hit serves the stored entry, whatever the remote side would have said,
      and leaves the cache alone: no request is made. */
  lemma CacheHitMakesNoRequest(cache: Option<CacheEntry>, now: int, r1: Response, r2: Response)
    requires Fresh(cache, now).Some?
    ensures RemoteLookup(cache, false, now, r1) == RemoteLookup(cache, false, now, r2) == Some(cache.value.info)
    ensures CacheAfter(cache, false, now, r1) == cache
  {
  }

  /** A failed request returns `false` and caches nothing. */
  lemma FailureCachesNothing(cache: Option<CacheEntry>, force: bool, now: int, response: Response)
    requires force || Fresh(cache, now).None?
    requires response.TransportError? || response.code != 200 || response.body.None?
             || response.body.value.version.None?
    ensures RemoteLookup(cache, force, now, response).None?
    ensures CacheAfter(cache, force, now, response) == (if force then cache else None)
  {
  }

  /** A successful request is returned and served from the cache for exactly
      the next 43200 seconds. */
  lemma SuccessIsCachedForTwelveHours(cache: Option<CacheEntry>, force: bool, now: int, response: Response, later: int)
    requires force || Fresh(cache, now).None?
    requires Fetch(response).Some?
    ensures RemoteLookup(cache, force, now, response) == Fetch(response)
    ensures Fresh(CacheAfter(cache, force, now, response), later) ==
            (if later <= now + CacheDuration then Fetch(response) else None)
  {
  }

  /** Everything the updater itself writes into the cache carries a version. */
  lemma CachedEntriesHaveVersion(cache: Option<CacheEntry>, force: bool, now: int, response: Response)
    requires cache.Some? ==> cache.value.info.version.Some?
    ensures var c := CacheAfter(cache, force, now, response); c.Some? ==> c.value.info.version.Some?
  {
  }

  /** A forced refresh seen the remote report 1.1.0; within the lifetime a plain lookup
      keeps serving that record even once the remote reports 1.2.0. */
  lemma StaleRemoteIsNotRefetched(t0: int, t1: int, first: RemoteInfo, second: RemoteInfo)
    requires first.version == Some("1.1.0") && second.version == Some("1.2.0")
    requires t0 <= t1 <= t0 + CacheDuration
    ensures var c := CacheAfter(None, true, t0, Http(200, Some(first)));
            RemoteLookup(c, false, t1, Http(200, Some(second))) == Some(first)
  {
  }

  /** The instruction to move the extracted package into place. */
  datatype Move = Move(from: Option<string>, to: string)

  /** The details shown in the "view details" pop-up. */
  datatype PluginInformation = PluginInformation(
    name: string,
    slug: string,
    version: string,
    author: string,
    authorProfile: string,
    homepage: string,
    requiresWp: string,
    tested: string,
    requiresPhp: string,
    downloaded: int,
    downloadLink: string,
    sections: Option<map<string, string>>,
    banners: Option<map<string, string>>,
    icons: Option<map<string, string>>)

  const DocsLink := "<a href=\"https://webmaster-monitor.com/docs\" target=\"_blank\">Documentazione</a>"
  const SupportLink := "<a href=\"https://webmaster-monitor.com/support\" target=\"_blank\">Supporto</a>"

  class Updater {
    /** `plugin_basename` of the main file, e.g. "webmaster-monitor/webmaster-monitor.php". */
    const basename: string
    /** The plugin's directory name, `dirname(basename)`. */
    const slug: string
    const currentVersion: string
    /** WP_PLUGIN_DIR. */
    const pluginDir: string
    /** The `wm_monitor_update_info` transient. */
    var cache: Option<CacheEntry>
    /** The host's `update_plugins` site transient, which this class may delete. */
    var hostUpdates: Option<PluginUpdates>

    constructor (basename: string, currentVersion: string, pluginDir: string,
                 cache: Option<CacheEntry>, hostUpdates: Option<PluginUpdates>)
      ensures this.basename == basename && this.slug == Php.Dirname(basename)
      ensures this.currentVersion == currentVersion && this.pluginDir == pluginDir
      ensures this.cache == cache && this.hostUpdates == hostUpdates
    {
      this.basename := basename;
      this.slug := Php.Dirname(basename);
      this.currentVersion := currentVersion;
      this.pluginDir := pluginDir;
      this.cache := cache;
      this.hostUpdates := hostUpdates;
    }

    /** The entry announcing the remote version as an available update. */
    function UpdateOffer(remote: RemoteInfo): (u: PluginUpdate)
      requires remote.version.Some?
      ensures u.slug == slug && u.plugin == basename
      ensures u.newVersion == remote.version.value
      ensures u.package == remote.downloadUrl.GetOr("") && u.url == remote.homepage.GetOr("")
    {
      PluginUpdate(slug, basename, remote.version.value, remote.homepage.GetOr(""),
                   remote.downloadUrl.GetOr(""), Some(remote.tested.GetOr("")),
                   Some(remote.requiresPhp.GetOr("")), Some(remote.requiresWp.GetOr("")),
                   remote.icons, remote.banners)
    }

    /** The `no_update` marker: the installed version, with no package and no URL. */
    function CurrentMarker(): (u: PluginUpdate)
      ensures u.slug == slug && u.plugin == basename
      ensures u.newVersion == currentVersion && u.package == "" && u.url == ""
    {
      PluginUpdate(slug, basename, currentVersion, "", "", None, None, None, None, None)
    }

    /** What `check_for_update` does to the transient once it holds the remote lookup
        `remote`: with a version, exactly one entry for this plugin is written, into
        `response` when the installed version is older and into `no_update` otherwise. */
    function Verdict(t: PluginUpdates, remote: Option<RemoteInfo>, less: (string, string) -> bool): (r: PluginUpdates)
      ensures r.checked == t.checked
      ensures remote.None? || remote.value.version.None? ==> r == t
      ensures remote.Some? && remote.value.version.Some? && less(currentVersion, remote.value.version.value) ==>
                r.noUpdate == t.noUpdate && r.response == t.response[basename := UpdateOffer(remote.value)]
      ensures remote.Some? && remote.value.version.Some? && !less(currentVersion, remote.value.version.value) ==>
                r.response == t.response && r.noUpdate == t.noUpdate[basename := CurrentMarker()]
    {
      if remote.None? || remote.value.version.None? then t
      else if less(currentVersion, remote.value.version.value) then
        t.(response := t.response[basename := UpdateOffer(remote.value)])
      else
        t.(noUpdate := t.noUpdate[basename := CurrentMarker()])
    }

    /** `get_remote_info($force_refresh)`. */
    method GetRemoteInfo(force: bool, now: int, response: Response) returns (r: Option<RemoteInfo>)
      modifies this`cache
      ensures r == RemoteLookup(old(cache), force, now, response)
      ensures cache == CacheAfter(old(cache), force, now, response)
    {
      if !force {
        if cache.Some? && now <= cache.value.expires {
          return Some(cache.value.info);
        }
        // Reading an expired transient deletes it.
        cache := None;
      }
      r := Fetch(response);
      if r.Some? {
        cache := Some(CacheEntry(r.value, now + CacheDuration));
      }
    }

    /** The `pre_set_site_transient_update_plugins` filter. With nothing checked the
        transient is returned untouched and no lookup happens. */
    method CheckForUpdate(t: PluginUpdates, now: int, response: Response, less: (string, string) -> bool)
      returns (r: PluginUpdates)
      modifies this`cache
      ensures |t.checked| == 0 ==> r == t && cache == old(cache)
      ensures |t.checked| > 0 ==>
                r == Verdict(t, RemoteLookup(old(cache), false, now, response), less)
                && cache == CacheAfter(old(cache), false, now, response)
    {
      if |t.checked| == 0 {
        return t;
      }
      var remote := GetRemoteInfo(false, now, response);
      r := Verdict(t, remote, less);
    }

    /** The pop-up details built from remote metadata. */
    function Details(remote: RemoteInfo): (info: PluginInformation)
      ensures info.slug == slug && info.downloaded == 0
      ensures info.name == remote.name.GetOr("Webmaster Monitor")
      ensures info.version == remote.version.GetOr("")
      ensures info.downloadLink == remote.downloadUrl.GetOr("")
    {
      PluginInformation(remote.name.GetOr("Webmaster Monitor"), slug, remote.version.GetOr(""),
                        remote.author.GetOr(""), remote.authorProfile.GetOr(""),
                        remote.homepage.GetOr(""), remote.requiresWp.GetOr(""),
                        remote.tested.GetOr(""), remote.requiresPhp.GetOr(""), 0,
                        remote.downloadUrl.GetOr(""), remote.sections, remote.banners,
                        remote.icons)
    }

    /** The `plugins_api` filter; `None` means the incoming `$result` is passed through. */
    method PluginInfo(action: string, argsSlug: Option<string>, now: int, response: Response)
      returns (r: Option<PluginInformation>)
      modifies this`cache
      ensures action != "plugin_information" || argsSlug != Some(slug) ==> r.None? && cache == old(cache)
      ensures action == "plugin_information" && argsSlug == Some(slug) ==>
                cache == CacheAfter(old(cache), false, now, response)
                && r == match RemoteLookup(old(cache), false, now, response)
                        case None => None
                        case Some(d) => Some(Details(d))
    {
      if action != "plugin_information" {
        return None;
      }
      if argsSlug.None? || argsSlug.value != slug {
        return None;
      }
      var remote := GetRemoteInfo(false, now, response);
      if remote.None? {
        return None;
      }
      r := Some(Details(remote.value));
    }

    /** Where the plugin must end up: WP_PLUGIN_DIR/slug. */
    function PluginFolder(): string {
      pluginDir + "/" + slug
    }

    /** The `upgrader_post_install` filter. For this plugin's own package it moves the
        extracted directory to the canonical folder, rewrites `destination`, asks for
        re-activation when the plugin is active, and clears the cache; for any other
        package it changes nothing. */
    method AfterInstall(hookPlugin: Option<string>, result: map<string, string>, active: bool)
      returns (r: map<string, string>, move: Option<Move>, reactivate: bool)
      modifies this`cache
      ensures hookPlugin != Some(basename) ==>
                r == result && move.None? && !reactivate && cache == old(cache)
      ensures hookPlugin == Some(basename) ==>
                r == result["destination" := PluginFolder()] && r["destination"] == pluginDir + "/" + slug
                && move == Some(Move(if "destination" in result then Some(result["destination"]) else None,
                                     PluginFolder()))
                && reactivate == active && cache.None?
    {
      if hookPlugin.None? || hookPlugin.value != basename {
        return result, None, false;
      }
      var folder := PluginFolder();
      move := Some(Move(if "destination" in result then Some(result["destination"]) else None, folder));
      r := result["destination" := folder];
      reactivate := active;
      ClearCache();
    }

    /** The `plugin_row_meta` filter. */
    function PluginRowMeta(links: seq<string>, file: string): (r: seq<string>)
      ensures file != basename ==> r == links
      ensures file == basename ==> |r| == |links| + 2 && r[..|links|] == links
                                   && r[|links|..] == [DocsLink, SupportLink]
    {
      if file != basename then links else links + [DocsLink] + [SupportLink]
    }

    /** `clear_cache`. */
    method ClearCache()
      modifies this`cache
      ensures cache.None?
    {
      cache := None;
    }

    /** `force_update_check`: both caches are emptied, so the next lookup asks the
        remote side again (the host's own refresh that follows is not modelled). */
    method ForceUpdateCheck()
      modifies this`cache, this`hostUpdates
      ensures cache.None? && hostUpdates.None?
      ensures forall force: bool, now: int, response: Response ::
                RemoteLookup(cache, force, now, response) == Fetch(response)
    {
      ClearCache();
      hostUpdates := None;
    }
  }
}
