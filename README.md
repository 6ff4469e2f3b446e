# Webmaster Monitor — a Dafny model of the plugin's decision logic

Webmaster Monitor is a WordPress plugin that connects a site to a remote monitoring
platform. It does four things:

- It keeps one API key in the `wm_monitor_api_key` option.
- It guards a small REST namespace (`webmaster-monitor/v1`) with that key.
- It reports inventories of the server, database, WordPress core, plugins, themes,
  users and multisite network.
- It can drive the host's upgraders on request.

A self-updater feeds WordPress's own update screens with metadata from the platform,
and caches that metadata in a transient for twelve hours.

This project models the decision logic of that glue against abstract host state. The
modelled logic is the key store and its verification, the REST gate and the route
table, the health verdict, the apply-update coordinator, the self-updater's cache and
filters, and the collectors' loops and counters. Each part is proved against a
specification.

The modules follow the plugin's files:

| module | file | flavour |
|---|---|---|
| `Monitor` | `webmaster-monitor.php` | class `Plugin` with the two options as fields |
| `Api` | `includes/class-api.php` | functions for the gate and the classification, methods for the loops |
| `SelfUpdate` | `includes/class-updater.php` | class `Updater` whose `cache` field is the transient |
| `WpInfo` | `includes/class-wp-info.php` | loop methods with counters, pure functions elsewhere |
| `Multisite` | `includes/class-multisite-info.php` | class `BlogContext` for `switch_to_blog`/`restore_current_blog`, loop methods |
| `ServerInfo` | `includes/class-server-info.php` | accumulating loops, a tree walk, pure classification |
| `Php` | — | the PHP semantics the decisions depend on |
| `Host`, `Collections`, `Wrappers` | — | shared host records, `Count`, `Option` |

The `Php` module models the following:

- `empty`/`!` on strings, where `""` and `"0"` are falsy;
- constant truthiness;
- `strtolower`;
- `strpos(...) !== false`;
- `dirname`, with its special cases;
- which strings become integers when used as array keys.

Values the host supplies become parameters:

- the clock (`now`);
- the 32 random bytes;
- the HTTP response as already decoded;
- the upgraders' outcomes;
- what a blog context reports after `switch_to_blog`;
- `version_compare`, as an abstract relation `less`.

Behaviour of the code worth knowing:

- `apply-update` accepts the types `plugin`, `theme` and `core`.
- A "no update" outcome leaves `apply_update` as `success: false` with HTTP 500, like any
  other error (`Api.Normalize`, `Api.CoreAlreadyLatest`).
- `post_count` in the subsite roster is read after `switch_to_blog`, so it counts the
  posts of the site being described. The model reads every per-site value from the
  switched context (`views(ctx.current)`).

More behaviour that the contracts make visible:

- `inactive` is `count(get_plugins()) - count(active_plugins)`. Every entry of the option
  that names a plugin no longer installed makes it one too small. It goes negative only
  when such stale entries outnumber the installed plugins that are inactive. The model
  keeps that arithmetic, with `int` counters.
- The slug `"."` matches every single-file plugin, because `dirname("hello.php")` is
  `"."` (`Api.SingleFilePluginMatches`).
- A key, header or parameter equal to `"0"` counts as empty, as PHP's `empty` reads it.
- A theme whose directory name is a decimal integer (`2024`) is never reported
  active, even when it is the active theme: `wp_get_themes()` keys it by the integer
  2024, and `===` never equates that with the stylesheet string `"2024"`.
- The updater is built only in admin requests (`webmaster-monitor.php:88-94`), so
  `Monitor.Plugin.updater` may be `null`.

## Model

| member | source | states |
|---|---|---|
| Monitor.GenerateApiKey | webmaster-monitor/webmaster-monitor.php:131-133 | every generated key is `wm_` followed by 64 lower-case hex digits (67 characters) and is never empty |
| Monitor.Hex2BinBin2Hex | webmaster-monitor/webmaster-monitor.php:132 | `bin2hex` loses nothing: decoding its output gives back the bytes |
| Monitor.GeneratedKeysAreInjective | webmaster-monitor/webmaster-monitor.php:131-133 | distinct random inputs give distinct keys |
| Monitor.ApiKeyOf | webmaster-monitor/webmaster-monitor.php:148-150 | the stored key, or `""` when nothing is stored |
| Monitor.VerifyKey | webmaster-monitor/webmaster-monitor.php:155-158 | a candidate verifies iff a non-empty key is stored and equals it |
| Monitor.EmptyStoreRejectsEverything | webmaster-monitor/webmaster-monitor.php:155-158 | with nothing stored, no candidate verifies |
| Monitor.RotationRevokesOldKey | webmaster-monitor/webmaster-monitor.php:138-158 | after rotation to a different key the old key is refused and the new one accepted |
| Monitor.Plugin.constructor | webmaster-monitor/webmaster-monitor.php:88-94 | the state holds the two options and the updater (present only in admin requests) |
| Monitor.Plugin.Activate | webmaster-monitor/webmaster-monitor.php:107-116 | a key is generated only when the stored one is missing or falsy, an existing key is kept, the activation time is always recorded, and a usable key is stored afterwards |
| Monitor.Plugin.RegenerateApiKey | webmaster-monitor/webmaster-monitor.php:138-143 | the stored key becomes the returned key, which is then the only key that verifies |
| Monitor.Plugin.ForceUpdateCheck | webmaster-monitor/webmaster-monitor.php:170-175 | delegates to the updater, clearing both caches; without an updater nothing changes |
| Api.Candidate | webmaster-monitor/includes/class-api.php:80-84 | the header is used unless it is empty; only then the `api_key` parameter |
| Api.VerifyRequest | webmaster-monitor/includes/class-api.php:78-103 | 401 `missing_api_key` iff header and parameter are both empty; granted iff the candidate verifies; otherwise 403 `invalid_api_key` |
| Api.HeaderShadowsParameter | webmaster-monitor/includes/class-api.php:80-84 | with a non-empty header the parameter cannot change the outcome |
| Api.GateFailsClosed | webmaster-monitor/includes/class-api.php:94-102 | with no stored key every request is refused |
| Api.Authorize | webmaster-monitor/includes/class-api.php:20-72 | a public route always passes, a guarded one answers as the gate does |
| Api.OnlyHealthIsPublic | webmaster-monitor/includes/class-api.php:20-72 | among the six routes exactly `/health` is public; every other route refuses a keyless request with 401 |
| Api.GetHealth | webmaster-monitor/includes/class-api.php:149-173 | database ok iff `SELECT 1` gives "1", filesystem ok iff writable, cron ok unless DISABLE_WP_CRON is defined truthy; status `error` iff database or filesystem fails; HTTP 200 always |
| Api.CronNeverDowngradesHealth | webmaster-monitor/includes/class-api.php:165-170 | the cron check never changes the status |
| Api.ParseKind | webmaster-monitor/includes/class-api.php:208-223 | the three accepted types, and nothing else |
| Api.AfterUpgrade | webmaster-monitor/includes/class-api.php:277-294 | a host error passes through, `false` becomes `upgrade_failed`, a throw is kept, anything else is success carrying the reported version |
| Api.PluginFoundByDirectory | webmaster-monitor/includes/class-api.php:266 | a `dir/file.php` entry is found by the slug `dir` |
| Api.SingleFilePluginMatches | webmaster-monitor/includes/class-api.php:266 | a single-file plugin matches exactly its own name and `"."` |
| Api.FindPluginFile | webmaster-monitor/includes/class-api.php:263-271 | the result is the first matching file, and none only when no file matches |
| Api.UpdatePlugin | webmaster-monitor/includes/class-api.php:256-295 | no match (or a falsy match) gives `no_update` without calling the upgrader; otherwise only the first match is upgraded and classified |
| Api.UpdateTheme | webmaster-monitor/includes/class-api.php:300-331 | upgrades the slug iff the theme update list holds an entry for it, else `no_update` |
| Api.UpdateCore | webmaster-monitor/includes/class-api.php:333-362 | `no_update` iff the list is empty or its first entry is "latest"; otherwise only `updates[0]` is installed |
| Api.Normalize | webmaster-monitor/includes/class-api.php:226-250 | every error and every exception gives `success:false`, 500, with error/type/slug; success gives 200 with the message and `new_version` |
| Api.ErrorsAndExceptionsLookAlike | webmaster-monitor/includes/class-api.php:226-250 | a host error and an exception with the same message produce the same response |
| Api.ApplyUpdate | webmaster-monitor/includes/class-api.php:192-251 | an unknown type gives `invalid_type`/400 and installs nothing; each known type is dispatched, resolved and normalised as above |
| Api.CoreAlreadyLatest | webmaster-monitor/includes/class-api.php:339-341 | an up-to-date core reports `no_update` (as a 500) and installs nothing |
| SelfUpdate.Fetch | webmaster-monitor/includes/class-updater.php:261-277 | a request yields metadata iff there is no transport error, the status is 200, the body decodes and it has a version |
| SelfUpdate.CacheHitMakesNoRequest | webmaster-monitor/includes/class-updater.php:244-250 | a live cache entry is served whatever the remote would say, and the cache is left alone |
| SelfUpdate.FailureCachesNothing | webmaster-monitor/includes/class-updater.php:261-277 | a failed request returns false and stores nothing |
| SelfUpdate.SuccessIsCachedForTwelveHours | webmaster-monitor/includes/class-updater.php:279-282 | a successful request is returned and served from the cache for the next 43200 seconds |
| SelfUpdate.CachedEntriesHaveVersion | webmaster-monitor/includes/class-updater.php:273-280 | everything the updater caches carries a version |
| SelfUpdate.StaleRemoteIsNotRefetched | webmaster-monitor/includes/class-updater.php:243-283 | within the lifetime a plain lookup keeps serving the cached 1.1.0 record although the remote now reports 1.2.0 |
| SelfUpdate.Updater.constructor | webmaster-monitor/includes/class-updater.php:55-58 | the slug is `dirname` of the basename |
| SelfUpdate.Updater.UpdateOffer | webmaster-monitor/includes/class-updater.php:90-106 | the `response` entry: slug, basename, the remote version, `package` = `download_url` or "" |
| SelfUpdate.Updater.CurrentMarker | webmaster-monitor/includes/class-updater.php:112-118 | the `no_update` entry: the installed version with empty package and URL |
| SelfUpdate.Updater.Verdict | webmaster-monitor/includes/class-updater.php:87-121 | without a versioned lookup the transient is unchanged; otherwise exactly one entry is written, into `response` when the installed version is older, else into `no_update` |
| SelfUpdate.Updater.GetRemoteInfo | webmaster-monitor/includes/class-updater.php:243-283 | the result and the new cache are those of the cache specification (`RemoteLookup`, `CacheAfter`) |
| SelfUpdate.Updater.CheckForUpdate | webmaster-monitor/includes/class-updater.php:79-124 | with nothing checked the transient and cache are untouched; otherwise the result is the verdict on the lookup |
| SelfUpdate.Updater.Details | webmaster-monitor/includes/class-updater.php:152-179 | the pop-up carries the plugin slug, `downloaded` 0, the remote name or "Webmaster Monitor", and the download link |
| SelfUpdate.Updater.PluginInfo | webmaster-monitor/includes/class-updater.php:135-182 | passes `$result` through unless the action is `plugin_information`, the slug is this plugin's and remote info is available |
| SelfUpdate.Updater.AfterInstall | webmaster-monitor/includes/class-updater.php:192-215 | other plugins' results are untouched; for this plugin `destination` becomes `WP_PLUGIN_DIR/slug`, the package is moved there, it is re-activated if active and the cache is cleared |
| SelfUpdate.Updater.PluginRowMeta | webmaster-monitor/includes/class-updater.php:224-235 | exactly two links are appended for this plugin's file; other files' links are unchanged |
| SelfUpdate.Updater.ClearCache | webmaster-monitor/includes/class-updater.php:288-290 | the cache is empty |
| SelfUpdate.Updater.ForceUpdateCheck | webmaster-monitor/includes/class-updater.php:295-299 | both caches are emptied, so the next lookup fetches from the remote side |
| WpInfo.GetCoreInfo | webmaster-monitor/includes/class-wp-info.php:29-48 | an update is available iff the first offer says "upgrade"; then the latest version is its version, otherwise the installed one |
| WpInfo.GetPluginsInfo | webmaster-monitor/includes/class-wp-info.php:63-103 | total, active and total − active; one entry per installed plugin in order with its dirname slug, active flag and update flag; `new_version` "" without update; the counter equals the number of flagged entries and is 0 iff none is flagged |
| WpInfo.Summarize | webmaster-monitor/includes/class-wp-info.php:115-129 | `is_child` iff the theme has a parent, and the parent's name appears exactly then |
| WpInfo.GetThemesInfo | webmaster-monitor/includes/class-wp-info.php:108-152 | one entry per theme in order; active iff its slug equals the active stylesheet and is not a decimal-integer string (PHP has turned such an array key into an integer, which `===` never equates with the stylesheet string); flagged iff it has an update entry; the counter equals the number of flagged entries and is 0 iff no entry is flagged |
| Php.DecimalKeyExamples | webmaster-monitor/includes/class-wp-info.php:131-145 | a year-named slug such as `2024`, `0` and `-7` are integer keys; `0123`, `-0`, the empty string and ordinary names stay strings |
| WpInfo.GetUsersInfo | webmaster-monitor/includes/class-wp-info.php:157-177 | exactly one roster entry per administrator, in order, with its last-login meta |
| WpInfo.GetSiteHealth | webmaster-monitor/includes/class-wp-info.php:182-202 | "unknown" unless the cached result is truthy, decodes to a truthy array and has a status, which is then reported |
| WpInfo.GetWpConstants | webmaster-monitor/includes/class-wp-info.php:207-223 | thirteen constants in order; a defined one reports its value, an undefined one its listed default |
| WpInfo.UndefinedConstantDefaults | webmaster-monitor/includes/class-wp-info.php:211-221 | WP_DEBUG_DISPLAY and CONCATENATE_SCRIPTS default to true, WP_AUTO_UPDATE_CORE to "minor", the memory limits to 40M and 256M |
| Multisite.GetNetworkInfo | webmaster-monitor/includes/class-multisite-info.php:26-56 | a single site reports false, null and 0; a network reports `subdomain` iff SUBDOMAIN_INSTALL is defined truthy, else `subdirectory`; with a current network its id, name, domain and path are copied, without one all four are null |
| Multisite.BlogContext.constructor | webmaster-monitor/includes/class-multisite-info.php:82 | a blog context starts on the current blog with nothing switched |
| Multisite.BlogContext.SwitchToBlog | webmaster-monitor/includes/class-multisite-info.php:82 | the target becomes current and the previous blog is remembered |
| Multisite.BlogContext.RestoreCurrentBlog | webmaster-monitor/includes/class-multisite-info.php:112 | the blog current before the last switch is current again |
| Multisite.RosterHidesUnlisted | webmaster-monitor/includes/class-multisite-info.php:114-117 | no archived, spam or deleted site is in the roster |
| Multisite.RosterKeepsListed | webmaster-monitor/includes/class-multisite-info.php:114-117 | every other site is in the roster, described from its own context |
| Multisite.RosterSize | webmaster-monitor/includes/class-multisite-info.php:80-118 | the roster has one entry per listed site |
| Multisite.GetNetworkSites | webmaster-monitor/includes/class-multisite-info.php:63-121 | empty unless a network's main site; then the roster of the listed sites in order; the blog context ends where it started |
| Multisite.NetworkPluginsAreInstalled | webmaster-monitor/includes/class-multisite-info.php:144-154 | every listed network plugin is network-activated, installed and marked network-active |
| Multisite.NetworkPluginsAreComplete | webmaster-monitor/includes/class-multisite-info.php:144-154 | every network-activated plugin that is installed is listed |
| Multisite.GetNetworkPlugins | webmaster-monitor/includes/class-multisite-info.php:128-158 | empty off a network; otherwise the installed network-activated plugins in option order |
| Multisite.GetAll | webmaster-monitor/includes/class-multisite-info.php:165-183 | subsites and network plugins stay empty unless this is a network's main site |
| Multisite.GetCurrentSiteInfo | webmaster-monitor/includes/class-multisite-info.php:199-217 | a single site is blog 1 and its own main site; on a network the site row's fields, or null without a row |
| ServerInfo.UnitIndex | webmaster-monitor/includes/class-server-info.php:215-217 | the unit is the largest k ≤ 4 with 1024^k ≤ bytes, and B below 1024 |
| ServerInfo.FormatBytes | webmaster-monitor/includes/class-server-info.php:212-222 | negative sizes are clamped to 0 and the unit is the one `UnitIndex` picks |
| ServerInfo.FormatBytesExamples | webmaster-monitor/includes/class-server-info.php:212-222 | 0 and negative sizes are written in B, 1536 in KB, 1073741824 in GB |
| ServerInfo.GetPhpExtensions | webmaster-monitor/includes/class-server-info.php:44-67 | one flag per listed extension, in order, true iff the extension is loaded |
| ServerInfo.ExtensionNamesDistinct | webmaster-monitor/includes/class-server-info.php:45-59 | the thirteen names are distinct, so the map has thirteen keys |
| ServerInfo.Engine | webmaster-monitor/includes/class-server-info.php:89-91 | MariaDB iff the version mentions "mariadb" in any case, else MySQL |
| ServerInfo.GetDatabaseInfo | webmaster-monitor/includes/class-server-info.php:72-107 | MySQL with version "" when the version query gives nothing; table count and byte total (data + index, NULL as 0) only when tables are returned |
| ServerInfo.ClassifyWebServer | webmaster-monitor/includes/class-server-info.php:124-135 | the first of apache, nginx, litespeed, iis occurring case-insensitively wins; Other iff none occurs |
| ServerInfo.GetServerInfo | webmaster-monitor/includes/class-server-info.php:112-138 | a missing SERVER_SOFTWARE reads "Unknown", a missing address "", a missing document root ABSPATH |
| ServerInfo.MissingSoftwareIsOther | webmaster-monitor/includes/class-server-info.php:114-134 | a server that does not name itself is classified Other |
| ServerInfo.ApacheBannerIsApache | webmaster-monitor/includes/class-server-info.php:124-126 | an "Apache/..." banner is recognised despite its capital letter |
| ServerInfo.WalkCountsEveryFileOnce | webmaster-monitor/includes/class-server-info.php:195-204 | summing the file entries a self-first walk meets gives the total size of the tree's files |
| ServerInfo.GetDirectorySize | webmaster-monitor/includes/class-server-info.php:188-207 | 0 for a non-directory, otherwise the total size of the files below it (directories and other entries add nothing) |
| ServerInfo.GetDiskInfo | webmaster-monitor/includes/class-server-info.php:143-183 | the all-zero defaults unless both space queries exist and answer, then both raw figures, used = total − free, and each figure formatted; the WordPress and uploads sizes are always added |

## Left out

- Hook registration, the singleton `get_instance`, `init`/`deactivate`, text-domain loading and `flush_rewrite_rules`: these are host wiring that decides nothing.
- `admin/settings.php` is not part of this model. It is HTML and JavaScript, and its only logic is a call to `regenerate_api_key`, which is modelled.
- The endpoints `get_status`, `get_server_info`, `get_wp_info` and `ping`: they only assemble collector results with a timestamp and site URL.
- `get_php_info`, and the site URLs, locale and options that `get_core_info` reports: these are direct reads of host values.
- Timestamps from `current_time`, `time()` and `date()`: they are parameters (`now`) or left out.
- Translation: the messages are the untranslated Italian strings.
- Monitor.VerifyKey: `hash_equals` is modelled as plain equality. Its constant-time guarantee is not modelled.
- Monitor.GenerateApiKey: `random_bytes(32)` is modelled as an arbitrary 32-byte input. Its entropy is not modelled.
- SelfUpdate.Updater.Verdict: `version_compare` is an abstract relation `less`. PHP's version ordering is not re-derived.
- SelfUpdate.Fetch: the HTTP request, its headers and timeout, and `json_decode` are folded into an already-decoded `Response`.
- Casting of the decoded icon, banner and section objects to arrays is not modelled.
- SelfUpdate.Updater.ForceUpdateCheck: the `wp_update_plugins()` refresh that follows is not modelled. In the program that refresh stores `update_plugins`, which runs this class's `check_for_update` filter. That filter calls `get_remote_info`, so the program normally ends with the cache refilled rather than empty.
- Api.UpdatePlugin, Api.UpdateTheme and Api.UpdateCore: the forced refreshes (`wp_update_plugins`, `wp_update_themes`, `wp_version_check`) are not modelled. The upgraders, the upgrader skin and `get_plugin_data`/`wp_get_theme` are oracles; the refreshed lists and the versions reported afterwards are inputs.
- Api.VerifyRequest: the header and the `api_key` parameter are modelled as strings only. A parameter sent as an array (`?api_key[]=x`, or an array or object in a JSON body) passes `empty()` and reaches `hash_equals`. On PHP 8 that throws an uncaught TypeError and the request ends in a 500 fatal error, not a 403. On PHP 7.4 it warns and returns false, so the answer is 403. Neither path is modelled.
- Api.ApplyUpdate: the REST argument schema, which rejects unknown types before the callback runs, is not modelled. So is a PHP `Error` that `catch (Exception $e)` would not catch.
- SelfUpdate.Updater.AfterInstall: `$wp_filesystem->move` and `activate_plugin` are returned as instructions (`move`, `reactivate`). They are not performed.
- WpInfo.GetThemesInfo: a theme whose directory name is a decimal integer keeps its slug as a string in the model. The program emits that slug as a JSON integer.
- WpInfo.GetPluginsInfo: `in_array`'s loose comparison is modelled as exact membership. That is the same for the string paths WordPress stores.
- The host inventories are inputs: `get_plugins`, `wp_get_themes`, `get_users`, `count_users`, `get_sites`, the `$wpdb` queries and the site options.
- ServerInfo.FormatBytes: only the unit is modelled. The `log`/`pow`/`round` floating-point arithmetic and the decimal mantissa of the string are left out. At exact powers of 1024 the floating-point `log` ratio may round differently from the integer threshold used here.
- ServerInfo.GetDiskInfo: `used_percentage` (floating point) is left out. So is the division by zero it would raise when the total space is 0.
- ServerInfo.GetDirectorySize: the directory is an abstract tree of files, directories and other entries, and the model always returns a total. The iteration in webmaster-monitor/includes/class-server-info.php:195-204 has no try/catch, so an unreadable subdirectory makes the iterator throw an uncaught `UnexpectedValueException` and the whole server-information collector fails; that failure path is not modelled.
- ServerInfo.GetDatabaseInfo: the database charset, collation and prefix are inputs.
- Multisite.GetCurrentSiteInfo: on a single site the real array has no `domain`, `path` or `network_id` keys at all. The model reports them as null.
