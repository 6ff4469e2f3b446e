/** The WordPress collectors (class WM_Monitor_WP_Info): core update status, the plugin
    and theme inventories with their update counters, the administrator roster, the
    cached site-health verdict and the important constants. */
module WpInfo {
  import opened Wrappers
  import Php
  import opened Host
  import opened Collections

  // ---------------------------------------------------------------- core

  datatype CoreInfo = CoreInfo(version: string, updateAvailable: bool, latestVersion: string)

  /** `get_core_info`: an update is available exactly when the first entry of the
      `update_core` transient says "upgrade"; then its version is the latest one,
      otherwise the installed version is. */
  function GetCoreInfo(wpVersion: string, updates: seq<CoreOffer>): (c: CoreInfo)
    ensures c.version == wpVersion
    ensures c.updateAvailable <==> updates != [] && updates[0].response == Some("upgrade")
    ensures c.updateAvailable ==> c.latestVersion == updates[0].version
    ensures !c.updateAvailable ==> c.latestVersion == wpVersion
  {
    if updates != [] && updates[0].response == Some("upgrade") then CoreInfo(wpVersion, true, updates[0].version)
    else CoreInfo(wpVersion, false, wpVersion)
  }

  // ---------------------------------------------------------------- plugins

  /** A plugin header as `get_plugins()` reports it, keyed by its file path. */
  datatype InstalledPlugin = InstalledPlugin(path: string, name: string, version: string, author: string)

  datatype PluginEntry = PluginEntry(
    name: string, slug: string, version: string, author: string,
    active: bool, updateAvailable: bool, newVersion: string)

  datatype PluginsInfo = PluginsInfo(total: int, active: int, inactive: int, updatesAvailable: int, list: seq<PluginEntry>)

  predicate PluginHasUpdate(e: PluginEntry) {
    e.updateAvailable
  }

  /** `get_plugins_info`. `updates` is the `update_plugins` site transient, if set. */
  method GetPluginsInfo(installed: seq<InstalledPlugin>, activePlugins: seq<string>, updates: Option<PluginUpdates>)
    returns (info: PluginsInfo)
    ensures info.total == |installed| && info.active == |activePlugins|
    ensures info.inactive == info.total - info.active
    ensures |info.list| == |installed|
    ensures forall i :: 0 <= i < |installed| ==>
              var p, e := installed[i], info.list[i];
              && e.name == p.name && e.slug == Php.Dirname(p.path) && e.version == p.version && e.author == p.author
              && (e.active <==> p.path in activePlugins)
              && (e.updateAvailable <==> updates.Some? && p.path in updates.value.response)
              && e.newVersion == (if e.updateAvailable then updates.value.response[p.path].newVersion else "")
    ensures info.updatesAvailable == Count(info.list, PluginHasUpdate)
    ensures info.updatesAvailable == 0 <==> forall i :: 0 <= i < |info.list| ==> !info.list[i].updateAvailable
  {
    var list: seq<PluginEntry> := [];
    var count := 0;
    var i := 0;
    while i < |installed|
      invariant 0 <= i <= |installed| && |list| == i
      invariant forall j :: 0 <= j < i ==>
                  var p, e := installed[j], list[j];
                  && e.name == p.name && e.slug == Php.Dirname(p.path) && e.version == p.version && e.author == p.author
                  && (e.active <==> p.path in activePlugins)
                  && (e.updateAvailable <==> updates.Some? && p.path in updates.value.response)
                  && e.newVersion == (if e.updateAvailable then updates.value.response[p.path].newVersion else "")
      invariant count == Count(list, PluginHasUpdate)
    {
      var p := installed[i];
      var hasUpdate := false;
      var newVersion := "";
      if updates.Some? && p.path in updates.value.response {
        hasUpdate := true;
        newVersion := updates.value.response[p.path].newVersion;
        count := count + 1;
      }
      var e := PluginEntry(p.name, Php.Dirname(p.path), p.version, p.author, p.path in activePlugins, hasUpdate, newVersion);
      assert (list + [e])[..|list|] == list;
      list := list + [e];
      i := i + 1;
    }
    info := PluginsInfo(|installed|, |activePlugins|, |installed| - |activePlugins|, count, list);
    CountZero(list, PluginHasUpdate);
  }

  // ---------------------------------------------------------------- themes

  datatype InstalledTheme = InstalledTheme(slug: string, name: string, version: string)

  /** The active theme as `wp_get_theme()` reports it; `parentName` is set for a child theme. */
  datatype ActiveTheme = ActiveTheme(
    name: string, version: string, author: string, template: string, stylesheet: string,
    parentName: Option<string>)

  datatype ActiveSummary = ActiveSummary(
    name: string, version: string, author: string, template: string, stylesheet: string,
    isChild: bool, parent: Option<string>)

  datatype ThemeEntry = ThemeEntry(
    name: string, slug: string, version: string, active: bool, updateAvailable: bool, newVersion: string)

  datatype ThemesInfo = ThemesInfo(total: int, active: ActiveSummary, updatesAvailable: int, list: seq<ThemeEntry>)

  predicate ThemeHasUpdate(e: ThemeEntry) {
    e.updateAvailable
  }

  /** The `active` block: `is_child` holds exactly for a child theme, and only then is
      the parent's name included. */
  function Summarize(t: ActiveTheme): (s: ActiveSummary)
    ensures s.isChild <==> t.parentName.Some?
    ensures s.parent.Some? <==> s.isChild
    ensures s.parent == t.parentName && s.stylesheet == t.stylesheet
  {
    ActiveSummary(t.name, t.version, t.author, t.template, t.stylesheet, t.parentName.Some?, t.parentName)
  }

  /** `get_themes_info`. `updates` maps the slugs in the `update_themes` response to their new version
      (a decimal slug is converted to the same integer key on both sides, so the lookup still finds it). */
  method GetThemesInfo(installed: seq<InstalledTheme>, active: ActiveTheme, updates: Option<map<string, string>>)
    returns (info: ThemesInfo)
    ensures info.total == |installed| && info.active == Summarize(active)
    ensures |info.list| == |installed|
    ensures forall i :: 0 <= i < |installed| ==>
              var t, e := installed[i], info.list[i];
              && e.name == t.name && e.slug == t.slug && e.version == t.version
              && (e.active <==> t.slug == active.stylesheet && !Php.DecimalKey(t.slug))
              && (e.updateAvailable <==> updates.Some? && t.slug in updates.value)
              && e.newVersion == (if e.updateAvailable then updates.value[t.slug] else "")
    ensures info.updatesAvailable == Count(info.list, ThemeHasUpdate)
    ensures info.updatesAvailable == 0 <==> forall i :: 0 <= i < |info.list| ==> !info.list[i].updateAvailable
  {
    var list: seq<ThemeEntry> := [];
    var count := 0;
    var i := 0;
    while i < |installed|
      invariant 0 <= i <= |installed| && |list| == i
      invariant forall j :: 0 <= j < i ==>
                  var t, e := installed[j], list[j];
                  && e.name == t.name && e.slug == t.slug && e.version == t.version
                  && (e.active <==> t.slug == active.stylesheet && !Php.DecimalKey(t.slug))
                  && (e.updateAvailable <==> updates.Some? && t.slug in updates.value)
                  && e.newVersion == (if e.updateAvailable then updates.value[t.slug] else "")
      invariant count == Count(list, ThemeHasUpdate)
    {
      var t := installed[i];
      var hasUpdate := false;
      var newVersion := "";
      if updates.Some? && t.slug in updates.value {
        hasUpdate := true;
        newVersion := updates.value[t.slug];
        count := count + 1;
      }
      // The slug is an array key of `wp_get_themes()`: a decimal slug has become an
      // integer there, and an integer is never identical to the stylesheet string.
      var isActive := t.slug == active.stylesheet && !Php.DecimalKey(t.slug);
      var e := ThemeEntry(t.name, t.slug, t.version, isActive, hasUpdate, newVersion);
      assert (list + [e])[..|list|] == list;
      list := list + [e];
      i := i + 1;
    }
    info := ThemesInfo(|installed|, Summarize(active), count, list);
    CountZero(list, ThemeHasUpdate);
  }

  // ---------------------------------------------------------------- users

  datatype User = User(id: int, login: string, email: string, registered: string)

  datatype AdminEntry = AdminEntry(id: int, username: string, email: string, registered: string, lastLogin: string)

  datatype UsersInfo = UsersInfo(total: int, byRole: map<string, int>, administrators: seq<AdminEntry>)

  /** `get_users_info`: the counts come from `count_users()`; one roster entry per
      administrator, in order, with its `last_login` user meta. */
  method GetUsersInfo(total: int, byRole: map<string, int>, admins: seq<User>, lastLogin: int -> string)
    returns (info: UsersInfo)
    ensures info.total == total && info.byRole == byRole
    ensures |info.administrators| == |admins|
    ensures forall i :: 0 <= i < |admins| ==>
              info.administrators[i] == AdminEntry(admins[i].id, admins[i].login, admins[i].email,
                                                   admins[i].registered, lastLogin(admins[i].id))
  {
    var roster: seq<AdminEntry> := [];
    var i := 0;
    while i < |admins|
      invariant 0 <= i <= |admins| && |roster| == i
      invariant forall j :: 0 <= j < i ==>
                  roster[j] == AdminEntry(admins[j].id, admins[j].login, admins[j].email,
                                          admins[j].registered, lastLogin(admins[j].id))
    {
      var a := admins[i];
      roster := roster + [AdminEntry(a.id, a.login, a.email, a.registered, lastLogin(a.id))];
      i := i + 1;
    }
    info := UsersInfo(total, byRole, roster);
  }

  // ---------------------------------------------------------------- site health

  /** What `json_decode(..., true)` made of the cached text: something falsy, or an
      array whose `status` key may be missing. */
  datatype Decoded = Falsy | Assoc(status: Option<string>)

  datatype SiteHealth = SiteHealth(status: string, tests: seq<string>)

  /** `get_site_health`: "unknown" unless the cached result is truthy, decodes to a
      truthy array and that array has a `status`. */
  function GetSiteHealth(cached: Option<string>, decode: string -> Decoded): (h: SiteHealth)
    ensures h.tests == []
    ensures h.status != "unknown" ==>
              cached.Some? && !Php.Empty(cached.value) && decode(cached.value).Assoc?
              && decode(cached.value).status == Some(h.status)
    ensures (cached.Some? && !Php.Empty(cached.value) && decode(cached.value).Assoc?
             && decode(cached.value).status.Some?) ==> h.status == decode(cached.value).status.value
  {
    var status :=
      if cached.None? || Php.Empty(cached.value) then "unknown"
      else match decode(cached.value)
        case Falsy => "unknown"
        case Assoc(s) => s.GetOr("unknown");
    SiteHealth(status, [])
  }

  // ---------------------------------------------------------------- constants

  /** The constants reported, in order, with the value used when one is not defined. */
  const ConstantDefaults: seq<(string, Php.Value)> := [
    ("WP_DEBUG", Php.Bool(false)),
    ("WP_DEBUG_LOG", Php.Bool(false)),
    ("WP_DEBUG_DISPLAY", Php.Bool(true)),
    ("SCRIPT_DEBUG", Php.Bool(false)),
    ("WP_CACHE", Php.Bool(false)),
    ("CONCATENATE_SCRIPTS", Php.Bool(true)),
    ("COMPRESS_SCRIPTS", Php.Bool(false)),
    ("COMPRESS_CSS", Php.Bool(false)),
    ("WP_AUTO_UPDATE_CORE", Php.Str("minor")),
    ("DISALLOW_FILE_EDIT", Php.Bool(false)),
    ("DISALLOW_FILE_MODS", Php.Bool(false)),
    ("WP_MEMORY_LIMIT", Php.Str("40M")),
    ("WP_MAX_MEMORY_LIMIT", Php.Str("256M"))
  ]

  /** `get_wp_constants`: thirteen entries in the listed order; a defined constant
      reports its value, an undefined one its default. */
  function GetWpConstants(defined: map<string, Php.Value>): (r: seq<(string, Php.Value)>)
    ensures |r| == |ConstantDefaults| == 13
    ensures forall i :: 0 <= i < |r| ==> r[i].0 == ConstantDefaults[i].0
    ensures forall i :: 0 <= i < |r| ==>
              r[i].1 == (if ConstantDefaults[i].0 in defined then defined[ConstantDefaults[i].0] else ConstantDefaults[i].1)
  {
    seq(|ConstantDefaults|, i requires 0 <= i < |ConstantDefaults| =>
      var (name, default) := ConstantDefaults[i];
      (name, if name in defined then defined[name] else default))
  }

  /** With nothing defined, the debug display and script concatenation default to on,
      automatic core updates to "minor" and the memory limits to 40M / 256M. */
  lemma UndefinedConstantDefaults()
    ensures GetWpConstants(map[])[2] == ("WP_DEBUG_DISPLAY", Php.Bool(true))
    ensures GetWpConstants(map[])[5] == ("CONCATENATE_SCRIPTS", Php.Bool(true))
    ensures GetWpConstants(map[])[8] == ("WP_AUTO_UPDATE_CORE", Php.Str("minor"))
    ensures GetWpConstants(map[])[11] == ("WP_MEMORY_LIMIT", Php.Str("40M"))
    ensures GetWpConstants(map[])[12] == ("WP_MAX_MEMORY_LIMIT", Php.Str("256M"))
  {
  }
}
