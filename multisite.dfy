/** The network collectors (class WM_Monitor_Multisite_Info): network identity, the
    subsite roster gathered by switching into each blog, the network-activated
    plugins, and the composition that shows roster data only on the main site. */
module Multisite {
  import opened Wrappers
  import Php
  import opened Collections

  // ---------------------------------------------------------------- network info

  datatype Network = Network(id: int, siteName: string, domain: string, path: string)

  datatype NetworkInfo = NetworkInfo(
    isMultisite: bool,
    isMainSite: bool,
    networkId: Option<int>,
    networkName: Option<string>,
    networkDomain: Option<string>,
    networkPath: Option<string>,
    siteCount: int,
    installationType: Option<string>)

  /** What a single-site install reports: false, null and 0 throughout. */
  const SingleSiteInfo := NetworkInfo(false, false, None, None, None, None, 0, None)

  /** `get_network_info`. The current blog is the main site when its id is `mainSiteId`. */
  function GetNetworkInfo(isMultisite: bool, currentBlog: int, mainSiteId: int, network: Option<Network>,
                          blogCount: int, subdomainInstall: Option<Php.Value>): (n: NetworkInfo)
    ensures !isMultisite ==> n == SingleSiteInfo
    ensures isMultisite ==> n.isMultisite && n.siteCount == blogCount && (n.isMainSite <==> currentBlog == mainSiteId)
    ensures isMultisite ==> (n.installationType == Some("subdomain") <==> Php.DefinedAndTruthy(subdomainInstall))
    ensures isMultisite ==> (n.installationType == Some("subdirectory") <==> !Php.DefinedAndTruthy(subdomainInstall))
    ensures isMultisite && network.Some? ==>
              && n.networkId == Some(network.value.id) && n.networkName == Some(network.value.siteName)
              && n.networkDomain == Some(network.value.domain) && n.networkPath == Some(network.value.path)
    ensures isMultisite && network.None? ==>
              n.networkId.None? && n.networkName.None? && n.networkDomain.None? && n.networkPath.None?
  {
    if !isMultisite then SingleSiteInfo
    else
      var kind := if Php.DefinedAndTruthy(subdomainInstall) then "subdomain" else "subdirectory";
      match network
      case None => NetworkInfo(true, currentBlog == mainSiteId, None, None, None, None, blogCount, Some(kind))
      case Some(w) =>
        NetworkInfo(true, currentBlog == mainSiteId, Some(w.id), Some(w.siteName), Some(w.domain), Some(w.path),
                    blogCount, Some(kind))
  }

  // ---------------------------------------------------------------- blog context

  /** The host's blog context: the current blog and the stack `switch_to_blog` pushes onto. */
  class BlogContext {
    var current: int
    var stack: seq<int>

    constructor (current: int)
      ensures this.current == current && stack == []
    {
      this.current := current;
      stack := [];
    }

    /** `switch_to_blog`. */
    method SwitchToBlog(id: int)
      modifies this
      ensures current == id && stack == old(stack) + [old(current)]
    {
      stack := stack + [current];
      current := id;
    }

    /** `restore_current_blog`: pops the blog that was current before the last switch;
        with nothing to restore it reports false and changes nothing. */
    method RestoreCurrentBlog() returns (restored: bool)
      modifies this
      ensures restored <==> old(stack) != []
      ensures old(stack) != [] ==> current == old(stack)[|old(stack)| - 1] && stack == old(stack)[..|old(stack)| - 1]
      ensures old(stack) == [] ==> current == old(current) && stack == old(stack)
    {
      if stack == [] {
        return false;
      }
      current := stack[|stack| - 1];
      stack := stack[..|stack| - 1];
      restored := true;
    }
  }

  // ---------------------------------------------------------------- roster

  /** A row of `get_sites()`; the flags are the database's strings, cast with `(bool)`. */
  datatype SiteRecord = SiteRecord(
    blogId: int, networkId: int, domain: string, path: string, registered: string, lastUpdated: string,
    public: string, archived: string, spam: string, deleted: string)

  /** What the host answers from inside a blog's context after `switch_to_blog`. */
  datatype BlogView = BlogView(
    name: string, siteUrl: string, homeUrl: string, publishedPosts: int,
    activePlugins: seq<string>, themeName: string)

  datatype SiteInfo = SiteInfo(
    blogId: int, domain: string, path: string, siteName: string, siteUrl: string, homeUrl: string,
    registered: string, lastUpdated: string,
    public: bool, archived: bool, spam: bool, deleted: bool,
    postCount: int, isMainSite: bool, usersCount: nat, activePluginsCount: nat, activeTheme: string)

  /** The entry for one site, built from what its own blog context reports. */
  function SiteInfoOf(s: SiteRecord, view: BlogView, users: nat, mainSiteId: int): (info: SiteInfo) {
    SiteInfo(s.blogId, s.domain, s.path, view.name, view.siteUrl, view.homeUrl, s.registered, s.lastUpdated,
             !Php.Empty(s.public), !Php.Empty(s.archived), !Php.Empty(s.spam), !Php.Empty(s.deleted),
             view.publishedPosts, s.blogId == mainSiteId, users, |view.activePlugins|, view.themeName)
  }

  /** A site is listed unless it is archived, spam or deleted. */
  predicate Listed(s: SiteRecord) {
    Php.Empty(s.archived) && Php.Empty(s.spam) && Php.Empty(s.deleted)
  }

  /** The roster: the listed sites, in order, each described from its own context. */
  function Roster(sites: seq<SiteRecord>, views: int -> BlogView, users: int -> nat, mainSiteId: int): (roster: seq<SiteInfo>) {
    if sites == [] then []
    else
      var rest := Roster(sites[..|sites| - 1], views, users, mainSiteId);
      var s := sites[|sites| - 1];
      if Listed(s) then rest + [SiteInfoOf(s, views(s.blogId), users(s.blogId), mainSiteId)] else rest
  }

  /** No archived, spam or deleted site ever appears in the roster. */
  lemma {:induction false} RosterHidesUnlisted(sites: seq<SiteRecord>, views: int -> BlogView, users: int -> nat, mainSiteId: int)
    ensures forall e :: e in Roster(sites, views, users, mainSiteId) ==> !e.archived && !e.spam && !e.deleted
  {
    if sites != [] {
      RosterHidesUnlisted(sites[..|sites| - 1], views, users, mainSiteId);
    }
  }

  /** Every listed site does appear, described from its own blog context. */
  lemma {:induction false} RosterKeepsListed(sites: seq<SiteRecord>, views: int -> BlogView, users: int -> nat, mainSiteId: int)
    ensures forall s :: s in sites && Listed(s) ==>
              SiteInfoOf(s, views(s.blogId), users(s.blogId), mainSiteId) in Roster(sites, views, users, mainSiteId)
  {
    if sites != [] {
      var init := sites[..|sites| - 1];
      RosterKeepsListed(init, views, users, mainSiteId);
      assert sites == init + [sites[|sites| - 1]];
    }
  }

  /** The roster has one entry per listed site. */
  lemma {:induction false} RosterSize(sites: seq<SiteRecord>, views: int -> BlogView, users: int -> nat, mainSiteId: int)
    ensures |Roster(sites, views, users, mainSiteId)| == Count(sites, Listed)
  {
    if sites != [] {
      RosterSize(sites[..|sites| - 1], views, users, mainSiteId);
    }
  }

  /** `get_network_sites`. Each site is read between a `switch_to_blog` and its
      `restore_current_blog`, so the blog context ends where it started. The roster is
      empty unless this is a network and the current blog is its main site. */
  method GetNetworkSites(ctx: BlogContext, isMultisite: bool, mainSiteId: int, sites: seq<SiteRecord>,
                         views: int -> BlogView, users: int -> nat)
    returns (roster: seq<SiteInfo>)
    modifies ctx
    ensures ctx.current == old(ctx.current) && ctx.stack == old(ctx.stack)
    ensures !isMultisite || old(ctx.current) != mainSiteId ==> roster == []
    ensures isMultisite && old(ctx.current) == mainSiteId ==> roster == Roster(sites, views, users, mainSiteId)
  {
    if !isMultisite || ctx.current != mainSiteId {
      return [];
    }
    roster := [];
    var i := 0;
    while i < |sites|
      invariant 0 <= i <= |sites|
      invariant ctx.current == old(ctx.current) && ctx.stack == old(ctx.stack)
      invariant roster == Roster(sites[..i], views, users, mainSiteId)
    {
      var s := sites[i];
      ctx.SwitchToBlog(s.blogId);
      var info := SiteInfoOf(s, views(ctx.current), users(s.blogId), mainSiteId);
      var _ := ctx.RestoreCurrentBlog();
      if !info.archived && !info.spam && !info.deleted {
        roster := roster + [info];
      }
      assert sites[..i + 1][..i] == sites[..i];
      i := i + 1;
    }
    assert sites[..i] == sites;
  }

  // ---------------------------------------------------------------- network plugins

  datatype PluginHeader = PluginHeader(name: string, version: string)

  datatype NetworkPlugin = NetworkPlugin(name: string, slug: string, version: string, networkActive: bool)

  /** The network-activated plugins that are installed, in the option's order. */
  function NetworkPluginsOf(sitewide: seq<string>, installed: map<string, PluginHeader>): (plugins: seq<NetworkPlugin>) {
    if sitewide == [] then []
    else
      var rest := NetworkPluginsOf(sitewide[..|sitewide| - 1], installed);
      var f := sitewide[|sitewide| - 1];
      if f in installed then rest + [NetworkPlugin(installed[f].name, Php.Dirname(f), installed[f].version, true)]
      else rest
  }

  /** Each entry comes from a network-activated file that is installed, and is marked network-active. */
  lemma {:induction false} NetworkPluginsAreInstalled(sitewide: seq<string>, installed: map<string, PluginHeader>)
    ensures forall e :: e in NetworkPluginsOf(sitewide, installed) ==>
              e.networkActive && exists f :: f in sitewide && f in installed && e.slug == Php.Dirname(f)
                                              && e.name == installed[f].name && e.version == installed[f].version
  {
    if sitewide != [] {
      var init := sitewide[..|sitewide| - 1];
      NetworkPluginsAreInstalled(init, installed);
      assert forall f :: f in init ==> f in sitewide;
    }
  }

  /** Every network-activated file that is installed is listed. */
  lemma {:induction false} NetworkPluginsAreComplete(sitewide: seq<string>, installed: map<string, PluginHeader>)
    ensures forall f :: f in sitewide && f in installed ==>
              NetworkPlugin(installed[f].name, Php.Dirname(f), installed[f].version, true) in NetworkPluginsOf(sitewide, installed)
  {
    if sitewide != [] {
      var init := sitewide[..|sitewide| - 1];
      NetworkPluginsAreComplete(init, installed);
      assert sitewide == init + [sitewide[|sitewide| - 1]];
    }
  }

  /** `get_network_plugins`; `sitewide` lists the keys of the `active_sitewide_plugins`
      site option in order. */
  method GetNetworkPlugins(isMultisite: bool, sitewide: seq<string>, installed: map<string, PluginHeader>)
    returns (plugins: seq<NetworkPlugin>)
    ensures !isMultisite ==> plugins == []
    ensures isMultisite ==> plugins == NetworkPluginsOf(sitewide, installed)
  {
    if !isMultisite {
      return [];
    }
    plugins := [];
    var i := 0;
    while i < |sitewide|
      invariant 0 <= i <= |sitewide|
      invariant plugins == NetworkPluginsOf(sitewide[..i], installed)
    {
      var f := sitewide[i];
      if f in installed {
        plugins := plugins + [NetworkPlugin(installed[f].name, Php.Dirname(f), installed[f].version, true)];
      }
      assert sitewide[..i + 1][..i] == sitewide[..i];
      i := i + 1;
    }
    assert sitewide[..i] == sitewide;
  }

  // ---------------------------------------------------------------- composition

  datatype MultisiteData = MultisiteData(
    isMultisite: bool, isMainSite: bool, network: NetworkInfo,
    subsites: seq<SiteInfo>, networkPlugins: seq<NetworkPlugin>)

  /** `get_all`: the roster and the network plugins are filled in only on the main
      site of a network; elsewhere they stay empty and the blog context is untouched. */
  method GetAll(ctx: BlogContext, isMultisite: bool, mainSiteId: int, network: Option<Network>, blogCount: int,
                subdomainInstall: Option<Php.Value>, sites: seq<SiteRecord>, views: int -> BlogView,
                users: int -> nat, sitewide: seq<string>, installed: map<string, PluginHeader>)
    returns (data: MultisiteData)
    modifies ctx
    ensures ctx.current == old(ctx.current) && ctx.stack == old(ctx.stack)
    ensures data.network == GetNetworkInfo(isMultisite, old(ctx.current), mainSiteId, network, blogCount, subdomainInstall)
    ensures data.isMultisite == data.network.isMultisite && data.isMainSite == data.network.isMainSite
    ensures !(isMultisite && old(ctx.current) == mainSiteId) ==> data.subsites == [] && data.networkPlugins == []
    ensures isMultisite && old(ctx.current) == mainSiteId ==>
              data.subsites == Roster(sites, views, users, mainSiteId)
              && data.networkPlugins == NetworkPluginsOf(sitewide, installed)
  {
    var info := GetNetworkInfo(isMultisite, ctx.current, mainSiteId, network, blogCount, subdomainInstall);
    data := MultisiteData(info.isMultisite, info.isMainSite, info, [], []);
    if info.isMultisite && info.isMainSite {
      var subsites := GetNetworkSites(ctx, isMultisite, mainSiteId, sites, views, users);
      var plugins := GetNetworkPlugins(isMultisite, sitewide, installed);
      data := data.(subsites := subsites, networkPlugins := plugins);
    }
  }

  datatype CurrentSite = CurrentSite(
    blogId: int, isMainSite: bool, domain: Option<string>, path: Option<string>, networkId: Option<int>)

  /** `get_current_site_info`: a single-site install is blog 1 and its own main site;
      on a network the current blog is described by its `get_site` row, whose fields are
      null when there is none. */
  function GetCurrentSiteInfo(isMultisite: bool, currentBlog: int, mainSiteId: int, site: Option<SiteRecord>)
    : (c: CurrentSite)
    ensures !isMultisite ==> c == CurrentSite(1, true, None, None, None)
    ensures isMultisite ==> c.blogId == currentBlog && (c.isMainSite <==> currentBlog == mainSiteId)
    ensures isMultisite && site.None? ==> c.domain.None? && c.path.None? && c.networkId.None?
    ensures isMultisite && site.Some? ==>
              c.domain == Some(site.value.domain) && c.path == Some(site.value.path)
              && c.networkId == Some(site.value.networkId)
  {
    if !isMultisite then CurrentSite(1, true, None, None, None)
    else match site
      case None => CurrentSite(currentBlog, currentBlog == mainSiteId, None, None, None)
      case Some(s) => CurrentSite(currentBlog, currentBlog == mainSiteId, Some(s.domain), Some(s.path), Some(s.networkId))
  }
}
