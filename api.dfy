/** The REST surface (class WM_Monitor_API): the route table with its permission
    callbacks, the API-key gate, the public health check and the apply-update
    coordinator that drives the host's upgraders. */
module Api {
  import opened Wrappers
  import Php
  import Monitor
  import opened Host

  // ---------------------------------------------------------------- the gate

  /** What the gate reads from a request: the `X-WM-API-Key` header and the
      `api_key` query parameter, each possibly absent. */
  datatype Request = Request(header: Option<string>, apiKeyParam: Option<string>)

  /** A permission callback's answer: `true`, or a WP_Error with code and HTTP status. */
  datatype Permission = Granted | Denied(code: string, status: int)

  /** The candidate key: the header, unless it is empty, in which case the parameter. */
  function Candidate(req: Request): (c: Option<string>)
    ensures !Php.EmptyOrNull(req.header) ==> c == req.header
    ensures Php.EmptyOrNull(req.header) ==> c == req.apiKeyParam
  {
    if Php.EmptyOrNull(req.header) then req.apiKeyParam else req.header
  }

  /** `verify_api_key($request)` against the stored key. */
  function VerifyRequest(stored: Option<string>, req: Request): (p: Permission)
    ensures p == Granted || p == Denied("missing_api_key", 401) || p == Denied("invalid_api_key", 403)
    ensures p == Denied("missing_api_key", 401) <==> Php.EmptyOrNull(req.header) && Php.EmptyOrNull(req.apiKeyParam)
    ensures p == Granted <==> Candidate(req).Some? && Monitor.VerifyKey(stored, Candidate(req).value)
    ensures p == Granted ==> stored == Candidate(req)
  {
    var key := Candidate(req);
    if Php.EmptyOrNull(key) then Denied("missing_api_key", 401)
    else if !Monitor.VerifyKey(stored, key.value) then Denied("invalid_api_key", 403)
    else Granted
  }

  /** The header wins: when it is set, the query parameter is never looked at. */
  lemma HeaderShadowsParameter(stored: Option<string>, header: string, p1: Option<string>, p2: Option<string>)
    requires !Php.Empty(header)
    ensures VerifyRequest(stored, Request(Some(header), p1)) == VerifyRequest(stored, Request(Some(header), p2))
  {
  }

  /** With nothing stored, every request is refused. */
  lemma GateFailsClosed(req: Request)
    ensures VerifyRequest(None, req) != Granted
  {
  }

  datatype Guard = Public | ApiKeyRequired

  datatype Route = Route(path: string, httpMethod: string, guard: Guard)

  /** The routes `register_routes` installs under the namespace, with their permission callbacks. */
  const Routes: seq<Route> := [
    Route("/status", "GET", ApiKeyRequired),
    Route("/server", "GET", ApiKeyRequired),
    Route("/wordpress", "GET", ApiKeyRequired),
    Route("/health", "GET", Public),
    Route("/ping", "GET", ApiKeyRequired),
    Route("/apply-update", "POST", ApiKeyRequired)
  ]

  /** The permission callback of a route. */
  function Authorize(route: Route, stored: Option<string>, req: Request): (p: Permission)
    ensures route.guard == Public ==> p == Granted
    ensures route.guard == ApiKeyRequired ==> p == VerifyRequest(stored, req)
  {
    match route.guard
    case Public => Granted
    case ApiKeyRequired => VerifyRequest(stored, req)
  }

  /** `/health` is the only route that is not gated: every other route refuses a
      request that carries no key, whatever is stored. */
  lemma OnlyHealthIsPublic(stored: Option<string>)
    ensures forall r :: r in Routes ==> (r.guard == Public <==> r.path == "/health")
    ensures forall r :: r in Routes && r.path != "/health" ==>
              Authorize(r, stored, Request(None, None)) == Denied("missing_api_key", 401)
  {
  }

  // ---------------------------------------------------------------- health

  datatype Health = Health(status: string, database: bool, filesystem: bool, cron: bool, httpStatus: int)

  /** `get_health`: the database check passes when `SELECT 1` answers "1", the
      filesystem check when the content directory is writable, the cron check unless
      DISABLE_WP_CRON is defined truthy. Only the first two can turn the status to "error";
      the response is always HTTP 200. */
  function GetHealth(selectOne: Option<string>, contentWritable: bool, disableCron: Option<Php.Value>): (h: Health)
    ensures h.database <==> selectOne == Some("1")
    ensures h.filesystem == contentWritable
    ensures h.cron <==> !Php.DefinedAndTruthy(disableCron)
    ensures h.status == "error" <==> !h.database || !h.filesystem
    ensures h.status == "ok" <==> h.database && h.filesystem
    ensures h.httpStatus == 200
  {
    var checks := Health("ok", selectOne == Some("1"), contentWritable, !Php.DefinedAndTruthy(disableCron), 200);
    if !checks.database || !checks.filesystem then checks.(status := "error") else checks
  }

  /** The cron check is informational: it never changes the overall status. */
  lemma CronNeverDowngradesHealth(selectOne: Option<string>, writable: bool, c1: Option<Php.Value>, c2: Option<Php.Value>)
    ensures GetHealth(selectOne, writable, c1).status == GetHealth(selectOne, writable, c2).status
  {
  }

  // ---------------------------------------------------------------- apply-update

  datatype Kind = PluginKind | ThemeKind | CoreKind

  /** The `switch ($type)` of `apply_update`. */
  function ParseKind(t: string): (k: Option<Kind>)
    ensures k == Some(PluginKind) <==> t == "plugin"
    ensures k == Some(ThemeKind) <==> t == "theme"
    ensures k == Some(CoreKind) <==> t == "core"
  {
    if t == "plugin" then Some(PluginKind)
    else if t == "theme" then Some(ThemeKind)
    else if t == "core" then Some(CoreKind)
    else None
  }

  /** What an upgrader's `upgrade()` returned: a WP_Error, `false`, or anything else. */
  datatype Upgraded = UpgradeError(code: string, message: string) | UpgradeFalse | UpgradeReturned

  /** One run of the host's upgrader: it returned, or it threw. */
  datatype UpgraderRun = Returned(value: Upgraded) | Threw(message: string)

  /** What an upgrader was asked to install. */
  datatype Target = PluginFile(file: string) | ThemeSlug(slug: string) | CoreUpdate(offer: CoreOffer)

  /** What `update_plugin`, `update_theme` and `update_core` hand back to `apply_update`. */
  datatype Step = StepError(code: string, message: string) | StepThrew(message: string) | StepDone(newVersion: Option<string>)

  function NoUpdateMessage(k: Kind): string {
    match k
    case PluginKind => "Nessun aggiornamento disponibile per questo plugin"
    case ThemeKind => "Nessun aggiornamento disponibile per questo tema"
    case CoreKind => "WordPress e' gia' aggiornato all'ultima versione"
  }

  function FailedMessage(k: Kind): string {
    match k
    case PluginKind => "Aggiornamento plugin fallito"
    case ThemeKind => "Aggiornamento tema fallito"
    case CoreKind => "Aggiornamento WordPress fallito"
  }

  /** The classification after an upgrader ran: a host error passes through, `false`
      becomes `upgrade_failed`, a throw is kept for the catch, anything else is success
      with the version the host reports afterwards. */
  function AfterUpgrade(k: Kind, run: UpgraderRun, newVersion: Option<string>): (s: Step)
    ensures run.Threw? ==> s == StepThrew(run.message)
    ensures run.Returned? && run.value.UpgradeError? ==> s == StepError(run.value.code, run.value.message)
    ensures run == Returned(UpgradeFalse) ==> s == StepError("upgrade_failed", FailedMessage(k))
    ensures s.StepDone? <==> run == Returned(UpgradeReturned)
    ensures s.StepDone? ==> s.newVersion == newVersion
  {
    match run
    case Threw(m) => StepThrew(m)
    case Returned(UpgradeError(c, m)) => StepError(c, m)
    case Returned(UpgradeFalse) => StepError("upgrade_failed", FailedMessage(k))
    case Returned(UpgradeReturned) => StepDone(newVersion)
  }

  /** A response-list file refers to the requested slug by its directory or its whole name. */
  predicate Matches(file: string, slug: string) {
    Php.Dirname(file) == slug || file == slug
  }

  /** A plugin stored as `dir/file.php` is found by its directory name. */
  lemma PluginFoundByDirectory(dir: string, file: string)
    requires dir != "" && Php.NoSlash(dir) && file != "" && Php.NoSlash(file)
    ensures Matches(dir + "/" + file, dir)
  {
    Php.DirnameOfPluginPath(dir, file);
  }

  /** A single-file plugin is found by its whole file name -- and also by the slug ".",
      which is what `dirname` reports for it. */
  lemma SingleFilePluginMatches(file: string, slug: string)
    requires file != "" && Php.NoSlash(file)
    ensures Matches(file, slug) <==> slug == file || slug == "."
  {
    Php.DirnameOfBareFile(file);
  }

  /** `files[i]` is the first file that refers to `slug`. */
  predicate IsFirstMatchAt(files: seq<string>, slug: string, i: int) {
    0 <= i < |files| && Matches(files[i], slug) && forall j :: 0 <= j < i ==> !Matches(files[j], slug)
  }

  /** The `foreach ... break` of `update_plugin` over the keys of the refreshed
      `update_plugins` response, in iteration order: the first match wins. */
  method FindPluginFile(files: seq<string>, slug: string) returns (found: Option<string>)
    ensures found.None? <==> forall i :: 0 <= i < |files| ==> !Matches(files[i], slug)
    ensures found.Some? ==> exists i :: IsFirstMatchAt(files, slug, i) && files[i] == found.value
  {
    found := None;
    var i := 0;
    while i < |files|
      invariant 0 <= i <= |files|
      invariant forall j :: 0 <= j < i ==> !Matches(files[j], slug)
    {
      if Matches(files[i], slug) {
        found := Some(files[i]);
        assert IsFirstMatchAt(files, slug, i);
        return;
      }
      i := i + 1;
    }
  }

  /** `update_plugin`: no target (and no upgrader call) when no file matches or the
      match is a falsy string; otherwise only the first match is upgraded. */
  method UpdatePlugin(slug: string, files: seq<string>, run: UpgraderRun, installedVersion: Option<string>)
    returns (s: Step, target: Option<Target>)
    ensures target.Some? ==> target.value.PluginFile? && !Php.Empty(target.value.file)
                             && exists i :: IsFirstMatchAt(files, slug, i) && files[i] == target.value.file
    ensures target.None? <==> (forall i :: 0 <= i < |files| ==> !Matches(files[i], slug))
                              || exists i :: IsFirstMatchAt(files, slug, i) && Php.Empty(files[i])
    ensures target.None? ==> s == StepError("no_update", NoUpdateMessage(PluginKind))
    ensures target.Some? ==> s == AfterUpgrade(PluginKind, run, installedVersion)
  {
    var found := FindPluginFile(files, slug);
    if found.None? || Php.Empty(found.value) {
      return StepError("no_update", NoUpdateMessage(PluginKind)), None;
    }
    target := Some(PluginFile(found.value));
    s := AfterUpgrade(PluginKind, run, installedVersion);
  }

  /** `update_theme`: upgrades `slug` only when the refreshed `update_themes` response
      holds a non-empty entry for it. */
  function UpdateTheme(slug: string, themesWithUpdate: set<string>, run: UpgraderRun, installedVersion: Option<string>)
    : (r: (Step, Option<Target>))
    ensures slug !in themesWithUpdate <==> r.1.None?
    ensures r.1.Some? ==> r.1.value == ThemeSlug(slug) && r.0 == AfterUpgrade(ThemeKind, run, installedVersion)
    ensures r.1.None? ==> r.0 == StepError("no_update", NoUpdateMessage(ThemeKind))
  {
    if slug !in themesWithUpdate then (StepError("no_update", NoUpdateMessage(ThemeKind)), None)
    else (AfterUpgrade(ThemeKind, run, installedVersion), Some(ThemeSlug(slug)))
  }

  /** `update_core`: nothing to do when the list is empty or its first entry is
      "latest"; otherwise only `updates[0]` is installed. */
  function UpdateCore(offers: seq<CoreOffer>, run: UpgraderRun, versionAfter: string): (r: (Step, Option<Target>))
    ensures r.1.None? <==> offers == [] || offers[0].response == Some("latest")
    ensures r.1.Some? ==> r.1.value == CoreUpdate(offers[0]) && r.0 == AfterUpgrade(CoreKind, run, Some(versionAfter))
    ensures r.1.None? ==> r.0 == StepError("no_update", NoUpdateMessage(CoreKind))
  {
    if offers == [] || offers[0].response == Some("latest") then (StepError("no_update", NoUpdateMessage(CoreKind)), None)
    else (AfterUpgrade(CoreKind, run, Some(versionAfter)), Some(CoreUpdate(offers[0])))
  }

  /** The body of an apply-update response. */
  datatype UpdateBody =
    | UpdateFailed(error: string, kind: string, slug: string)
    | UpdateSucceeded(message: string, kind: string, slug: string, newVersion: Option<string>)

  /** A REST response with its status, or a WP_Error for a type the switch does not know. */
  datatype Reply = Reply(status: int, body: UpdateBody) | Rejected(code: string, status: int)

  function SuccessMessage(k: Kind): string {
    match k
    case PluginKind => "Plugin aggiornato con successo"
    case ThemeKind => "Theme aggiornato con successo"
    case CoreKind => "Core aggiornato con successo"
  }

  /** The normalisation of `apply_update`: every error -- including "no update" -- and
      every exception becomes `success: false` with status 500 and the same keys. */
  function Normalize(k: Kind, kind: string, slug: string, s: Step): (r: Reply)
    ensures r.Reply?
    ensures r.status == 500 <==> !s.StepDone?
    ensures r.status == 200 <==> s.StepDone?
    ensures s.StepError? ==> r.body == UpdateFailed(s.message, kind, slug)
    ensures s.StepThrew? ==> r.body == UpdateFailed(s.message, kind, slug)
    ensures s.StepDone? ==> r.body == UpdateSucceeded(SuccessMessage(k), kind, slug, s.newVersion)
  {
    match s
    case StepError(_, m) => Reply(500, UpdateFailed(m, kind, slug))
    case StepThrew(m) => Reply(500, UpdateFailed(m, kind, slug))
    case StepDone(v) => Reply(200, UpdateSucceeded(SuccessMessage(k), kind, slug, v))
  }

  /** A host error and an exception with the same message are indistinguishable to the caller. */
  lemma ErrorsAndExceptionsLookAlike(k: Kind, kind: string, slug: string, code: string, message: string)
    ensures Normalize(k, kind, slug, StepError(code, message)) == Normalize(k, kind, slug, StepThrew(message))
  {
  }

  /** The host state the coordinator reads after its forced refresh, and the
      versions the host reports once an install is done. */
  datatype HostUpdates = HostUpdates(
    pluginFiles: seq<string>,        // keys of update_plugins->response, in order
    themesWithUpdate: set<string>,   // slugs with a non-empty update_themes->response entry
    coreOffers: seq<CoreOffer>,      // get_core_updates()
    pluginVersionAfter: Option<string>,
    themeVersionAfter: Option<string>,
    coreVersionAfter: string)

  /** `apply_update`. */
  method ApplyUpdate(kind: string, slug: string, host: HostUpdates, run: UpgraderRun)
    returns (reply: Reply, target: Option<Target>)
    ensures ParseKind(kind).None? ==> reply == Rejected("invalid_type", 400) && target.None?
    ensures ParseKind(kind).Some? && target.None? ==>
              reply == Reply(500, UpdateFailed(NoUpdateMessage(ParseKind(kind).value), kind, slug))
    ensures kind == "plugin" && target.Some? ==>
              reply == Normalize(PluginKind, kind, slug, AfterUpgrade(PluginKind, run, host.pluginVersionAfter))
              && target.value.PluginFile?
              && exists i :: IsFirstMatchAt(host.pluginFiles, slug, i) && host.pluginFiles[i] == target.value.file
    ensures kind == "plugin" && target.None? ==>
              (forall i :: 0 <= i < |host.pluginFiles| ==> !Matches(host.pluginFiles[i], slug))
              || exists i :: IsFirstMatchAt(host.pluginFiles, slug, i) && Php.Empty(host.pluginFiles[i])
    ensures kind == "theme" ==>
              var (s, t) := UpdateTheme(slug, host.themesWithUpdate, run, host.themeVersionAfter);
              target == t && reply == Normalize(ThemeKind, kind, slug, s)
    ensures kind == "core" ==>
              var (s, t) := UpdateCore(host.coreOffers, run, host.coreVersionAfter);
              target == t && reply == Normalize(CoreKind, kind, slug, s)
  {
    var k := ParseKind(kind);
    if k.None? {
      return Rejected("invalid_type", 400), None;
    }
    var s: Step;
    match k.value {
      case PluginKind =>
        s, target := UpdatePlugin(slug, host.pluginFiles, run, host.pluginVersionAfter);
      case ThemeKind =>
        var r := UpdateTheme(slug, host.themesWithUpdate, run, host.themeVersionAfter);
        s, target := r.0, r.1;
      case CoreKind =>
        var r := UpdateCore(host.coreOffers, run, host.coreVersionAfter);
        s, target := r.0, r.1;
    }
    reply := Normalize(k.value, kind, slug, s);
  }

  /** A core request when the best candidate is already "latest" reports "no update",
      not an upgrade failure, and installs nothing. */
  lemma CoreAlreadyLatest(offers: seq<CoreOffer>, run: UpgraderRun, versionAfter: string, slug: string)
    requires offers != [] && offers[0].response == Some("latest")
    ensures UpdateCore(offers, run, versionAfter).1.None?
    ensures Normalize(CoreKind, "core", slug, UpdateCore(offers, run, versionAfter).0)
            == Reply(500, UpdateFailed(NoUpdateMessage(CoreKind), "core", slug))
  {
  }
}
