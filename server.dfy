/** The dynamic server: the route table StartServer registers, and what
    each handler answers. HTTP itself is left to a Response value; the
    template engine, the file system, form parsing, sanitising, address
    parsing and SMTP are inputs gathered in a World. */
module Server {
  import opened Outcomes
  import opened Strs
  import opened Paths
  import opened Regex
  import opened Handler
  import Messages
  import Content
  import ModelConfig
  import AppConfig
  import Utils
  import opened Models

  type Html = Utils.Html

  /** The handlers StartServer registers. */
  datatype Endpoint = FaviconFiles | StaticFiles | SendMail | ServeStatus | ServeContent | ServeGeneric

  const StatusSeeOther: int := 303

  /** What a request is answered with: a redirect, a rendered page with its
      status code, an empty response with a status code, the router's 404,
      or a file from the static directory. */
  datatype Response =
    | Redirect(location: string, code: int)
    | Page(code: int, body: Html)
    | Bare(code: int)
    | NotFoundPage
    | StaticFile(path: string)

  /** A request: method, URL path, the "kind" query value ("" when absent)
      and the posted form (None when ParseForm fails). */
  datatype Request = Request(verb: string, path: string, kind: string, form: Option<map<string, string>>)

  /** r.FormValue: the posted value, "" when absent. */
  function FormValue(form: map<string, string>, key: string): string {
    if key in form then form[key] else ""
  }

  /** What os.Stat reports for a path: a file, a directory, that nothing
      is there, or another error (such as a name too long). */
  datatype FileStat = RegularFile | Directory | NotExist | StatFailed

  /** The foreign parts of request handling. */
  datatype World = World(
    stat: string -> FileStat,
    render: (Utils.FuncMap, string, TemplateData, seq<string>) -> Result<Html>,
    loadContent: Content.ContentConfig -> Result<Content.ContentConfig>,
    contentEngine: (Utils.FuncMap, string, Content.Content, seq<string>) -> Result<Html>,
    sanitize: string -> string,
    parseAddress: string -> Option<string>,
    send: (ModelConfig.SMTPConfig, string, string, string, string) -> Option<string>)

  /** The state the handlers read: the loaded config, the base path the
      redirects use, the template function map, the message table and the
      template directories. */
  datatype Site = Site(cfg: ModelConfig.Config, srvBasePath: string, funcMap: Option<Utils.FuncMap>,
                       messages: Messages.Table, htmlTemplatesPath: string, baseTemplatePath: string,
                       contentTemplatesPath: string)

  // ---------------------------------------------------------------------
  // Routes

  /** The routes StartServer registers, in order: each strips the base
      path without its trailing "/". */
  function RouteTable(basePath: string): seq<Route<Endpoint>> {
    var strip := TrimSuffix(basePath, "/");
    [ Route(Literal("/favicon.ico"), FaviconFiles, strip),
      Route(Literal("/static/"), StaticFiles, strip),
      Route(Literal("/mail"), SendMail, strip),
      Route(Group("/", [Messages.EndpointSuccess, Messages.EndpointFail]), ServeStatus, strip),
      Route(Group("/", Content.ContentTypes), ServeContent, strip),
      Route(MatchAll, ServeGeneric, strip) ]
  }

  /** Every request reaches some handler's prefix check: ".*" comes last
      and matches everything, so the router's own 404 never answers. */
  lemma SomeRouteMatches(basePath: string, path: string)
    ensures FirstMatch(RouteTable(basePath), path).Some?
  {
    assert Matches(RouteTable(basePath)[5].pattern, path);
  }

  // ---------------------------------------------------------------------
  // Redirects

  /** The query that carries the message kind. */
  const KindQuery: string := "?kind="

  /** A redirect location: the server base path, the endpoint and the
      message kind as query. */
  function RedirectUrl(srvBasePath: string, endpoint: string, kind: string): string {
    srvBasePath + endpoint + KindQuery + kind
  }

  /** The URL fail redirects to. */
  function FailUrl(srvBasePath: string, kind: string): string {
    RedirectUrl(srvBasePath, Messages.EndpointFail, kind)
  }

  /** The URL success redirects to. */
  function SuccessUrl(srvBasePath: string, kind: string): string {
    RedirectUrl(srvBasePath, Messages.EndpointSuccess, kind)
  }

  function Fail(site: Site, kind: string): Response {
    Redirect(FailUrl(site.srvBasePath, kind), StatusSeeOther)
  }

  function Success(site: Site, kind: string): Response {
    Redirect(SuccessUrl(site.srvBasePath, kind), StatusSeeOther)
  }

  /** A redirect location starts with the base path and the endpoint and
      ends in the kind query. */
  lemma RedirectUrlShape(srvBasePath: string, endpoint: string, kind: string)
    ensures var u := RedirectUrl(srvBasePath, endpoint, kind);
            HasPrefix(u, srvBasePath + endpoint + KindQuery) && HasSuffix(u, KindQuery + kind)
  {
    var u := RedirectUrl(srvBasePath, endpoint, kind);
    var head := srvBasePath + endpoint + KindQuery;
    assert u == head + kind;
    assert u[..|head|] == head;
    assert u == srvBasePath + endpoint + (KindQuery + kind);
    assert u[|u| - |KindQuery + kind|..] == KindQuery + kind;
  }

  /** fail and success redirect with 303 to a location that starts with the
      base path and the endpoint and ends in the kind. */
  lemma RedirectUrls(site: Site, kind: string)
    ensures Fail(site, kind).code == StatusSeeOther && Success(site, kind).code == StatusSeeOther
    ensures HasPrefix(Fail(site, kind).location, site.srvBasePath + Messages.EndpointFail + KindQuery)
    ensures HasSuffix(Fail(site, kind).location, KindQuery + kind)
    ensures HasPrefix(Success(site, kind).location, site.srvBasePath + Messages.EndpointSuccess + KindQuery)
    ensures HasSuffix(Success(site, kind).location, KindQuery + kind)
  {
    RedirectUrlShape(site.srvBasePath, Messages.EndpointFail, kind);
    RedirectUrlShape(site.srvBasePath, Messages.EndpointSuccess, kind);
  }

  // ---------------------------------------------------------------------
  // sendTemplate and abortWithStatusTplCheck

  /** abortWithStatusTplCheck: a failing status template answers 500 at
      once (a redirect would come back to it); any other redirects to the
      generic failure message. */
  function Abort(site: Site, templateName: string): Response {
    if templateName == AppConfig.StatusTemplateName then Bare(Messages.StatusInternalServerError)
    else Fail(site, Messages.MsgGeneric)
  }

  /** The page template file for a template name. */
  function TemplateFile(site: Site, templateName: string): string {
    Join([site.htmlTemplatesPath, templateName + ".html"])
  }

  /** The code a rendered page is sent with: the supplied status when it is
      at least 100, else net/http's default 200. */
  function PageCode(status: Option<int>): (code: int)
    ensures status.Some? && 100 <= status.value ==> code == status.value
    ensures !(status.Some? && 100 <= status.value) ==> code == Messages.StatusOK
  {
    if status.Some? && 100 <= status.value then status.value else Messages.StatusOK
  }

  /** sendTemplate. The template check reads FileInfo.IsDir even when
      os.Stat failed for a reason other than a missing file, which is a
      nil dereference. */
  function SentTemplate(site: Site, world: World, templateName: string, data: PageData, status: Option<int>): Run<Response> {
    if !site.cfg.renderContact && templateName == AppConfig.ContactTemplateName then Done(Fail(site, Messages.MsgNotFound))
    else
      var htmlTpl := TemplateFile(site, templateName);
      if world.stat(htmlTpl) == StatFailed then Stopped(Panic(NilDereference))
      else if world.stat(htmlTpl) != RegularFile then Done(Abort(site, templateName))
      else if site.funcMap.None? then Stopped(LogFatal(Utils.NotInitialized))
      else
        var tplData := TemplateData(data, site.cfg.profile, site.cfg.renderContact);
        match world.render(site.funcMap.value, AppConfig.BaseTemplateName, tplData, [site.baseTemplatePath, htmlTpl])
        case Err(_) => Done(Abort(site, templateName))
        case Ok(html) => Done(Page(PageCode(status), html))
  }

  /** With the contact form disabled the contact template is never sent:
      the answer is the not-found failure redirect. */
  lemma ContactRefusedWhenDisabled(site: Site, world: World, data: PageData, status: Option<int>)
    requires !site.cfg.renderContact
    ensures SentTemplate(site, world, AppConfig.ContactTemplateName, data, status) == Done(Fail(site, Messages.MsgNotFound))
  {
  }

  /** A stat error other than a missing file stops the handler; a missing
      template, a directory or a failing rendering answers 500 directly
      for the status template and redirects to fail/generic for any other;
      a rendered page carries the code PageCode gives. */
  lemma SentTemplateOutcome(site: Site, world: World, templateName: string, data: PageData, status: Option<int>)
    requires site.funcMap.Some?
    requires site.cfg.renderContact || templateName != AppConfig.ContactTemplateName
    ensures var r := SentTemplate(site, world, templateName, data, status);
            var htmlTpl := TemplateFile(site, templateName);
            var tplData := TemplateData(data, site.cfg.profile, site.cfg.renderContact);
            var rendered := world.render(site.funcMap.value, AppConfig.BaseTemplateName, tplData, [site.baseTemplatePath, htmlTpl]);
            var failed := world.stat(htmlTpl) != RegularFile || rendered.Err?;
            && (r.Done? <==> world.stat(htmlTpl) != StatFailed)
            && (r.Stopped? ==> r == Stopped(Panic(NilDereference)))
            && (r.Done? && failed && templateName == AppConfig.StatusTemplateName ==> r.value == Bare(500))
            && (r.Done? && failed && templateName != AppConfig.StatusTemplateName ==> r.value == Redirect(FailUrl(site.srvBasePath, "generic"), 303))
            && (!failed ==> r == Done(Page(PageCode(status), rendered.value)))
  {
  }

  /** A template name without a separator names a file directly in the
      html template directory. */
  lemma TemplateFileInDirectory(site: Site, templateName: string)
    requires IsAbs(site.htmlTemplatesPath) && IsClean(site.htmlTemplatesPath)
    requires Separator !in templateName
    ensures TemplateFile(site, templateName) == AppConfig.Child(site.htmlTemplatesPath, templateName + ".html")
  {
    var f := templateName + ".html";
    assert Separator !in f by {
      assert forall i :: |templateName| <= i < |f| ==> f[i] == ".html"[i - |templateName|];
    }
    AppConfig.WordIsBelow(f);
    AppConfig.ChildIsJoin(site.htmlTemplatesPath, f);
  }

  // ---------------------------------------------------------------------
  // The handlers

  /** The template of the root page. */
  const IndexTemplate: string := "index"

  /** serveGeneric's template: "index" for the root or the empty path, else
      the last element. */
  function GenericTemplateName(path: string): string {
    if path == "/" || path == "" then IndexTemplate else Base(path)
  }

  /** Base of a single element without separators is the element. */
  lemma BaseOfChildless(p: string)
    requires p != "" && Separator !in p
    ensures Base(p) == p
  {
    assert TrimTrailingSeparators(p) == p;
    LastElementWhole(p);
  }

  lemma {:induction false} LastElementWhole(p: string)
    requires Separator !in p
    ensures LastElement(p) == p
    decreases |p|
  {
    if |p| > 0 {
      assert Separator !in p[..|p| - 1] by {
        assert forall i :: 0 <= i < |p| - 1 ==> p[..|p| - 1][i] == p[i];
      }
      LastElementWhole(p[..|p| - 1]);
      assert p == p[..|p| - 1] + [p[|p| - 1]];
    }
  }

  /** The root and the empty path are the index page. */
  lemma GenericTemplateOfRoot()
    ensures GenericTemplateName("/") == "index" && GenericTemplateName("") == "index"
  {
  }

  /** A page "/w" or "w" (w a single element) is rendered from the
      template named w. */
  lemma GenericTemplateOfPage(w: string)
    requires w != "" && Separator !in w
    ensures GenericTemplateName("/" + w) == w && GenericTemplateName(w) == w
  {
    BaseOfChild("", w);
    assert "" + "/" + w == "/" + w;
    BaseOfChildless(w);
  }

  function ServedGeneric(site: Site, world: World, path: string): Run<Response> {
    SentTemplate(site, world, GenericTemplateName(path), NoData, None)
  }

  /** serveContent: the kind is the last element; one not configured is a
      not-found failure; a rendering error a generic one. */
  function ServedContent(site: Site, world: World, path: string): Run<Response> {
    var contentType := Base(path);
    if contentType !in site.cfg.profile.contentTypes then Done(Fail(site, Messages.MsgNotFound))
    else
      match Content.RenderedContent(contentType, world.loadContent, site.contentTemplatesPath, site.funcMap, world.contentEngine)
      case Stopped(x) => Stopped(x)
      case Done(Err(_)) => Done(Fail(site, Messages.MsgGeneric))
      case Done(Ok(data)) => SentTemplate(site, world, AppConfig.ContentTemplateName, ContentPage(data), None)
  }

  /** Not configured kinds redirect to fail/notfound, failing loads or
      renders to fail/generic, and a configured kind that renders is sent
      with the content template; once the templates are initialised the
      handler stops for a configured kind without a content mapping (a nil
      interface), and otherwise only when the content template cannot be
      stat'ed. */
  lemma ServedContentOutcome(site: Site, world: World, path: string)
    requires site.funcMap.Some?
    ensures var k := Base(path);
            var r := ServedContent(site, world, path);
            var rc := Content.RenderedContent(k, world.loadContent, site.contentTemplatesPath, site.funcMap, world.contentEngine);
            && (k !in site.cfg.profile.contentTypes ==> r == Done(Redirect(FailUrl(site.srvBasePath, "notfound"), 303)))
            && (k in site.cfg.profile.contentTypes && rc.Done? && rc.value.Err? ==>
                  r == Done(Redirect(FailUrl(site.srvBasePath, "generic"), 303)))
            && (k in site.cfg.profile.contentTypes && rc.Done? && rc.value.Ok? ==>
                  r == SentTemplate(site, world, "content", ContentPage(rc.value.value), None))
            && (k in site.cfg.profile.contentTypes && k !in Content.contentMappings ==> r.Stopped?)
            && (r.Stopped? && k in Content.contentMappings ==>
                  && k in site.cfg.profile.contentTypes && rc.Done? && rc.value.Ok?
                  && world.stat(TemplateFile(site, "content")) == StatFailed)
  {
    var k := Base(path);
    var rc := Content.RenderedContent(k, world.loadContent, site.contentTemplatesPath, site.funcMap, world.contentEngine);
    if k in site.cfg.profile.contentTypes && rc.Done? && rc.value.Ok? {
      SentTemplateOutcome(site, world, "content", ContentPage(rc.value.value), None);
    }
  }

  /** Before Init, a configured kind whose loaded configuration has
      elements ends the program at its first element's rendering. */
  lemma ContentBeforeInitStops(site: Site, world: World, path: string)
    requires site.funcMap.None?
    requires Base(path) in site.cfg.profile.contentTypes && Base(path) in Content.contentMappings
    requires world.loadContent(Content.contentMappings[Base(path)]).Ok?
    requires world.loadContent(Content.contentMappings[Base(path)]).value.GetElements() != []
    ensures ServedContent(site, world, path) == Stopped(LogFatal(Utils.NotInitialized))
  {
    Content.RenderedContentOutcome(Base(path), world.loadContent, site.contentTemplatesPath, site.funcMap, world.contentEngine);
  }

  /** The only method sendMail accepts. */
  const MethodPost: string := "POST"

  /** The form keys sendMail reads. */
  const FormKeys: seq<string> := ["name", "email", "message"]

  /** sendMail dereferences the owner's address (server.go:169) and
      SMTPConfig.SendMail the SMTP user's (models/config/mail.go:70); a nil
      one of these, or a nil SMTP section, is a panic. */
  predicate MailConfigHasNil(cfg: ModelConfig.Config) {
    cfg.smtp.None? || cfg.smtp.value.user.None? || cfg.profile.email.None?
  }

  /** sendMail. */
  function SentMail(site: Site, world: World, req: Request): Run<Response> {
    if req.verb != MethodPost then Done(Redirect("/" + AppConfig.ContactTemplateName, StatusSeeOther))
    else if req.form.None? then Done(Fail(site, Messages.MsgContact))
    else
      var form := req.form.value;
      var name := world.sanitize(FormValue(form, "name"));
      var email := world.sanitize(FormValue(form, "email"));
      var message := world.sanitize(FormValue(form, "message"));
      match world.parseAddress(email)
      case None => Done(Fail(site, Messages.MsgAddress))
      case Some(addr) =>
        if MailConfigHasNil(site.cfg) then Stopped(Panic(NilDereference))
        else if world.send(site.cfg.smtp.value, site.cfg.profile.email.value, addr, name, message).Some?
        then Done(Fail(site, Messages.MsgContact))
        else Done(Success(site, Messages.MsgContact))
  }

  /** sendMail's outcomes: a non-POST request goes to /contact, an
      unreadable form or a send error to fail/contact, an unparseable
      address to fail/address, a sent message to success/contact; a
      parsed address with a nil SMTP section, SMTP user or owner address
      is a panic before anything is sent. */
  lemma SentMailOutcome(site: Site, world: World, req: Request)
    ensures var r := SentMail(site, world, req);
            && (req.verb != "POST" ==> r == Done(Redirect("/contact", 303)))
            && (req.verb == "POST" && req.form.None? ==> r == Done(Redirect(FailUrl(site.srvBasePath, "contact"), 303)))
            && (req.verb == "POST" && req.form.Some? ==>
                  var f := req.form.value;
                  var addr := world.parseAddress(world.sanitize(FormValue(f, "email")));
                  && (addr.None? ==> r == Done(Redirect(FailUrl(site.srvBasePath, "address"), 303)))
                  && (addr.Some? && MailConfigHasNil(site.cfg) ==> r == Stopped(Panic(NilDereference)))
                  && (addr.Some? && !MailConfigHasNil(site.cfg) ==>
                        var sent := world.send(site.cfg.smtp.value, site.cfg.profile.email.value, addr.value,
                                               world.sanitize(FormValue(f, "name")), world.sanitize(FormValue(f, "message")));
                        && (sent.Some? ==> r == Done(Redirect(FailUrl(site.srvBasePath, "contact"), 303)))
                        && (sent.None? ==> r == Done(Redirect(SuccessUrl(site.srvBasePath, "contact"), 303)))))
  {
    assert "/" + AppConfig.ContactTemplateName == "/contact";
  }

  /** The SMTP section Load tolerates with ErrInvalidSMTPConfig may lack
      the user, and then every mail a visitor sends with a valid address
      panics: the mail route is registered whatever the contact flag says. */
  lemma NilUserPanics(site: Site, world: World, req: Request)
    requires site.cfg.smtp.Some? && site.cfg.smtp.value.user.None?
    requires req.verb == "POST" && req.form.Some?
    requires world.parseAddress(world.sanitize(FormValue(req.form.value, "email"))).Some?
    ensures SentMail(site, world, req) == Stopped(Panic(NilDereference))
  {
  }

  /** serveStatus: the endpoint is the last element, the message comes from
      the table and its status code is the page's. */
  function ServedStatus(site: Site, world: World, req: Request): Run<Response> {
    var status := Base(req.path);
    match Messages.Lookup(site.messages, status, req.kind)
    case None => Stopped(Panic(NilDereference))
    case Some(msg) => SentTemplate(site, world, AppConfig.StatusTemplateName, StatusPage(msg), Some(msg.httpStatus))
  }

  /** The table has the generic failure message every unknown pair falls
      back to. */
  predicate HasFallback(table: Messages.Table) {
    Messages.EndpointFail in table && Messages.MsgGeneric in table[Messages.EndpointFail]
  }

  /** The compiled table has it. */
  lemma CompiledHasFallback(email: Option<string>)
    ensures HasFallback(Messages.Compiled(email))
  {
    Messages.CompiledLookup(email, Messages.EndpointFail, Messages.MsgGeneric);
  }

  /** With the fallback message the status handler answers with a page or a
      bare 500, never a redirect, and a page carries the status code of the
      message Get yields (codes below 100 giving 200); it stops only when
      the status template cannot be stat'ed. */
  lemma StatusNeverRedirects(site: Site, world: World, req: Request)
    requires HasFallback(site.messages) && site.funcMap.Some?
    ensures var r := ServedStatus(site, world, req);
            var msg := Messages.Lookup(site.messages, Base(req.path), req.kind);
            && msg.Some?
            && (r.Stopped? <==> world.stat(TemplateFile(site, AppConfig.StatusTemplateName)) == StatFailed)
            && (r.Done? ==> r.value.Page? || r.value == Bare(500))
            && (r.Done? && r.value.Page? ==> r.value.code == PageCode(Some(msg.value.httpStatus)))
  {
    var msg := Messages.Lookup(site.messages, Base(req.path), req.kind);
    SentTemplateOutcome(site, world, AppConfig.StatusTemplateName, StatusPage(msg.value), Some(msg.value.httpStatus));
  }

  /** The prefix the static-file handler strips. */
  const StaticRoute: string := "/static"

  /** What a handler answers for the path it sees. */
  function Respond(site: Site, world: World, endpoint: Endpoint, req: Request): Run<Response> {
    match endpoint
    case FaviconFiles => Done(StaticFile(req.path))
    case StaticFiles =>
      var p := TrimPrefix(req.path, StaticRoute);
      Done(if |p| < |req.path| then StaticFile(p) else NotFoundPage)
    case SendMail => SentMail(site, world, req)
    case ServeStatus => ServedStatus(site, world, req)
    case ServeContent => ServedContent(site, world, req.path)
    case ServeGeneric => ServedGeneric(site, world, req.path)
  }

  /** How the server answers a request: the router picks the route, which
      strips its prefix and hands the rest to the handler. */
  function Answer(site: Site, world: World, routes: seq<Route<Endpoint>>, req: Request): Run<Response> {
    match Dispatched(routes, req.path)
    case NotFound => Done(NotFoundPage)
    case Served(_, endpoint, p) => Respond(site, world, endpoint, req.(path := p))
  }

  // ---------------------------------------------------------------------
  // Base path of the redirects

  /** srvBasePath as StartServer sets it: the base path as given. */
  function SrvBasePathAsWritten(basePath: string): string {
    basePath
  }

  /** srvBasePath normalised the way utils.Init normalises its copy:
      rooted and ending in "/". */
  function SrvBasePath(basePath: string): (r: string)
    ensures IsAbs(r) && HasSuffix(r, "/")
  {
    Utils.NormalizeBasePath(basePath)
  }

  /** A path with a single leading '/' and none after it matches a literal
      starting with '/' only at index 0. */
  lemma SlashOnlyAtStart(s: string, lit: string)
    requires |s| > 0 && s[0] == '/' && Separator !in s[1..]
    requires |lit| > 0 && lit[0] == '/'
    ensures FindsLiteral(s, lit) ==> LiteralAt(s, lit, 0)
  {
    if FindsLiteral(s, lit) {
      var i :| 0 <= i <= |s| - |lit| && LiteralAt(s, lit, i);
      assert CharMatches(lit[0], s[i]);
    }
  }

  /** A base path of one segment, "/" and a word without separators. */
  predicate OneSegment(basePath: string) {
    |basePath| >= 2 && basePath[0] == '/' && Separator !in basePath[1..]
  }

  /** The first letters of the earlier routes' words ("favicon.ico",
      "static/", "mail", the two endpoints and the content kinds) and the
      wildcard. */
  const EarlierInitials: string := "fsmepc."

  /** With the base path as given, a one-segment base path whose word starts
      with none of EarlierInitials (such as "/app") sends failures to
      base+"fail", which only the generic route matches. That route strips
      the base path and looks for the template "fail"; when there is none
      it redirects to the same URL again, so the browser never reaches the
      status page. */
  lemma RawBaseFailRedirectLoops(site: Site, world: World, basePath: string, kind: string)
    requires OneSegment(basePath) && basePath[1] !in EarlierInitials
    requires site.srvBasePath == SrvBasePathAsWritten(basePath)
    requires world.stat(TemplateFile(site, Messages.EndpointFail)) == NotExist
    ensures FailUrl(site.srvBasePath, kind) == basePath + Messages.EndpointFail + KindQuery + kind
    ensures Answer(site, world, RouteTable(basePath), Request("GET", basePath + Messages.EndpointFail, kind, None))
              == Done(Fail(site, Messages.MsgGeneric))
  {
    var req := Request("GET", basePath + Messages.EndpointFail, kind, None);
    RawFailIsGeneric(basePath);
    GenericAnswer(site, world, RouteTable(basePath), req, 5, Messages.EndpointFail);
    BaseOfChildless(Messages.EndpointFail);
    assert GenericTemplateName(Messages.EndpointFail) == Messages.EndpointFail;
    MissingTemplateAborts(site, world, Messages.EndpointFail, NoData, None);
  }

  /** A template that is not there is answered through
      abortWithStatusTplCheck. */
  lemma MissingTemplateAborts(site: Site, world: World, templateName: string, data: PageData, status: Option<int>)
    requires templateName != AppConfig.ContactTemplateName
    requires world.stat(TemplateFile(site, templateName)) == NotExist
    ensures SentTemplate(site, world, templateName, data, status) == Done(Abort(site, templateName))
  {
  }

  /** The base path "/app" is such a base path; its fail path is
      "/appfail". */
  lemma AppBaseLoops(basePath: string, kind: string)
    requires basePath == "/app"
    ensures OneSegment(basePath) && basePath[1] !in EarlierInitials
    ensures FailUrl(SrvBasePathAsWritten(basePath), kind) == "/appfail?kind=" + kind
  {
    assert basePath[1..] == "app";
  }

  /** Under such a base path the generic route gets "fail". */
  lemma RawFailIsGeneric(basePath: string)
    requires OneSegment(basePath) && basePath[1] !in EarlierInitials
    ensures Dispatched(RouteTable(basePath), basePath + Messages.EndpointFail) == Served(5, ServeGeneric, Messages.EndpointFail)
  {
    var p := basePath + Messages.EndpointFail;
    var routes := RouteTable(basePath);
    OneSegmentMissesEarlierRoutes(basePath);
    assert Matches(routes[5].pattern, p);
    FirstMatchIsFirst(routes, p, 5);
    assert basePath[|basePath| - 1] == basePath[1..][|basePath| - 2];
    assert p[..|basePath|] == basePath;
  }

  /** Such a base path followed by "fail" misses the three literal routes. */
  lemma MissesLiteralRoutes(basePath: string)
    requires OneSegment(basePath) && basePath[1] !in EarlierInitials
    ensures !FindsLiteral(basePath + Messages.EndpointFail, "/favicon.ico")
    ensures !FindsLiteral(basePath + Messages.EndpointFail, "/static/")
    ensures !FindsLiteral(basePath + Messages.EndpointFail, "/mail")
  {
    var s := basePath + Messages.EndpointFail;
    assert s[0] == '/' && s[1] == basePath[1];
    assert Separator !in s[1..] by {
      assert s[1..] == basePath[1..] + Messages.EndpointFail;
    }
    MissesLiteral(s, "/favicon.ico");
    MissesLiteral(s, "/static/");
    MissesLiteral(s, "/mail");
  }

  /** ... and the status and content groups. */
  lemma MissesGroupRoutes(basePath: string)
    requires OneSegment(basePath) && basePath[1] !in EarlierInitials
    ensures !Matches(Group("/", [Messages.EndpointSuccess, Messages.EndpointFail]), basePath + Messages.EndpointFail)
    ensures !Matches(Group("/", Content.ContentTypes), basePath + Messages.EndpointFail)
  {
    var s := basePath + Messages.EndpointFail;
    assert s[0] == '/' && s[1] == basePath[1];
    assert Separator !in s[1..] by {
      assert s[1..] == basePath[1..] + Messages.EndpointFail;
    }
    InitialsOfEndpoints();
    MissesGroup(s, [Messages.EndpointSuccess, Messages.EndpointFail]);
    InitialsOfContentTypes();
    MissesGroup(s, Content.ContentTypes);
  }

  /** So none of the five routes before the generic one matches it. */
  lemma OneSegmentMissesEarlierRoutes(basePath: string)
    requires OneSegment(basePath) && basePath[1] !in EarlierInitials
    ensures forall i :: 0 <= i < 5 ==> !Matches(RouteTable(basePath)[i].pattern, basePath + Messages.EndpointFail)
  {
    MissesLiteralRoutes(basePath);
    MissesGroupRoutes(basePath);
  }

  /** A path whose only '/' is its first character holds no literal "/"
      followed by a character other than its own second one. */
  lemma MissesLiteral(s: string, lit: string)
    requires |s| > 1 && s[0] == '/' && Separator !in s[1..]
    requires |lit| > 1 && lit[0] == '/' && lit[1] != s[1] && lit[1] != '.'
    ensures !FindsLiteral(s, lit)
  {
    SlashOnlyAtStart(s, lit);
  }

  /** Each alternative of a group starts with one of EarlierInitials other
      than the wildcard. */
  predicate StartsEarlier(alts: seq<string>) {
    forall a :: a in alts ==> a != "" && a[0] in EarlierInitials && a[0] != '.'
  }

  lemma InitialsOfEndpoints()
    ensures StartsEarlier([Messages.EndpointSuccess, Messages.EndpointFail])
  {
    assert Messages.EndpointSuccess[0] == 's' && Messages.EndpointFail[0] == 'f';
  }

  lemma InitialsOfContentTypes()
    ensures StartsEarlier(Content.ContentTypes)
  {
    forall a | a in Content.ContentTypes ensures a != "" && a[0] in EarlierInitials && a[0] != '.' {
      assert a[0] == 'e' || a[0] == 'p' || a[0] == 'c' || a[0] == 'm';
    }
  }

  lemma MissesGroup(s: string, alts: seq<string>)
    requires |s| > 1 && s[0] == '/' && Separator !in s[1..] && s[1] !in EarlierInitials
    requires StartsEarlier(alts)
    ensures !Matches(Group("/", alts), s)
  {
    forall a | a in alts ensures !FindsLiteral(s, "/" + a) {
      MissesLiteral(s, "/" + a);
    }
  }

  /** The generic endpoint answers with serveGeneric. */
  lemma RespondsGeneric(site: Site, world: World, req: Request)
    ensures Respond(site, world, ServeGeneric, req) == ServedGeneric(site, world, req.path)
  {
  }

  /** The status endpoint answers with serveStatus. */
  lemma RespondsStatus(site: Site, world: World, req: Request)
    ensures Respond(site, world, ServeStatus, req) == ServedStatus(site, world, req)
  {
  }

  /** A request the router hands to the generic handler is answered as
      serveGeneric answers the stripped path. */
  lemma GenericAnswer(site: Site, world: World, routes: seq<Route<Endpoint>>, req: Request, i: nat, sub: string)
    requires Dispatched(routes, req.path) == Served(i, ServeGeneric, sub)
    ensures Answer(site, world, routes, req) == ServedGeneric(site, world, sub)
  {
    RespondsGeneric(site, world, req.(path := sub));
  }

  /** A rooted or empty base path, normalised, is the stripped prefix
      followed by one "/". */
  lemma NormalizedIsStripped(basePath: string)
    requires IsAbs(basePath) || basePath == ""
    ensures SrvBasePath(basePath) == TrimSuffix(basePath, "/") + "/"
  {
    if basePath == "" {
      assert !HasSuffix("/", "/") ==> false;
    } else if HasSuffix(basePath, "/") {
      assert basePath == basePath[..|basePath| - 1] + "/";
    }
  }

  /** The status route serves strip+"/fail" with the path "/fail" when no
      earlier route matches it. */
  lemma StatusRouteServesFail(basePath: string)
    requires var p := TrimSuffix(basePath, "/") + "/fail";
             forall i :: 0 <= i < 3 ==> !Matches(RouteTable(basePath)[i].pattern, p)
    ensures Dispatched(RouteTable(basePath), TrimSuffix(basePath, "/") + "/fail") == Served(3, ServeStatus, "/fail")
  {
    var strip := TrimSuffix(basePath, "/");
    var p := strip + "/fail";
    var routes := RouteTable(basePath);
    assert LiteralAt(p, "/" + Messages.EndpointFail, |strip|) by {
      forall k | 0 <= k < 5 ensures CharMatches(("/" + Messages.EndpointFail)[k], p[|strip| + k]) {
        assert p[|strip| + k] == "/fail"[k];
      }
    }
    assert FindsLiteral(p, "/" + Messages.EndpointFail);
    assert Messages.EndpointFail in [Messages.EndpointSuccess, Messages.EndpointFail];
    assert Matches(routes[3].pattern, p);
    FirstMatchIsFirst(routes, p, 3);
    assert p[..|strip|] == strip;
    assert TrimPrefix(p, strip) == "/fail";
  }

  /** With the normalised base path the failure redirect reaches the status
      handler, which answers with the message page or a bare 500 and never
      redirects again (unless the status template cannot be stat'ed),
      whatever the rooted or empty base path, as long as it does not itself
      contain an earlier route's literal. */
  lemma FailRedirectReachesStatus(site: Site, world: World, basePath: string, kind: string)
    requires IsAbs(basePath) || basePath == ""
    requires site.srvBasePath == SrvBasePath(basePath)
    requires HasFallback(site.messages) && site.funcMap.Some?
    requires var p := SrvBasePath(basePath) + Messages.EndpointFail;
             forall i :: 0 <= i < 3 ==> !Matches(RouteTable(basePath)[i].pattern, p)
    ensures var p := SrvBasePath(basePath) + Messages.EndpointFail;
            var r := Answer(site, world, RouteTable(basePath), Request("GET", p, kind, None));
            && HasPrefix(FailUrl(site.srvBasePath, kind), p + "?")
            && (r.Stopped? <==> world.stat(TemplateFile(site, AppConfig.StatusTemplateName)) == StatFailed)
            && (r.Done? ==> r.value.Page? || r.value == Bare(500))
  {
    var n := SrvBasePath(basePath);
    var p := n + Messages.EndpointFail;
    NormalizedIsStripped(basePath);
    assert p == TrimSuffix(basePath, "/") + "/fail";
    StatusRouteServesFail(basePath);
    var req := Request("GET", p, kind, None);
    StatusAnswer(site, world, RouteTable(basePath), req, 3, "/" + Messages.EndpointFail);
    StatusNeverRedirects(site, world, req.(path := "/" + Messages.EndpointFail));
    FailUrlStartsWithPath(n, kind);
  }

  /** The fail URL is the request path base+"fail" followed by the query. */
  lemma FailUrlStartsWithPath(srvBasePath: string, kind: string)
    ensures HasPrefix(FailUrl(srvBasePath, kind), srvBasePath + Messages.EndpointFail + "?")
  {
    var p := srvBasePath + Messages.EndpointFail + "?";
    assert FailUrl(srvBasePath, kind) == p + "kind=" + kind;
    assert FailUrl(srvBasePath, kind)[..|p|] == p;
  }

  /** A request the router hands to the status handler is answered as
      ServeStatus answers the stripped path. */
  lemma StatusAnswer(site: Site, world: World, routes: seq<Route<Endpoint>>, req: Request, i: nat, sub: string)
    requires Dispatched(routes, req.path) == Served(i, ServeStatus, sub)
    ensures Answer(site, world, routes, req) == ServedStatus(site, world, req.(path := sub))
  {
    RespondsStatus(site, world, req.(path := sub));
  }

  /** The load results StartServer goes on with: no error, or only
      ErrInvalidSMTPConfig (logged as a warning). */
  predicate Tolerated(loaded: ModelConfig.Loaded) {
    loaded.err.None? || loaded.err.value == ModelConfig.InvalidSMTPConfig
  }

  /** What StartServer logs when loading fails other than for SMTP. */
  const AbortMessage: string := "[WARNING] Aborting due to previous error"

  // ---------------------------------------------------------------------
  // The server

  /** The router StartServer builds: the base path is set first, so every
      route strips it. */
  method Register(basePath: string) returns (h: RegexHandler<Endpoint>)
    ensures fresh(h) && h.routes == RouteTable(basePath)
  {
    h := new RegexHandler<Endpoint>();
    h.SetBasePath(basePath);
    var strip := h.basePath;
    h.Handle(Literal("/favicon.ico"), FaviconFiles);
    h.Handle(Literal("/static/"), StaticFiles);
    h.HandleFunc(Literal("/mail"), Endpoint.SendMail);
    assert h.routes == [Route(Literal("/favicon.ico"), FaviconFiles, strip),
                        Route(Literal("/static/"), StaticFiles, strip),
                        Route(Literal("/mail"), Endpoint.SendMail, strip)];
    h.HandleFunc(Group("/", [Messages.EndpointSuccess, Messages.EndpointFail]), Endpoint.ServeStatus);
    h.HandleFunc(Group("/", Content.ContentTypes), Endpoint.ServeContent);
    h.HandleFunc(MatchAll, Endpoint.ServeGeneric);
  }

  class Server {
    const store: ModelConfig.ConfigStore
    const templates: Utils.Templates
    const messages: Messages.MessageTable
    const paths: AppConfig.AppPaths
    var router: RegexHandler<Endpoint>
    var cfg: Option<ModelConfig.Config>
    var srvBasePath: string

    ghost predicate Ready()
      reads this, paths
    {
      paths.Valid() && cfg.Some?
    }

    /** The state the handlers read. */
    function Snapshot(): Site
      reads this, templates, messages, paths
      requires Ready()
    {
      Site.Site(cfg.value, srvBasePath, templates.funcMap, messages.messages,
           paths.HTMLTemplatesPath(), paths.BaseTemplatePath(), paths.ContentTemplatesPath())
    }

    constructor (store: ModelConfig.ConfigStore, templates: Utils.Templates, messages: Messages.MessageTable,
                 paths: AppConfig.AppPaths)
      ensures this.store == store && this.templates == templates && this.messages == messages && this.paths == paths
      ensures cfg == None && srvBasePath == "" && fresh(router) && router.routes == []
    {
      this.store := store;
      this.templates := templates;
      this.messages := messages;
      this.paths := paths;
      cfg := None;
      srvBasePath := "";
      router := new RegexHandler<Endpoint>();
    }

    /** The first step of StartServer: loads the config, tolerating only
        ErrInvalidSMTPConfig; any other error ends the program. */
    method LoadConfig(file: Result<ModelConfig.ConfigDoc>) returns (exit: Option<Exit>)
      modifies this, store
      ensures var loaded := ModelConfig.Loading(file).outcome;
              && (loaded.Stopped? ==> exit == Some(loaded.exit))
              && (loaded.Done? && loaded.value.err.Some? && loaded.value.err.value != ModelConfig.InvalidSMTPConfig ==>
                    exit == Some(LogFatal(AbortMessage)))
              && (exit.None? <==> loaded.Done? && Tolerated(loaded.value))
              && (exit.None? ==> cfg == loaded.value.config && cfg.Some?)
      ensures store.cfg == Some(ModelConfig.Loading(file).stored)
      ensures srvBasePath == old(srvBasePath) && router == old(router)
    {
      var loaded := store.Load(file);
      if loaded.Stopped? {
        return Some(loaded.exit);
      }
      var result := loaded.value;
      if result.err.Some? && result.err.value != ModelConfig.InvalidSMTPConfig {
        return Some(LogFatal(AbortMessage));
      }
      cfg := result.config;
      return None;
    }

    /** The rest of StartServer: the redirect base path (as given, see
        RawBaseFailRedirectLoops), the template functions, the messages (a
        missing owner address is a nil dereference) and the router. */
    method Setup(basePath: string) returns (exit: Option<Exit>)
      requires cfg.Some? && paths.Valid()
      modifies this, templates, messages
      ensures cfg == old(cfg)
      ensures exit.Some? <==> cfg.value.profile.email.None?
      ensures exit.Some? ==> exit.value == Panic(NilDereference)
      ensures srvBasePath == basePath
      ensures templates.funcMap == Some(Utils.FuncMap(Utils.NormalizeBasePath(basePath)))
      ensures exit.None? ==> && messages.messages == Messages.Compiled(cfg.value.profile.email)
                             && fresh(router) && router.routes == RouteTable(basePath)
                             && Ready()
    {
      srvBasePath := SrvBasePathAsWritten(basePath);
      templates.Init(basePath);
      if cfg.value.profile.email.None? {
        return Some(Panic(NilDereference));
      }
      messages.Compile(cfg.value.profile.email);
      router := Register(basePath);
      return None;
    }

    /** StartServer up to ListenAndServe. */
    method StartServer(basePath: string, file: Result<ModelConfig.ConfigDoc>) returns (exit: Option<Exit>)
      requires paths.Valid()
      modifies this, store, templates, messages
      ensures paths.Valid()
      ensures store.cfg == Some(ModelConfig.Loading(file).stored)
      ensures var loaded := ModelConfig.Loading(file).outcome;
              && (loaded.Stopped? ==> exit == Some(loaded.exit))
              && (loaded.Done? && loaded.value.err.Some? && loaded.value.err.value != ModelConfig.InvalidSMTPConfig ==>
                    exit == Some(LogFatal(AbortMessage)))
              && (loaded.Done? && Tolerated(loaded.value) ==> loaded.value.config.Some?)
              && (exit.None? <==> loaded.Done? && Tolerated(loaded.value) && loaded.value.config.value.profile.email.Some?)
              && (loaded.Done? && Tolerated(loaded.value) && loaded.value.config.value.profile.email.None? ==>
                    exit == Some(Panic(NilDereference)))
              && (exit.None? ==>
                    && cfg == loaded.value.config
                    && srvBasePath == basePath
                    && templates.funcMap == Some(Utils.FuncMap(Utils.NormalizeBasePath(basePath)))
                    && messages.messages == Messages.Compiled(cfg.value.profile.email)
                    && fresh(router) && router.routes == RouteTable(basePath)
                    && Ready())
    {
      exit := LoadConfig(file);
      if exit.None? {
        exit := Setup(basePath);
      }
    }

    /** isContentEnabled: the requested kind is one of the configured ones. */
    method IsContentEnabled(requestedContent: string) returns (enabled: bool)
      requires cfg.Some?
      ensures enabled <==> requestedContent in cfg.value.profile.contentTypes
    {
      var kinds := cfg.value.profile.contentTypes;
      enabled := false;
      var i := 0;
      while i < |kinds|
        invariant 0 <= i <= |kinds|
        invariant !enabled && requestedContent !in kinds[..i]
      {
        if kinds[i] == requestedContent {
          enabled := true;
          break;
        }
        assert kinds[..i + 1] == kinds[..i] + [kinds[i]];
        i := i + 1;
      }
      assert !enabled ==> kinds[..i] == kinds;
    }

    /** The sanitising loop of sendMail: every key of the form is replaced
        by the sanitised posted value. */
    method SanitizeForm(posted: map<string, string>, sanitize: string -> string) returns (form: map<string, string>)
      ensures form.Keys == set k | k in FormKeys
      ensures forall k :: k in FormKeys ==> form[k] == sanitize(FormValue(posted, k))
    {
      form := map["name" := "", "email" := "", "message" := ""];
      for i := 0 to |FormKeys|
        invariant form.Keys == set k | k in FormKeys
        invariant forall j :: 0 <= j < i ==> form[FormKeys[j]] == sanitize(FormValue(posted, FormKeys[j]))
      {
        form := form[FormKeys[i] := sanitize(FormValue(posted, FormKeys[i]))];
      }
    }

    /** sendTemplate. */
    method SendTemplate(world: World, templateName: string, data: PageData, status: Option<int>) returns (r: Run<Response>)
      requires Ready()
      ensures r == SentTemplate(Snapshot(), world, templateName, data, status)
    {
      var c := cfg.value;
      if !c.renderContact && templateName == AppConfig.ContactTemplateName {
        return Done(Fail(Snapshot(), Messages.MsgNotFound));
      }
      var htmlTpl := Join([paths.HTMLTemplatesPath(), templateName + ".html"]);
      var info := world.stat(htmlTpl);
      if info == StatFailed {
        return Stopped(Panic(NilDereference));
      }
      if info != RegularFile {
        return Done(Abort(Snapshot(), templateName));
      }
      var tplData := TemplateData(data, c.profile, c.renderContact);
      var resp := templates.RenderTemplate(AppConfig.BaseTemplateName, tplData, [paths.BaseTemplatePath(), htmlTpl], world.render);
      if resp.Stopped? {
        return Stopped(resp.exit);
      }
      if resp.value.Err? {
        return Done(Abort(Snapshot(), templateName));
      }
      var code := Messages.StatusOK;
      if status.Some? && 100 <= status.value {
        code := status.value;
      }
      return Done(Page(code, resp.value.value));
    }

    method ServeGeneric(world: World, path: string) returns (r: Run<Response>)
      requires Ready()
      ensures r == ServedGeneric(Snapshot(), world, path)
    {
      var tplName := IndexTemplate;
      if path != "/" && path != "" {
        tplName := Base(path);
      }
      assert tplName == GenericTemplateName(path);
      r := SendTemplate(world, tplName, NoData, None);
    }

    method ServeContent(world: World, path: string) returns (r: Run<Response>)
      requires Ready()
      ensures r == ServedContent(Snapshot(), world, path)
    {
      var contentType := Base(path);
      var enabled := IsContentEnabled(contentType);
      if !enabled {
        return Done(Fail(Snapshot(), Messages.MsgNotFound));
      }
      var data := Content.GetRenderedContent(templates, contentType, world.loadContent, paths.ContentTemplatesPath(), world.contentEngine);
      if data.Stopped? {
        return Stopped(data.exit);
      }
      if data.value.Err? {
        return Done(Fail(Snapshot(), Messages.MsgGeneric));
      }
      r := SendTemplate(world, AppConfig.ContentTemplateName, ContentPage(data.value.value), None);
    }

    method SendMail(world: World, req: Request) returns (r: Run<Response>)
      requires Ready()
      ensures r == SentMail(Snapshot(), world, req)
    {
      if req.verb != MethodPost {
        return Done(Redirect("/" + AppConfig.ContactTemplateName, StatusSeeOther));
      }
      if req.form.None? {
        return Done(Fail(Snapshot(), Messages.MsgContact));
      }
      var form := SanitizeForm(req.form.value, world.sanitize);
      assert "email" in FormKeys && "name" in FormKeys && "message" in FormKeys;
      var addr := world.parseAddress(form["email"]);
      if addr.None? {
        return Done(Fail(Snapshot(), Messages.MsgAddress));
      }
      var c := cfg.value;
      if c.smtp.None? || c.smtp.value.user.None? || c.profile.email.None? {
        return Stopped(Panic(NilDereference));
      }
      var err := world.send(c.smtp.value, c.profile.email.value, addr.value, form["name"], form["message"]);
      if err.Some? {
        return Done(Fail(Snapshot(), Messages.MsgContact));
      }
      return Done(Success(Snapshot(), Messages.MsgContact));
    }

    method ServeStatus(world: World, req: Request) returns (r: Run<Response>)
      requires Ready()
      ensures r == ServedStatus(Snapshot(), world, req)
    {
      var status := Base(req.path);
      var msg := messages.Get(status, req.kind);
      if msg.None? {
        return Stopped(Panic(NilDereference));
      }
      r := SendTemplate(world, AppConfig.StatusTemplateName, StatusPage(msg.value), Some(msg.value.httpStatus));
    }

    /** The router in front of the handlers. */
    method ServeHTTP(world: World, req: Request) returns (r: Run<Response>)
      requires Ready()
      ensures r == Answer(Snapshot(), world, router.routes, req)
    {
      var d := router.ServeHTTP(req.path);
      if d.NotFound? {
        return Done(NotFoundPage);
      }
      var sub := req.(path := d.path);
      match d.handler
      case FaviconFiles =>
        r := Done(StaticFile(sub.path));
      case StaticFiles =>
        var p := TrimPrefix(sub.path, "/static");
        r := Done(if |p| < |sub.path| then StaticFile(p) else NotFoundPage);
      case SendMail =>
        r := SendMail(world, sub);
      case ServeStatus =>
        r := ServeStatus(world, sub);
      case ServeContent =>
        r := ServeContent(world, sub.path);
      case ServeGeneric =>
        r := ServeGeneric(world, sub.path);
    }
  }
}
