/** The static build: which pages a build renders, from which templates, to
    which files, and in which order. The template engine, the content
    loader, the listing of the template directory and file writing are
    inputs gathered in an Env; every file written is recorded in order. */
module Static {
  import opened Outcomes
  import opened Strs
  import opened Paths
  import opened Regex
  import opened Models
  import AppConfig
  import ModelConfig
  import Messages
  import Content
  import Utils

  type Html = Utils.Html

  /** The foreign parts of a build. */
  datatype Env = Env(
    render: (Utils.FuncMap, string, TemplateData, seq<string>) -> Result<Html>,
    loadContent: Content.ContentConfig -> Result<Content.ContentConfig>,
    contentEngine: (Utils.FuncMap, string, Content.Content, seq<string>) -> Result<Html>,
    write: (string, Html) -> Option<string>)

  /** The directories a build reads templates from and writes into. */
  datatype Layout = Layout(htmlTemplatesPath: string, baseTemplatePath: string,
                           contentTemplatesPath: string, distDir: string)

  /** What build reads besides its arguments: the function map, the
      owner's profile and the directories. */
  datatype Setting = Setting(funcMap: Option<Utils.FuncMap>, profile: ModelConfig.ProfileConfig, layout: Layout)

  /** One call of build: the page template, the output file name, the data. */
  datatype Task = Task(tplFileName: string, outputFileName: string, data: PageData)

  /** A file the build wrote: the call it came from, the full path written,
      the data the templates were given and the page. */
  datatype Written = Written(tplFileName: string, outputFileName: string, file: string,
                             tplData: TemplateData, page: Html)

  /** The files written so far and, when the build ended early, why. */
  datatype Progress = Progress(written: seq<Written>, exit: Option<Exit>)

  // ---------------------------------------------------------------------
  // Why a build ends

  function ConfigFailed(e: ModelConfig.LoadError): string {
    "[ERROR] Loading configuration failed: " + ModelConfig.ErrorText(e)
  }

  function ReadDirFailed(e: string): string {
    "[ERROR] Could not read template directory: " + e
  }

  function RenderContentFailed(contentType: string, e: string): string {
    "[ERROR] Rendering content " + contentType + ": " + e
  }

  function RenderFailed(e: string): string {
    "[Error] Failed to render template: " + e
  }

  function WriteFailed(e: string): string {
    "[ERROR] Failed to write template: " + e
  }

  // ---------------------------------------------------------------------
  // One page

  /** build: the task's template is rendered over the base template with
      the contact form hidden, and the page is written below the dist
      directory; a rendering or writing error ends the program, as does
      rendering before Init. */
  function Produced(s: Setting, env: Env, t: Task): Run<Written> {
    var htmlTpl := Join([s.layout.htmlTemplatesPath, t.tplFileName]);
    var tplData := TemplateData(t.data, s.profile, false);
    if s.funcMap.None? then Stopped(LogFatal(Utils.NotInitialized))
    else
      match env.render(s.funcMap.value, AppConfig.BaseTemplateName, tplData, [s.layout.baseTemplatePath, htmlTpl])
      case Err(e) => Stopped(LogFatal(RenderFailed(e)))
      case Ok(html) =>
        var out := Join([s.layout.distDir, t.outputFileName]);
        match env.write(out, html)
        case Some(e) => Stopped(LogFatal(WriteFailed(e)))
        case None => Done(Written(t.tplFileName, t.outputFileName, out, tplData, html))
  }

  /** What a written page is: the rendering of its own template with the
      profile and the contact form hidden, stored under the dist directory
      with its output name. */
  predicate Faithful(s: Setting, env: Env, w: Written) {
    && s.funcMap.Some?
    && w.file == Join([s.layout.distDir, w.outputFileName])
    && w.tplData.profile == s.profile && !w.tplData.renderContact
    && Ok(w.page) == env.render(s.funcMap.value, AppConfig.BaseTemplateName, w.tplData,
                                [s.layout.baseTemplatePath, Join([s.layout.htmlTemplatesPath, w.tplFileName])])
    && env.write(w.file, w.page).None?
  }

  /** A page that is written is the task's page, and written faithfully. */
  lemma ProducedIsFaithful(s: Setting, env: Env, t: Task)
    ensures var r := Produced(s, env, t);
            r.Done? ==> && Faithful(s, env, r.value)
                        && r.value.tplFileName == t.tplFileName && r.value.outputFileName == t.outputFileName
                        && r.value.tplData.data == t.data
  {
  }

  function PageStep(s: Setting, env: Env): Task -> Run<Written> {
    t => Produced(s, env, t)
  }

  // ---------------------------------------------------------------------
  // Steps in order

  /** Steps run one after the other until the first that ends the program. */
  function Steps<T>(items: seq<T>, step: T -> Run<Written>): Progress {
    if items == [] then Progress([], None)
    else
      match step(items[0])
      case Stopped(x) => Progress([], Some(x))
      case Done(w) =>
        var rest := Steps(items[1..], step);
        Progress([w] + rest.written, rest.exit)
  }

  /** Steps go through exactly when every step does, writing one file per
      step in order; otherwise they stop at the first step that ends the
      program, with the files of the steps before it. */
  lemma {:induction false} StepsOutcome<T>(items: seq<T>, step: T -> Run<Written>)
    ensures var p := Steps(items, step);
            && (p.exit.None? <==> forall i :: 0 <= i < |items| ==> step(items[i]).Done?)
            && (p.exit.None? ==> |p.written| == |items| && forall i :: 0 <= i < |items| ==> step(items[i]) == Done(p.written[i]))
            && (p.exit.Some? ==> exists k :: && 0 <= k < |items| && step(items[k]) == Stopped(p.exit.value)
                                             && |p.written| == k
                                             && forall i :: 0 <= i < k ==> step(items[i]) == Done(p.written[i]))
    decreases |items|
  {
    if items != [] && step(items[0]).Done? {
      var w := step(items[0]).value;
      var rest := Steps(items[1..], step);
      StepsOutcome(items[1..], step);
      assert forall i :: 1 <= i < |items| ==> items[i] == items[1..][i - 1];
      if rest.exit.Some? {
        var k :| && 0 <= k < |items[1..]| && step(items[1..][k]) == Stopped(rest.exit.value)
                 && |rest.written| == k
                 && forall i :: 0 <= i < k ==> step(items[1..][i]) == Done(rest.written[i]);
        assert step(items[k + 1]) == Stopped(rest.exit.value);
        assert forall i :: 0 <= i < k + 1 ==> step(items[i]) == Done(([w] + rest.written)[i]);
      }
    }
  }

  /** Steps over two sequences are the stages of one after the other. */
  lemma {:induction false} StepsAppend<T>(a: seq<T>, b: seq<T>, step: T -> Run<Written>)
    ensures Steps(a + b, step) == Then(Steps(a, step), Steps(b, step))
    decreases |a|
  {
    if a == [] {
      assert a + b == b;
    } else {
      assert (a + b)[1..] == a[1..] + b;
      StepsAppend(a[1..], b, step);
    }
  }

  /** One step more, after steps that all went through. */
  lemma StepsSnoc<T>(items: seq<T>, x: T, step: T -> Run<Written>)
    requires Steps(items, step).exit.None? && step(x).Done?
    ensures Steps(items + [x], step) == Progress(Steps(items, step).written + [step(x).value], None)
  {
    StepsAppend(items, [x], step);
    StepsOne(x, step);
  }

  /** A step that ends the program ends the steps, whatever follows. */
  lemma StepsStop<T>(items: seq<T>, x: T, rest: seq<T>, step: T -> Run<Written>)
    requires Steps(items, step).exit.None? && step(x).Stopped?
    ensures Steps(items + [x] + rest, step) == Progress(Steps(items, step).written, Some(step(x).exit))
  {
    StepsAppend(items + [x], rest, step);
    StepsAppend(items, [x], step);
    StepsOne(x, step);
  }

  /** A single step. */
  lemma StepsOne<T>(x: T, step: T -> Run<Written>)
    ensures Steps([x], step) ==
              match step(x)
              case Stopped(e) => Progress([], Some(e))
              case Done(w) => Progress([w], None)
  {
    assert [x][1..] == [];
  }

  /** A later stage runs only when the earlier one went through. */
  function Then(p: Progress, q: Progress): (r: Progress)
    ensures r.exit.None? <==> p.exit.None? && q.exit.None?
    ensures p.exit.Some? ==> r == p
    ensures p.exit.None? ==> r.written == p.written + q.written && r.exit == q.exit
  {
    if p.exit.Some? then p else Progress(p.written + q.written, q.exit)
  }

  // ---------------------------------------------------------------------
  // The three stages

  /** Whether buildGeneric skips a template file. */
  predicate Ignored(name: string) {
    Matches(AppConfig.StaticIgnoreRegex(), name)
  }

  /** The calls buildGeneric makes, in listing order: every template the
      ignore pattern lets through, to a file of the same name. */
  function GenericTasks(names: seq<string>): seq<Task> {
    if names == [] then []
    else (if Ignored(names[0]) then [] else [Task(names[0], names[0], NoData)]) + GenericTasks(names[1..])
  }

  /** The generic calls are exactly the templates not ignored, each to its
      own name without data. */
  lemma {:induction false} GenericTasksExactly(names: seq<string>)
    ensures forall t :: t in GenericTasks(names) ==>
              t.tplFileName in names && !Ignored(t.tplFileName) && t == Task(t.tplFileName, t.tplFileName, NoData)
    ensures forall n :: n in names && !Ignored(n) ==> Task(n, n, NoData) in GenericTasks(names)
    ensures |GenericTasks(names)| <= |names|
  {
    if names != [] {
      GenericTasksExactly(names[1..]);
      forall n | n in names && !Ignored(n) ensures Task(n, n, NoData) in GenericTasks(names) {
        if n != names[0] {
          assert n in names[1..];
        }
      }
    }
  }

  /** The calls keep the listing's order: a longer listing appends. */
  lemma {:induction false} GenericTasksAppend(a: seq<string>, b: seq<string>)
    ensures GenericTasks(a + b) == GenericTasks(a) + GenericTasks(b)
    decreases |a|
  {
    if a == [] {
      assert a + b == b;
    } else {
      assert (a + b)[1..] == a[1..] + b;
      GenericTasksAppend(a[1..], b);
    }
  }

  /** A listing seen up to and around one name. */
  lemma GenericSplit(names: seq<string>, i: nat)
    requires i < |names|
    ensures GenericTasks([names[i]]) == if Ignored(names[i]) then [] else [Task(names[i], names[i], NoData)]
    ensures GenericTasks(names[..i + 1]) == GenericTasks(names[..i]) + GenericTasks([names[i]])
    ensures GenericTasks(names) == GenericTasks(names[..i]) + GenericTasks([names[i]]) + GenericTasks(names[i + 1..])
  {
    assert [names[i]][1..] == [];
    AroundIndex(names, i);
    assert names == names[..i + 1] + names[i + 1..];
    GenericTasksAppend(names[..i], [names[i]]);
    GenericTasksAppend(names[..i + 1], names[i + 1..]);
  }

  /** The template file every content page is rendered from. */
  function ContentTemplateFile(): string {
    AppConfig.ContentTemplateName + ".html"
  }

  /** One iteration of buildContent: the kind's rendered content (a
      failure ends the program), then the content template to kind.html. */
  function ContentStep(s: Setting, env: Env): string -> Run<Written> {
    contentType =>
      match Content.RenderedContent(contentType, env.loadContent, s.layout.contentTemplatesPath, s.funcMap, env.contentEngine)
      case Stopped(x) => Stopped(x)
      case Done(Err(e)) => Stopped(LogFatal(RenderContentFailed(contentType, e)))
      case Done(Ok(data)) => Produced(s, env, Task(ContentTemplateFile(), contentType + ".html", ContentPage(data)))
  }

  /** The call buildErrors makes for a message: the status template, to
      the file named after the message's status code. */
  function ErrorTask(msg: Messages.AlertMsg): Task {
    Task(AppConfig.StatusTemplateName + ".html", Itoa(msg.httpStatus) + ".html", StatusPage(msg))
  }

  /** buildErrors: the not-found failure message's page (a nil message
      would be dereferenced). */
  function ErrorPages(s: Setting, env: Env, table: Messages.Table): Progress {
    match Messages.Lookup(table, Messages.EndpointFail, Messages.MsgNotFound)
    case None => Progress([], Some(Panic(NilDereference)))
    case Some(msg) => Steps([ErrorTask(msg)], PageStep(s, env))
  }

  /** buildGeneric: a listing error ends the program. */
  function GenericPages(s: Setting, env: Env, listing: Result<seq<string>>): Progress {
    match listing
    case Err(e) => Progress([], Some(LogFatal(ReadDirFailed(e))))
    case Ok(names) => Steps(GenericTasks(names), PageStep(s, env))
  }

  /** The three stages in the order Build runs them. */
  function Pages(s: Setting, env: Env, listing: Result<seq<string>>, table: Messages.Table): Progress {
    Then(Then(GenericPages(s, env, listing), Steps(s.profile.contentTypes, ContentStep(s, env))),
         ErrorPages(s, env, table))
  }

  /** Build: loading the configuration may fail only with
      ErrInvalidSMTPConfig; then Init, Compile (dereferencing the owner's
      address) and the three stages. */
  function Planned(srvBasePath: string, file: Result<ModelConfig.ConfigDoc>, listing: Result<seq<string>>,
                   env: Env, layout: Layout): Progress {
    FromLoaded(srvBasePath, ModelConfig.Loading(file).outcome, listing, env, layout)
  }

  /** Build once the configuration has been loaded. */
  function FromLoaded(srvBasePath: string, loaded: Run<ModelConfig.Loaded>, listing: Result<seq<string>>,
                      env: Env, layout: Layout): Progress {
    match loaded
    case Stopped(x) => Progress([], Some(x))
    case Done(result) =>
      if result.err.Some? && result.err.value != ModelConfig.InvalidSMTPConfig then
        Progress([], Some(LogFatal(ConfigFailed(result.err.value))))
      else
        Initialised(srvBasePath, result.config, listing, env, layout)
  }

  /** Build once the configuration is accepted: Compile dereferences the
      configuration and the owner's address. */
  function Initialised(srvBasePath: string, config: Option<ModelConfig.Config>, listing: Result<seq<string>>,
                       env: Env, layout: Layout): Progress {
    if config.None? || config.value.profile.email.None? then Progress([], Some(Panic(NilDereference)))
    else Configured(srvBasePath, config.value, listing, env, layout)
  }

  /** Build for a loaded configuration: the function map for the base
      path, the owner's profile and the messages compiled for the owner. */
  function Configured(srvBasePath: string, c: ModelConfig.Config, listing: Result<seq<string>>,
                      env: Env, layout: Layout): Progress {
    var s := Setting(Some(Utils.FuncMap(Utils.NormalizeBasePath(srvBasePath))), c.profile, layout);
    Pages(s, env, listing, Messages.Compiled(c.profile.email))
  }

  // ---------------------------------------------------------------------
  // What a build writes

  /** Every step function here writes faithful pages. */
  predicate StepFaithful<T>(s: Setting, env: Env, items: seq<T>, step: T -> Run<Written>) {
    forall i :: 0 <= i < |items| && step(items[i]).Done? ==> Faithful(s, env, step(items[i]).value)
  }

  lemma StepsFaithful<T>(s: Setting, env: Env, items: seq<T>, step: T -> Run<Written>)
    requires StepFaithful(s, env, items, step)
    ensures forall w :: w in Steps(items, step).written ==> Faithful(s, env, w)
  {
    var p := Steps(items, step);
    StepsOutcome(items, step);
    forall w | w in p.written ensures Faithful(s, env, w) {
      var i :| 0 <= i < |p.written| && p.written[i] == w;
      if p.exit.Some? {
        var k :| && 0 <= k < |items| && step(items[k]) == Stopped(p.exit.value) && |p.written| == k
                 && forall i :: 0 <= i < k ==> step(items[i]) == Done(p.written[i]);
        assert step(items[i]) == Done(w);
      } else {
        assert step(items[i]) == Done(w);
      }
    }
  }

  lemma PageStepFaithful(s: Setting, env: Env, tasks: seq<Task>)
    ensures StepFaithful(s, env, tasks, PageStep(s, env))
  {
    forall i | 0 <= i < |tasks| && PageStep(s, env)(tasks[i]).Done?
      ensures Faithful(s, env, PageStep(s, env)(tasks[i]).value)
    {
      ProducedIsFaithful(s, env, tasks[i]);
    }
  }

  lemma ContentStepFaithful(s: Setting, env: Env, kinds: seq<string>)
    ensures StepFaithful(s, env, kinds, ContentStep(s, env))
  {
    forall i | 0 <= i < |kinds| && ContentStep(s, env)(kinds[i]).Done?
      ensures Faithful(s, env, ContentStep(s, env)(kinds[i]).value)
    {
      var rc := Content.RenderedContent(kinds[i], env.loadContent, s.layout.contentTemplatesPath, s.funcMap, env.contentEngine);
      ProducedIsFaithful(s, env, Task(ContentTemplateFile(), kinds[i] + ".html", ContentPage(rc.value.value)));
    }
  }

  /** Static pages never show the contact form, carry the owner's profile,
      are the renderings of their own templates, and land in the dist
      directory under their output names. */
  lemma PagesAreFaithful(s: Setting, env: Env, listing: Result<seq<string>>, table: Messages.Table)
    ensures forall w :: w in Pages(s, env, listing, table).written ==> Faithful(s, env, w)
  {
    if listing.Ok? {
      PageStepFaithful(s, env, GenericTasks(listing.value));
      StepsFaithful(s, env, GenericTasks(listing.value), PageStep(s, env));
    }
    ContentStepFaithful(s, env, s.profile.contentTypes);
    StepsFaithful(s, env, s.profile.contentTypes, ContentStep(s, env));
    var msg := Messages.Lookup(table, Messages.EndpointFail, Messages.MsgNotFound);
    if msg.Some? {
      PageStepFaithful(s, env, [ErrorTask(msg.value)]);
      StepsFaithful(s, env, [ErrorTask(msg.value)], PageStep(s, env));
    }
  }

  /** A generic page: the template written to its own name, without data. */
  predicate IsGenericPage(w: Written, t: Task) {
    w.tplFileName == w.outputFileName == t.tplFileName && w.tplData.data == NoData
  }

  /** A content page: the content template written to kind.html with the
      kind's rendered content. */
  predicate IsContentPage(w: Written, kind: string) {
    w.tplFileName == ContentTemplateFile() && w.outputFileName == kind + ".html" && w.tplData.data.ContentPage?
  }

  /** The error page: the status template written to the file named after
      the message's status code, with the message. */
  predicate IsErrorPage(w: Written, msg: Messages.AlertMsg) {
    && w.tplFileName == AppConfig.StatusTemplateName + ".html"
    && w.outputFileName == Itoa(msg.httpStatus) + ".html"
    && w.tplData.data == StatusPage(msg)
  }

  /** Generic steps that go through write each listed template to its own
      name, without data. */
  lemma GenericWritten(s: Setting, env: Env, names: seq<string>)
    requires Steps(GenericTasks(names), PageStep(s, env)).exit.None?
    ensures var w := Steps(GenericTasks(names), PageStep(s, env)).written;
            var tasks := GenericTasks(names);
            |w| == |tasks| && forall i :: 0 <= i < |tasks| ==> IsGenericPage(w[i], tasks[i])
  {
    var tasks := GenericTasks(names);
    var w := Steps(tasks, PageStep(s, env)).written;
    StepsOutcome(tasks, PageStep(s, env));
    GenericTasksExactly(names);
    forall i | 0 <= i < |tasks| ensures IsGenericPage(w[i], tasks[i]) {
      assert tasks[i] in tasks;
      assert Produced(s, env, tasks[i]) == Done(w[i]);
      ProducedIsFaithful(s, env, tasks[i]);
    }
  }

  /** Content steps that go through write one page per kind, in order. */
  lemma ContentWritten(s: Setting, env: Env, kinds: seq<string>)
    requires Steps(kinds, ContentStep(s, env)).exit.None?
    ensures var w := Steps(kinds, ContentStep(s, env)).written;
            |w| == |kinds| && forall i :: 0 <= i < |kinds| ==> IsContentPage(w[i], kinds[i])
  {
    StepsOutcome(kinds, ContentStep(s, env));
  }

  /** The error stage, when it goes through, writes the not-found message's
      page. */
  lemma ErrorWritten(s: Setting, env: Env, table: Messages.Table)
    requires ErrorPages(s, env, table).exit.None?
    ensures var w := ErrorPages(s, env, table).written;
            var msg := Messages.Lookup(table, Messages.EndpointFail, Messages.MsgNotFound);
            msg.Some? && |w| == 1 && IsErrorPage(w[0], msg.value)
  {
    var msg := Messages.Lookup(table, Messages.EndpointFail, Messages.MsgNotFound);
    StepsOne(ErrorTask(msg.value), PageStep(s, env));
  }

  /** The pages of the three stages, one after the other. */
  predicate InOrder(w: seq<Written>, tasks: seq<Task>, kinds: seq<string>, msg: Messages.AlertMsg) {
    && |w| == |tasks| + |kinds| + 1
    && (forall i :: 0 <= i < |tasks| ==> IsGenericPage(w[i], tasks[i]))
    && (forall i :: 0 <= i < |kinds| ==> IsContentPage(w[|tasks| + i], kinds[i]))
    && IsErrorPage(w[|w| - 1], msg)
  }

  lemma Stitched(gw: seq<Written>, cw: seq<Written>, ew: seq<Written>, tasks: seq<Task>, kinds: seq<string>,
                 msg: Messages.AlertMsg)
    requires |gw| == |tasks| && forall i :: 0 <= i < |tasks| ==> IsGenericPage(gw[i], tasks[i])
    requires |cw| == |kinds| && forall i :: 0 <= i < |kinds| ==> IsContentPage(cw[i], kinds[i])
    requires |ew| == 1 && IsErrorPage(ew[0], msg)
    ensures InOrder(gw + cw + ew, tasks, kinds, msg)
  {
    var w := gw + cw + ew;
    forall i | 0 <= i < |kinds| ensures IsContentPage(w[|tasks| + i], kinds[i]) {
      assert w[|tasks| + i] == cw[i];
    }
  }

  /** A build that runs to the end writes the generic pages, then one
      content page per configured kind in configuration order, then one
      error page, the status template's. */
  lemma PagesInOrder(s: Setting, env: Env, listing: Result<seq<string>>, table: Messages.Table)
    requires Pages(s, env, listing, table).exit.None?
    ensures var msg := Messages.Lookup(table, Messages.EndpointFail, Messages.MsgNotFound);
            && listing.Ok? && msg.Some?
            && InOrder(Pages(s, env, listing, table).written, GenericTasks(listing.value), s.profile.contentTypes, msg.value)
  {
    var names := listing.value;
    var g := GenericPages(s, env, Ok(names));
    var c := Steps(s.profile.contentTypes, ContentStep(s, env));
    var e := ErrorPages(s, env, table);
    assert Pages(s, env, listing, table) == Then(Then(g, c), e);
    assert g.exit.None? && c.exit.None? && e.exit.None?;
    assert Pages(s, env, listing, table).written == g.written + c.written + e.written;
    GenericWritten(s, env, names);
    ContentWritten(s, env, s.profile.contentTypes);
    ErrorWritten(s, env, table);
    var msg := Messages.Lookup(table, Messages.EndpointFail, Messages.MsgNotFound);
    Stitched(g.written, c.written, e.written, GenericTasks(names), s.profile.contentTypes, msg.value);
  }

  /** With the compiled messages the error page is 404.html. */
  lemma ErrorPageIsNotFound(email: Option<string>)
    ensures var msg := Messages.CompiledGet(email, Messages.EndpointFail, Messages.MsgNotFound);
            ErrorTask(msg).outputFileName == Itoa(msg.httpStatus) + ".html" == "404.html"
  {
    Messages.CompiledStatuses(email);
    assert Itoa(Messages.StatusNotFound) == "404";
  }

  /** Only ErrInvalidSMTPConfig is tolerated: any other configuration error
      ends the build before anything is written, while a configuration
      whose SMTP section is incomplete is built exactly as if it were
      complete. */
  lemma ConfigErrors(srvBasePath: string, config: Option<ModelConfig.Config>, err: ModelConfig.LoadError,
                     listing: Result<seq<string>>, env: Env, layout: Layout)
    ensures var p := FromLoaded(srvBasePath, Done(ModelConfig.Loaded(config, Some(err))), listing, env, layout);
            err != ModelConfig.InvalidSMTPConfig ==> p == Progress([], Some(LogFatal(ConfigFailed(err))))
    ensures err == ModelConfig.InvalidSMTPConfig ==>
              FromLoaded(srvBasePath, Done(ModelConfig.Loaded(config, Some(err))), listing, env, layout) ==
              FromLoaded(srvBasePath, Done(ModelConfig.Loaded(config, None)), listing, env, layout)
  {
  }

  /** The site a build writes for a configuration: the generic pages, the
      content pages and 404.html, in that order, all faithful to the
      setting and none with the contact form. */
  predicate CompleteSite(w: seq<Written>, s: Setting, env: Env, names: seq<string>, c: ModelConfig.Config) {
    && InOrder(w, GenericTasks(names), c.profile.contentTypes,
               Messages.CompiledGet(c.profile.email, Messages.EndpointFail, Messages.MsgNotFound))
    && w[|w| - 1].outputFileName == "404.html"
    && forall x :: x in w ==> Faithful(s, env, x)
  }

  /** A build of a loaded configuration that runs to the end had a listing
      and wrote the complete site. */
  lemma CompletedConfigured(srvBasePath: string, c: ModelConfig.Config, listing: Result<seq<string>>,
                            env: Env, layout: Layout)
    requires Configured(srvBasePath, c, listing, env, layout).exit.None?
    ensures listing.Ok?
    ensures CompleteSite(Configured(srvBasePath, c, listing, env, layout).written,
                         Setting(Some(Utils.FuncMap(Utils.NormalizeBasePath(srvBasePath))), c.profile, layout),
                         env, listing.value, c)
  {
    var s := Setting(Some(Utils.FuncMap(Utils.NormalizeBasePath(srvBasePath))), c.profile, layout);
    var table := Messages.Compiled(c.profile.email);
    PagesInOrder(s, env, listing, table);
    PagesAreFaithful(s, env, listing, table);
    ErrorPageIsNotFound(c.profile.email);
  }

  /** A build that runs to the end had a configuration with the owner's
      address and a listing, and wrote the complete site. */
  lemma CompletedBuild(srvBasePath: string, loaded: Run<ModelConfig.Loaded>, listing: Result<seq<string>>,
                       env: Env, layout: Layout)
    requires FromLoaded(srvBasePath, loaded, listing, env, layout).exit.None?
    ensures loaded.Done? && loaded.value.config.Some? && loaded.value.config.value.profile.email.Some? && listing.Ok?
    ensures var c := loaded.value.config.value;
            CompleteSite(FromLoaded(srvBasePath, loaded, listing, env, layout).written,
                         Setting(Some(Utils.FuncMap(Utils.NormalizeBasePath(srvBasePath))), c.profile, layout),
                         env, listing.value, c)
  {
    var c := loaded.value.config.value;
    assert FromLoaded(srvBasePath, loaded, listing, env, layout) == Configured(srvBasePath, c, listing, env, layout);
    CompletedConfigured(srvBasePath, c, listing, env, layout);
  }

  // ---------------------------------------------------------------------
  // The builder

  /** A sequence around one of its elements. */
  lemma AroundIndex<T>(xs: seq<T>, i: nat)
    requires i < |xs|
    ensures xs[..i + 1] == xs[..i] + [xs[i]]
    ensures xs == xs[..i] + [xs[i]] + xs[i + 1..]
  {
  }

  lemma AppendAssoc<T>(a: seq<T>, b: seq<T>, c: seq<T>)
    ensures a + b + c == a + (b + c)
  {
  }

  /** The package state of a build: the config it loaded and the files it
      has written, over the configuration store, the template functions,
      the messages and the directories. */
  class Builder {
    const store: ModelConfig.ConfigStore
    const templates: Utils.Templates
    const messages: Messages.MessageTable
    const paths: AppConfig.AppPaths
    var cfg: Option<ModelConfig.Config>
    var written: seq<Written>

    constructor (store: ModelConfig.ConfigStore, templates: Utils.Templates, messages: Messages.MessageTable,
                 paths: AppConfig.AppPaths)
      ensures this.store == store && this.templates == templates && this.messages == messages && this.paths == paths
      ensures cfg == None && written == []
    {
      this.store := store;
      this.templates := templates;
      this.messages := messages;
      this.paths := paths;
      cfg := None;
      written := [];
    }

    /** The directories the paths give. */
    function Dirs(): Layout
      reads paths
      requires paths.Valid()
    {
      Layout(paths.HTMLTemplatesPath(), paths.BaseTemplatePath(), paths.ContentTemplatesPath(), paths.DistDir())
    }

    /** What build reads now, with the directories read once. */
    function Current(dirs: Layout): Setting
      reads this`cfg, templates`funcMap
      requires cfg.Some?
    {
      Setting(templates.funcMap, cfg.value.profile, dirs)
    }

    /** build: renders one task and, when that works, records the file. */
    method BuildPage(env: Env, dirs: Layout, t: Task) returns (exit: Option<Exit>)
      requires cfg.Some?
      modifies this
      ensures cfg == old(cfg)
      ensures var r := Produced(Current(dirs), env, t);
              && (r.Done? ==> exit.None? && written == old(written) + [r.value])
              && (r.Stopped? ==> exit == Some(r.exit) && written == old(written))
    {
      var htmlTpl := Join([dirs.htmlTemplatesPath, t.tplFileName]);
      var tplData := TemplateData(t.data, cfg.value.profile, false);
      var resp := templates.RenderTemplate(AppConfig.BaseTemplateName, tplData,
                                           [dirs.baseTemplatePath, htmlTpl], env.render);
      if resp.Stopped? {
        return Some(resp.exit);
      }
      if resp.value.Err? {
        return Some(LogFatal(RenderFailed(resp.value.error)));
      }
      var outputFile := Join([dirs.distDir, t.outputFileName]);
      var err := env.write(outputFile, resp.value.value);
      if err.Some? {
        return Some(LogFatal(WriteFailed(err.value)));
      }
      written := written + [Written(t.tplFileName, t.outputFileName, outputFile, tplData, resp.value.value)];
      return None;
    }

    /** buildGeneric: every listed template the ignore pattern lets through,
        in listing order. */
    method BuildGeneric(env: Env, dirs: Layout, listing: Result<seq<string>>) returns (exit: Option<Exit>)
      requires cfg.Some?
      modifies this
      ensures cfg == old(cfg)
      ensures var p := GenericPages(Current(dirs), env, listing);
              exit == p.exit && written == old(written) + p.written
    {
      if listing.Err? {
        return Some(LogFatal(ReadDirFailed(listing.error)));
      }
      var names := listing.value;
      ghost var step := PageStep(Current(dirs), env);
      ghost var w0 := written;
      ghost var done: seq<Task> := [];
      for i := 0 to |names|
        invariant cfg == old(cfg) && step == PageStep(Current(dirs), env)
        invariant done == GenericTasks(names[..i])
        invariant Steps(done, step).exit.None?
        invariant written == w0 + Steps(done, step).written
      {
        GenericSplit(names, i);
        if Ignored(names[i]) {
          continue;
        }
        var t := Task(names[i], names[i], NoData);
        exit := BuildPage(env, dirs, t);
        if exit.Some? {
          StepsStop(done, t, GenericTasks(names[i + 1..]), step);
          return;
        }
        StepsSnoc(done, t, step);
        AppendAssoc(w0, Steps(done, step).written, [step(t).value]);
        done := done + [t];
      }
      assert names[..|names|] == names;
      return None;
    }

    /** buildContent: one page per configured kind, in configuration order. */
    method BuildContent(env: Env, dirs: Layout) returns (exit: Option<Exit>)
      requires cfg.Some?
      modifies this
      ensures cfg == old(cfg)
      ensures var p := Steps(cfg.value.profile.contentTypes, ContentStep(Current(dirs), env));
              exit == p.exit && written == old(written) + p.written
    {
      var kinds := cfg.value.profile.contentTypes;
      ghost var step := ContentStep(Current(dirs), env);
      ghost var w0 := written;
      ghost var done: seq<string> := [];
      for i := 0 to |kinds|
        invariant cfg == old(cfg) && step == ContentStep(Current(dirs), env)
        invariant done == kinds[..i]
        invariant Steps(done, step).exit.None?
        invariant written == w0 + Steps(done, step).written
      {
        exit := BuildKind(env, dirs, kinds[i]);
        if exit.Some? {
          AroundIndex(kinds, i);
          StepsStop(done, kinds[i], kinds[i + 1..], step);
          return;
        }
        StepsSnoc(done, kinds[i], step);
        AppendAssoc(w0, Steps(done, step).written, [step(kinds[i]).value]);
        AroundIndex(kinds, i);
        done := done + [kinds[i]];
      }
      assert kinds[..|kinds|] == kinds;
      return None;
    }

    /** One iteration of buildContent. */
    method BuildKind(env: Env, dirs: Layout, contentType: string) returns (exit: Option<Exit>)
      requires cfg.Some?
      modifies this
      ensures cfg == old(cfg)
      ensures var r := ContentStep(Current(dirs), env)(contentType);
              && (r.Done? ==> exit.None? && written == old(written) + [r.value])
              && (r.Stopped? ==> exit == Some(r.exit) && written == old(written))
    {
      var content := Content.GetRenderedContent(templates, contentType, env.loadContent, dirs.contentTemplatesPath,
                                                env.contentEngine);
      if content.Stopped? {
        return Some(content.exit);
      }
      if content.value.Err? {
        return Some(LogFatal(RenderContentFailed(contentType, content.value.error)));
      }
      exit := BuildPage(env, dirs, Task(ContentTemplateFile(), contentType + ".html", ContentPage(content.value.value)));
    }

    /** buildErrors: the not-found page. */
    method BuildErrors(env: Env, dirs: Layout) returns (exit: Option<Exit>)
      requires cfg.Some?
      modifies this
      ensures cfg == old(cfg)
      ensures var p := ErrorPages(Current(dirs), env, messages.messages);
              exit == p.exit && written == old(written) + p.written
    {
      var msg := messages.Get(Messages.EndpointFail, Messages.MsgNotFound);
      if msg.None? {
        return Some(Panic(NilDereference));
      }
      StepsOne(ErrorTask(msg.value), PageStep(Current(dirs), env));
      exit := BuildPage(env, dirs, ErrorTask(msg.value));
    }

    /** What a build that goes through leaves installed: the configuration
        it loaded, with the owner's address, the template functions for the
        base path and the compiled messages. */
    ghost predicate Installed(srvBasePath: string, config: Option<ModelConfig.Config>)
      reads this, templates, messages
    {
      && cfg == config && config.Some? && config.value.profile.email.Some?
      && templates.funcMap == Some(Utils.FuncMap(Utils.NormalizeBasePath(srvBasePath)))
      && messages.messages == Messages.Compiled(config.value.profile.email)
    }

    /** Build: loads the configuration, then goes on from what it loaded. */
    method Build(srvBasePath: string, file: Result<ModelConfig.ConfigDoc>, listing: Result<seq<string>>, env: Env)
      returns (exit: Option<Exit>)
      requires paths.Valid()
      modifies this, store, templates, messages
      ensures var p := Planned(srvBasePath, file, listing, env, old(Dirs()));
              exit == p.exit && written == old(written) + p.written
      ensures store.cfg == Some(ModelConfig.Loading(file).stored)
      ensures var loaded := ModelConfig.Loading(file).outcome;
              exit.None? ==> loaded.Done? && Installed(srvBasePath, loaded.value.config)
    {
      var dirs := Dirs();
      var loaded := store.Load(file);
      exit := Start(srvBasePath, loaded, listing, env, dirs);
    }

    /** The rest of Build: a configuration error other than
        ErrInvalidSMTPConfig ends the program; then Init, Compile (which
        dereferences the owner's address) and the three stages. */
    method Start(srvBasePath: string, loaded: Run<ModelConfig.Loaded>, listing: Result<seq<string>>, env: Env,
                 dirs: Layout)
      returns (exit: Option<Exit>)
      modifies this, templates, messages
      ensures var p := FromLoaded(srvBasePath, loaded, listing, env, dirs);
              exit == p.exit && written == old(written) + p.written
      ensures exit.None? ==>
                && loaded.Done? && (loaded.value.err.None? || loaded.value.err.value == ModelConfig.InvalidSMTPConfig)
                && Installed(srvBasePath, loaded.value.config)
    {
      if loaded.Stopped? {
        return Some(loaded.exit);
      }
      var result := loaded.value;
      if result.err.Some? && result.err.value != ModelConfig.InvalidSMTPConfig {
        return Some(LogFatal(ConfigFailed(result.err.value)));
      }
      exit := Initialise(srvBasePath, result.config, listing, env, dirs);
    }

    /** Build from the accepted configuration: Init, then Compile and the
        stages. */
    method Initialise(srvBasePath: string, config: Option<ModelConfig.Config>, listing: Result<seq<string>>, env: Env,
                      dirs: Layout)
      returns (exit: Option<Exit>)
      modifies this, templates, messages
      ensures var p := Initialised(srvBasePath, config, listing, env, dirs);
              exit == p.exit && written == old(written) + p.written
      ensures cfg == config
      ensures templates.funcMap == Some(Utils.FuncMap(Utils.NormalizeBasePath(srvBasePath)))
      ensures config.Some? && config.value.profile.email.Some? ==>
                messages.messages == Messages.Compiled(config.value.profile.email)
      ensures exit.None? ==> config.Some? && config.value.profile.email.Some?
    {
      cfg := config;
      templates.Init(srvBasePath);
      if cfg.None? || cfg.value.profile.email.None? {
        return Some(Panic(NilDereference));
      }
      exit := BuildConfigured(srvBasePath, listing, env, dirs);
    }

    /** Build after Init: Compile, then the three stages. */
    method BuildConfigured(srvBasePath: string, listing: Result<seq<string>>, env: Env, dirs: Layout)
      returns (exit: Option<Exit>)
      requires cfg.Some? && cfg.value.profile.email.Some?
      requires templates.funcMap == Some(Utils.FuncMap(Utils.NormalizeBasePath(srvBasePath)))
      modifies this, messages
      ensures cfg == old(cfg)
      ensures messages.messages == Messages.Compiled(cfg.value.profile.email)
      ensures var p := Configured(srvBasePath, cfg.value, listing, env, dirs);
              exit == p.exit && written == old(written) + p.written
    {
      messages.Compile(cfg.value.profile.email);
      exit := BuildStages(env, dirs, listing);
    }

    /** The three stages of Build, in order, each only after the previous
        one went through. */
    method BuildStages(env: Env, dirs: Layout, listing: Result<seq<string>>) returns (exit: Option<Exit>)
      requires cfg.Some?
      modifies this
      ensures cfg == old(cfg)
      ensures var p := Pages(Current(dirs), env, listing, messages.messages);
              exit == p.exit && written == old(written) + p.written
    {
      ghost var s := Current(dirs);
      ghost var g := GenericPages(s, env, listing);
      ghost var c := Steps(s.profile.contentTypes, ContentStep(s, env));
      ghost var e := ErrorPages(s, env, messages.messages);
      ghost var w0 := written;
      assert Pages(s, env, listing, messages.messages) == Then(Then(g, c), e);
      exit := BuildGeneric(env, dirs, listing);
      assert Current(dirs) == s && exit == g.exit && written == w0 + g.written;
      if exit.Some? {
        return;
      }
      exit := BuildContent(env, dirs);
      assert Current(dirs) == s && exit == c.exit && written == w0 + g.written + c.written;
      AppendAssoc(w0, g.written, c.written);
      if exit.Some? {
        return;
      }
      exit := BuildErrors(env, dirs);
      assert Current(dirs) == s && exit == e.exit && written == w0 + g.written + c.written + e.written;
      AppendAssoc(w0, g.written + c.written, e.written);
    }
  }
}
