/** The content package: the five content kinds, the configuration each is
    loaded from, the elements of each kind and the templates they are
    rendered with, and the rendering of a kind into HTML fragments. YAML
    decoding and the template engine are function parameters. */
module Content {
  import opened Outcomes
  import opened Strs
  import opened Paths
  import opened Regex
  import opened Dates
  import Utils

  type Html = Utils.Html

  const TypeExperience: nat := 0
  const TypeEducation: nat := 1
  const TypeProject: nat := 2
  const TypeCertification: nat := 3
  const TypeMe: nat := 4

  /** All content kinds, indexed by the Type constants. */
  const ContentTypes: seq<string> := ["experience", "education", "projects", "certifications", "me"]

  // ---------------------------------------------------------------------
  // Dates of entries

  /** The "to" end of a range as YAML leaves it: a date, a text such as
      "today", any other value, or nothing. */
  datatype To = ToDate(date: Date) | ToText(text: string) | ToOther | ToUnset

  /** ContentDateRange and CardDateRange: the two have the same fields and
      the same getters. */
  datatype DateRange = DateRange(from: Date, to: To) {
    /** The from date as YYYY-MM-DD. */
    function GetFromDateAsStr(): (r: string)
      ensures from.year < 10000 ==> |r| == 10 && ParseDate(r) == Some(from)
    {
      if from.year < 10000 then FormatDateRoundTrip(from); FormatDate(from)
      else FormatDate(from)
    }

    /** The to end: a date as YYYY-MM-DD, a text as it is, else "now". */
    function GetToDateAsStr(): (r: string)
      ensures to.ToDate? && to.date.year < 10000 ==> |r| == 10 && ParseDate(r) == Some(to.date)
      ensures to.ToText? ==> r == to.text
      ensures (to.ToOther? || to.ToUnset?) ==> r == "now"
    {
      match to
      case ToDate(d) => DateRange(d, ToUnset).GetFromDateAsStr()
      case ToText(s) => s
      case _ => "now"
    }
  }

  // ---------------------------------------------------------------------
  // Elements

  /** ContentBase and CardBase: the fields every element shares. */
  datatype ContentBase = ContentBase(image: string, name: string, link: string, description: Html)

  datatype Project = Project(base: ContentBase)

  datatype Education = Education(base: ContentBase, school: string, specialization: string, dates: DateRange)

  datatype Certification = Certification(base: ContentBase, dates: DateRange)

  datatype ExperienceCard = ExperienceCard(base: ContentBase, company: string, dates: DateRange)

  /** The Content interface: an element rendered with its own template. */
  datatype Content =
    | ProjectItem(project: Project)
    | EducationItem(education: Education)
    | CertificationItem(certification: Certification)
    | ExperienceItem(experience: ExperienceCard)
  {
    function GetTemplateName(): string {
      match this
      case ProjectItem(_) => "project.html"
      case EducationItem(_) => "education.html"
      case CertificationItem(_) => "certification.html"
      case ExperienceItem(_) => "experience.html"
    }
  }

  /** The Card interface: an element rendered as a card. */
  datatype Card = ExperienceCardItem(card: ExperienceCard) {
    function CardTemplateName(): string {
      "experience.html"
    }
  }

  /** Each kind of element has its own template, and no two share one. */
  lemma TemplateNames(c: Content, d: Content)
    ensures c.ProjectItem? ==> c.GetTemplateName() == "project.html"
    ensures c.EducationItem? ==> c.GetTemplateName() == "education.html"
    ensures c.CertificationItem? ==> c.GetTemplateName() == "certification.html"
    ensures c.ExperienceItem? ==> c.GetTemplateName() == ExperienceCardItem(c.experience).CardTemplateName()
    ensures c.GetTemplateName() == d.GetTemplateName() <==>
              (c.ProjectItem? == d.ProjectItem? && c.EducationItem? == d.EducationItem?
               && c.CertificationItem? == d.CertificationItem?)
  {
  }

  /** The elements of a list as another type, in the same order. */
  function Cast<T, U>(xs: seq<T>, f: T -> U): (ys: seq<U>)
    ensures |ys| == |xs| && forall i :: 0 <= i < |xs| ==> ys[i] == f(xs[i])
  {
    seq(|xs|, i requires 0 <= i < |xs| => f(xs[i]))
  }

  /** castToContent and castToCard: fills a list of the interface type
      index by index, giving the list Cast describes (the functions of this
      model, which cannot call a method, use Cast). */
  method Upcast<T, U>(content: seq<T>, f: T -> U) returns (casted: seq<U>)
    ensures |casted| == |content|
    ensures forall i :: 0 <= i < |content| ==> casted[i] == f(content[i])
    ensures casted == Cast(content, f)
  {
    casted := [];
    for idx := 0 to |content|
      invariant |casted| == idx
      invariant forall i :: 0 <= i < idx ==> casted[i] == f(content[i])
    {
      casted := casted + [f(content[idx])];
    }
  }

  // ---------------------------------------------------------------------
  // Configurations

  /** The ContentConfig interface with its five implementations. */
  datatype ContentConfig =
    | ExperienceConfig(experiences: seq<ExperienceCard>)
    | EducationConfig(educations: seq<Education>)
    | ProjectConfig(projects: seq<Project>)
    | CertificationConfig(certifications: seq<Certification>)
    | AboutMeConfig(content: Html)
  {
    /** The kind of content held (ContentType, GetContentKind). */
    function GetContentType(): string {
      match this
      case ExperienceConfig(_) => ContentTypes[TypeExperience]
      case EducationConfig(_) => ContentTypes[TypeEducation]
      case ProjectConfig(_) => ContentTypes[TypeProject]
      case CertificationConfig(_) => ContentTypes[TypeCertification]
      case AboutMeConfig(_) => ContentTypes[TypeMe]
    }

    /** The YAML file the kind is loaded from (ConfigName). */
    function GetConfigName(): string {
      GetContentType() + ".yml"
    }

    /** The loaded elements; "me" has none. */
    function GetElements(): seq<Content> {
      match this
      case ExperienceConfig(es) => Cast(es, (e: ExperienceCard) => ExperienceItem(e))
      case EducationConfig(es) => Cast(es, (e: Education) => EducationItem(e))
      case ProjectConfig(ps) => Cast(ps, (p: Project) => ProjectItem(p))
      case CertificationConfig(cs) => Cast(cs, (c: Certification) => CertificationItem(c))
      case AboutMeConfig(_) => []
    }

    /** The experiences as cards (CardContentConfig.Elements). */
    function Elements(): seq<Card>
      requires ExperienceConfig?
    {
      Cast(experiences, (e: ExperienceCard) => ExperienceCardItem(e))
    }

    /** The heading of the experience cards. */
    function Title(): string
      requires ExperienceConfig?
    {
      GetContentType()
    }
  }

  lemma ProjectConfigGetters(ps: seq<Project>)
    ensures var c := ProjectConfig(ps);
            && c.GetContentType() == ContentTypes[TypeProject] == "projects"
            && c.GetConfigName() == "projects.yml"
            && |c.GetElements()| == |ps|
            && (forall i :: 0 <= i < |ps| ==> c.GetElements()[i] == ProjectItem(ps[i]))
            && (forall i :: 0 <= i < |ps| ==> c.GetElements()[i].GetTemplateName() == "project.html")
  {
  }

  lemma EducationConfigGetters(es: seq<Education>)
    ensures var c := EducationConfig(es);
            && c.GetContentType() == ContentTypes[TypeEducation] == "education"
            && c.GetConfigName() == "education.yml"
            && |c.GetElements()| == |es|
            && (forall i :: 0 <= i < |es| ==> c.GetElements()[i] == EducationItem(es[i]))
            && (forall i :: 0 <= i < |es| ==> c.GetElements()[i].GetTemplateName() == "education.html")
  {
  }

  lemma CertificationConfigGetters(cs: seq<Certification>)
    ensures var c := CertificationConfig(cs);
            && c.GetContentType() == ContentTypes[TypeCertification] == "certifications"
            && c.GetConfigName() == "certifications.yml"
            && |c.GetElements()| == |cs|
            && (forall i :: 0 <= i < |cs| ==> c.GetElements()[i] == CertificationItem(cs[i]))
            && (forall i :: 0 <= i < |cs| ==> c.GetElements()[i].GetTemplateName() == "certification.html")
  {
  }

  lemma ExperienceConfigGetters(es: seq<ExperienceCard>)
    ensures var c := ExperienceConfig(es);
            && c.GetContentType() == ContentTypes[TypeExperience] == "experience"
            && c.GetConfigName() == "experience.yml"
            && c.Title() == c.GetContentType()
            && |c.Elements()| == |es|
            && (forall i :: 0 <= i < |es| ==> c.Elements()[i] == ExperienceCardItem(es[i]))
            && (forall i :: 0 <= i < |es| ==> c.Elements()[i].CardTemplateName() == "experience.html")
  {
  }

  lemma AboutMeConfigGetters(h: Html)
    ensures var c := AboutMeConfig(h);
            c.GetContentType() == ContentTypes[TypeMe] == "me" && c.GetConfigName() == "me.yml" && c.GetElements() == []
  {
  }

  /** contentMappings: the empty configuration object of each kind. */
  const contentMappings: map<string, ContentConfig> := map[
    ContentTypes[TypeExperience] := ExperienceConfig([]),
    ContentTypes[TypeEducation] := EducationConfig([]),
    ContentTypes[TypeProject] := ProjectConfig([]),
    ContentTypes[TypeCertification] := CertificationConfig([]),
    ContentTypes[TypeMe] := AboutMeConfig("")
  ]

  /** The five kinds are distinct, each is mapped, nothing else is, and each
      mapped object reports the kind it is mapped under. */
  lemma RegistryConsistent()
    ensures |ContentTypes| == 5
    ensures forall i, j :: 0 <= i < j < |ContentTypes| ==> ContentTypes[i] != ContentTypes[j]
    ensures contentMappings.Keys == set t | t in ContentTypes
    ensures forall t :: t in contentMappings ==> contentMappings[t].GetContentType() == t
    ensures forall t :: t in contentMappings ==> contentMappings[t].GetConfigName() == t + ".yml"
  {
  }

  // ---------------------------------------------------------------------
  // Validation and routing

  /** The compiled alternation of all kinds. */
  const KindPattern: Pattern := Group("", ContentTypes)

  /** IsValidContentType: the unanchored alternation matches. Because it is
      unanchored, any string containing a kind name is accepted. */
  function IsValidContentType(contentType: string): (valid: bool)
    ensures valid <==> exists t | t in ContentTypes :: Contains(contentType, t)
  {
    assert forall a :: a in ContentTypes ==> '.' !in a;
    DotFreeGroup("", ContentTypes, contentType);
    assert forall a :: "" + a == a;
    Matches(KindPattern, contentType)
  }

  /** Every exact kind name is valid. */
  lemma KindsAreValid(t: string)
    requires t in ContentTypes
    ensures IsValidContentType(t)
  {
    PrefixOccurs(t, t);
  }

  /** "home" is accepted as a kind, since it contains "me", though no
      configuration is mapped to it. */
  lemma HomeIsValidButUnmapped()
    ensures IsValidContentType("home")
    ensures "home" !in contentMappings
  {
    assert OccursAt("home", "me", 2);
    assert Contains("home", "me");
    assert "me" in ContentTypes;
  }

  /** The pattern text of the kind alternation: the five kinds in order,
      separated by "|", in parentheses. */
  function GetRoutingRegexString(): (r: string)
    ensures r == "(" + ContentTypes[TypeExperience] + "|" + ContentTypes[TypeEducation] + "|" + ContentTypes[TypeProject]
                 + "|" + ContentTypes[TypeCertification] + "|" + ContentTypes[TypeMe] + ")"
  {
    JoinFive(ContentTypes, "|");
    Source(KindPattern)
  }

  // ---------------------------------------------------------------------
  // Rendering

  /** What the content page template is given. */
  datatype ContentTemplateData = ContentTemplateData(typeName: string, html: seq<Html>)

  /** What the cards wrapper template is given. */
  datatype CardsData = CardsData(typeName: string, cards: seq<Html>)

  /** Renders every element in order; the first failure is the answer. */
  function RenderAll<T>(xs: seq<T>, render: T -> Result<Html>): (r: Result<seq<Html>>)
    ensures r.Ok? <==> forall i :: 0 <= i < |xs| ==> render(xs[i]).Ok?
    ensures r.Ok? ==> |r.value| == |xs| && forall i :: 0 <= i < |xs| ==> Ok(r.value[i]) == render(xs[i])
    ensures r.Err? ==> exists k :: 0 <= k < |xs| && render(xs[k]) == Err(r.error)
                                    && forall j :: 0 <= j < k ==> render(xs[j]).Ok?
  {
    if |xs| == 0 then Ok([])
    else
      match render(xs[0])
      case Err(e) => Err(e)
      case Ok(h) =>
        var rest := RenderAll(xs[1..], render);
        assert forall i :: 1 <= i < |xs| ==> xs[i] == xs[1..][i - 1];
        if rest.Err? then
          var k :| 0 <= k < |xs[1..]| && render(xs[1..][k]) == Err(rest.error)
                   && forall j :: 0 <= j < k ==> render(xs[1..][j]).Ok?;
          assert render(xs[k + 1]) == Err(rest.error);
          Err(rest.error)
        else Ok([h] + rest.value)
  }

  /** Rendering one more element extends the rendering of the prefix. */
  lemma RenderAllSnoc<T>(xs: seq<T>, x: T, render: T -> Result<Html>)
    requires RenderAll(xs, render).Ok?
    ensures render(x).Ok? ==> RenderAll(xs + [x], render) == Ok(RenderAll(xs, render).value + [render(x).value])
    ensures render(x).Err? ==> RenderAll(xs + [x], render) == Err(render(x).error)
  {
    var ys := xs + [x];
    assert forall i :: 0 <= i < |xs| ==> ys[i] == xs[i];
    assert ys[|xs|] == x;
    var r := RenderAll(ys, render);
    if render(x).Ok? {
      assert |r.value| == |ys|;
      assert r.value == RenderAll(xs, render).value + [render(x).value];
    }
  }

  /** The template files renderContent parses for an element: the content
      base template and the element's own template. */
  function ContentFiles(templatesPath: string): Content -> seq<string> {
    (c: Content) => [Join([templatesPath, "base.html"]), Join([templatesPath, c.GetTemplateName()])]
  }

  /** The template files renderCard parses for a card. */
  function CardFiles(templatesPath: string): Card -> seq<string> {
    (c: Card) => [Join([templatesPath, "base.html"]), Join([templatesPath, c.CardTemplateName()])]
  }

  /** RenderTemplate of the "content" template on one element, once the
      function map is installed. */
  function Rendering<T>(funcMap: Utils.FuncMap, files: T -> seq<string>,
                        engine: (Utils.FuncMap, string, T, seq<string>) -> Result<Html>): T -> Result<Html>
  {
    x => engine(funcMap, "content", x, files(x))
  }

  /** The element renderer GetRenderedContent uses (renderContent). */
  function ContentRenderer(funcMap: Utils.FuncMap, templatesPath: string,
                           engine: (Utils.FuncMap, string, Content, seq<string>) -> Result<Html>)
    : Content -> Result<Html>
  {
    Rendering(funcMap, ContentFiles(templatesPath), engine)
  }

  /** The card renderer renderCards uses (renderCard). */
  function CardRenderer(funcMap: Utils.FuncMap, templatesPath: string,
                        engine: (Utils.FuncMap, string, Card, seq<string>) -> Result<Html>)
    : Card -> Result<Html>
  {
    Rendering(funcMap, CardFiles(templatesPath), engine)
  }

  /** What GetRenderedContent yields: a panic for a kind without a mapped
      configuration (a nil interface), the load error, the end of the
      program at the first element while no function map is installed,
      the first render error, or the fragments in element order under the
      title-cased kind. */
  function RenderedContent(contentType: string, load: ContentConfig -> Result<ContentConfig>,
                           templatesPath: string, funcMap: Option<Utils.FuncMap>,
                           engine: (Utils.FuncMap, string, Content, seq<string>) -> Result<Html>)
    : Run<Result<ContentTemplateData>>
  {
    if contentType !in contentMappings then Stopped(Panic(NilDereference))
    else
      match load(contentMappings[contentType])
      case Err(e) => Done(Err(e))
      case Ok(cfg) =>
        if funcMap.None? then
          if cfg.GetElements() == [] then Done(Ok(ContentTemplateData(Utils.Title(contentType), [])))
          else Stopped(LogFatal(Utils.NotInitialized))
        else
          match RenderAll(cfg.GetElements(), ContentRenderer(funcMap.value, templatesPath, engine))
          case Err(e) => Done(Err(e))
          case Ok(html) => Done(Ok(ContentTemplateData(Utils.Title(contentType), html)))
  }

  /** The outcomes of GetRenderedContent: a panic exactly for unmapped
      kinds; the end of the program exactly when a loaded kind has
      elements and no function map is installed; on success one fragment
      per loaded element, in order, under the title-cased kind; an error
      exactly when loading or some element's rendering fails. */
  lemma RenderedContentOutcome(contentType: string, load: ContentConfig -> Result<ContentConfig>,
                               templatesPath: string, funcMap: Option<Utils.FuncMap>,
                               engine: (Utils.FuncMap, string, Content, seq<string>) -> Result<Html>)
    ensures var r := RenderedContent(contentType, load, templatesPath, funcMap, engine);
            && (contentType !in contentMappings ==> r == Stopped(Panic(NilDereference)))
            && (contentType in contentMappings && load(contentMappings[contentType]).Ok? ==>
                  var els := load(contentMappings[contentType]).value.GetElements();
                  && (funcMap.None? && els != [] <==> r == Stopped(LogFatal(Utils.NotInitialized))))
            && (r.Stopped? <==> (|| contentType !in contentMappings
                                 || (&& load(contentMappings[contentType]).Ok? && funcMap.None?
                                     && load(contentMappings[contentType]).value.GetElements() != [])))
            && (r.Done? ==> (r.value.Ok? <==>
                  && load(contentMappings[contentType]).Ok?
                  && forall i :: 0 <= i < |load(contentMappings[contentType]).value.GetElements()| ==>
                       funcMap.Some? &&
                       ContentRenderer(funcMap.value, templatesPath, engine)(load(contentMappings[contentType]).value.GetElements()[i]).Ok?))
            && (r.Done? && r.value.Ok? ==>
                  var els := load(contentMappings[contentType]).value.GetElements();
                  && r.value.value.typeName == Utils.Title(contentType)
                  && |r.value.value.html| == |els|
                  && forall i :: 0 <= i < |els| ==>
                       funcMap.Some? && Ok(r.value.value.html[i]) == ContentRenderer(funcMap.value, templatesPath, engine)(els[i]))
  {
  }

  /** "me" loads no elements, so it renders to no fragments, titled "Me",
      whether or not the function map is installed. */
  lemma RenderedMe(load: ContentConfig -> Result<ContentConfig>, templatesPath: string,
                   funcMap: Option<Utils.FuncMap>,
                   engine: (Utils.FuncMap, string, Content, seq<string>) -> Result<Html>)
    requires load(AboutMeConfig("")).Ok? && load(AboutMeConfig("")).value.AboutMeConfig?
    ensures RenderedContent("me", load, templatesPath, funcMap, engine) == Done(Ok(ContentTemplateData("Me", [])))
  {
    MeIsMapped();
    TitleOfMe();
  }

  /** "me" maps to the empty about-me configuration. */
  lemma MeIsMapped()
    ensures "me" in contentMappings && contentMappings["me"] == AboutMeConfig("")
  {
    assert ContentTypes[TypeMe] == "me";
  }

  lemma TitleOfMe()
    ensures Utils.Title("me") == "Me"
  {
    assert Strs.ToUpperChar('m') == 'M' && Strs.ToLowerChar('e') == 'e';
  }

  /** GetRenderedContent: looks up the kind's configuration, loads it, and
      renders its elements one after the other through RenderTemplate,
      stopping at an error. */
  method GetRenderedContent(templates: Utils.Templates, contentType: string,
                            load: ContentConfig -> Result<ContentConfig>, templatesPath: string,
                            engine: (Utils.FuncMap, string, Content, seq<string>) -> Result<Html>)
    returns (r: Run<Result<ContentTemplateData>>)
    ensures r == RenderedContent(contentType, load, templatesPath, templates.funcMap, engine)
  {
    if contentType !in contentMappings {
      return Stopped(Panic(NilDereference));
    }
    var obj := contentMappings[contentType];
    var loaded := load(obj);
    if loaded.Err? {
      return Done(Err(loaded.error));
    }
    var cards := loaded.value.GetElements();
    var data := RenderEach(templates, cards, ContentFiles(templatesPath), engine);
    if data.Stopped? {
      return Stopped(data.exit);
    }
    if data.value.Err? {
      return Done(Err(data.value.error));
    }
    r := Done(Ok(ContentTemplateData(Utils.Title(contentType), data.value.value)));
  }

  /** The loop of GetRenderedContent and renderCards: renders each element
      with the "content" template through RenderTemplate and appends the
      fragment, returning at the first error. Before Init the first
      element ends the program. */
  method RenderEach<T>(templates: Utils.Templates, xs: seq<T>, files: T -> seq<string>,
                       engine: (Utils.FuncMap, string, T, seq<string>) -> Result<Html>)
    returns (r: Run<Result<seq<Html>>>)
    ensures templates.funcMap.None? ==>
              r == if xs == [] then Done(Ok([])) else Stopped(LogFatal(Utils.NotInitialized))
    ensures templates.funcMap.Some? ==> r == Done(RenderAll(xs, Rendering(templates.funcMap.value, files, engine)))
  {
    var data: seq<Html> := [];
    for i := 0 to |xs|
      invariant i > 0 ==> templates.funcMap.Some?
      invariant templates.funcMap.Some? ==> RenderAll(xs[..i], Rendering(templates.funcMap.value, files, engine)) == Ok(data)
      invariant templates.funcMap.None? ==> data == []
    {
      var tpl := templates.RenderTemplate("content", xs[i], files(xs[i]), engine);
      if tpl.Stopped? {
        return Stopped(tpl.exit);
      }
      RenderAllStep(xs, i, Rendering(templates.funcMap.value, files, engine), data);
      if tpl.value.Err? {
        return Done(Err(tpl.value.error));
      }
      data := data + [tpl.value.value];
    }
    if templates.funcMap.Some? {
      RenderAllWhole(xs, Rendering(templates.funcMap.value, files, engine), data);
    }
    r := Done(Ok(data));
  }

  /** One iteration of RenderEach: a failing element is the failure of the
      whole list, a rendered one extends the prefix's fragments. */
  lemma RenderAllStep<T>(xs: seq<T>, i: nat, render: T -> Result<Html>, data: seq<Html>)
    requires i < |xs| && RenderAll(xs[..i], render) == Ok(data)
    ensures render(xs[i]).Ok? ==> RenderAll(xs[..i + 1], render) == Ok(data + [render(xs[i]).value])
    ensures render(xs[i]).Err? ==> RenderAll(xs, render) == Err(render(xs[i]).error)
  {
    var p := xs[..i + 1];
    assert p == xs[..i] + [xs[i]];
    RenderAllSnoc(xs[..i], xs[i], render);
    if render(xs[i]).Err? {
      assert RenderAll(p, render) == Err(render(xs[i]).error);
      RenderAllErrExtends(xs, i + 1, render);
    }
  }

  /** The rendering of the whole list is that of its full prefix. */
  lemma RenderAllWhole<T>(xs: seq<T>, render: T -> Result<Html>, data: seq<Html>)
    requires RenderAll(xs[..|xs|], render) == Ok(data)
    ensures RenderAll(xs, render) == Ok(data)
  {
    assert xs[..|xs|] == xs;
  }

  /** A failure in a prefix is the failure of the whole list. */
  lemma {:induction false} RenderAllErrExtends<T>(xs: seq<T>, n: nat, render: T -> Result<Html>)
    requires n <= |xs| && RenderAll(xs[..n], render).Err?
    ensures RenderAll(xs, render) == RenderAll(xs[..n], render)
    decreases n
  {
    var p := xs[..n];
    assert p != [] && p[0] == xs[0];
    if render(xs[0]).Ok? {
      assert p[1..] == xs[1..][..n - 1];
      assert RenderAll(p, render).Err? ==> RenderAll(p[1..], render).Err?;
      RenderAllErrExtends(xs[1..], n - 1, render);
    }
  }

  /** The cards wrapper template's file. */
  function CardsFile(templatesPath: string): string {
    Join([templatesPath, "cards.html"])
  }

  /** What renderCards yields: the end of the program while no function
      map is installed (at the first card, or at the wrapper when there
      are none), the first card error, or the wrapper template's answer on
      the cards' fragments under the card type. */
  function RenderedCards(obj: ContentConfig, cardType: string, templatesPath: string,
                         funcMap: Option<Utils.FuncMap>,
                         cardEngine: (Utils.FuncMap, string, Card, seq<string>) -> Result<Html>,
                         wrapEngine: (Utils.FuncMap, string, CardsData, seq<string>) -> Result<Html>)
    : Run<Result<Html>>
    requires obj.ExperienceConfig?
  {
    if funcMap.None? then Stopped(LogFatal(Utils.NotInitialized))
    else
      match RenderAll(obj.Elements(), CardRenderer(funcMap.value, templatesPath, cardEngine))
      case Err(e) => Done(Err(e))
      case Ok(cards) => Done(wrapEngine(funcMap.value, "cards", CardsData(cardType, cards), [CardsFile(templatesPath)]))
  }

  /** renderCards ends the program exactly when no function map is
      installed; otherwise it fails with the first failing card's error,
      or the wrapper sees one fragment per card, in order, typed cardType. */
  lemma RenderedCardsOutcome(obj: ContentConfig, cardType: string, templatesPath: string,
                             funcMap: Option<Utils.FuncMap>,
                             cardEngine: (Utils.FuncMap, string, Card, seq<string>) -> Result<Html>,
                             wrapEngine: (Utils.FuncMap, string, CardsData, seq<string>) -> Result<Html>)
    requires obj.ExperienceConfig?
    ensures var r := RenderedCards(obj, cardType, templatesPath, funcMap, cardEngine, wrapEngine);
            && (r.Stopped? <==> funcMap.None?)
            && (r.Stopped? ==> r == Stopped(LogFatal(Utils.NotInitialized)))
    ensures funcMap.Some? ==>
            var cards := obj.Elements();
            var render := CardRenderer(funcMap.value, templatesPath, cardEngine);
            var r := RenderedCards(obj, cardType, templatesPath, funcMap, cardEngine, wrapEngine);
            && ((exists k :: 0 <= k < |cards| && render(cards[k]).Err?) ==>
                  exists k :: 0 <= k < |cards| && r == Done(render(cards[k])) && forall j :: 0 <= j < k ==> render(cards[j]).Ok?)
            && ((forall k :: 0 <= k < |cards| ==> render(cards[k]).Ok?) ==>
                  exists html: seq<Html> ::
                    && |html| == |cards|
                    && (forall i :: 0 <= i < |cards| ==> Ok(html[i]) == render(cards[i]))
                    && r == Done(wrapEngine(funcMap.value, "cards", CardsData(cardType, html), [CardsFile(templatesPath)])))
  {
    if funcMap.Some? {
      var cards := obj.Elements();
      var all := RenderAll(cards, CardRenderer(funcMap.value, templatesPath, cardEngine));
      if all.Ok? {
        assert |all.value| == |cards|;
      }
    }
  }

  /** renderCards: renders each card through RenderTemplate, stopping at
      the first error, then the wrapper template around them. */
  method RenderCards(templates: Utils.Templates, obj: ContentConfig, cardType: string, templatesPath: string,
                     cardEngine: (Utils.FuncMap, string, Card, seq<string>) -> Result<Html>,
                     wrapEngine: (Utils.FuncMap, string, CardsData, seq<string>) -> Result<Html>)
    returns (r: Run<Result<Html>>)
    requires obj.ExperienceConfig?
    ensures r == RenderedCards(obj, cardType, templatesPath, templates.funcMap, cardEngine, wrapEngine)
  {
    var data := RenderEach(templates, obj.Elements(), CardFiles(templatesPath), cardEngine);
    if data.Stopped? {
      return Stopped(data.exit);
    }
    if data.value.Err? {
      return Done(Err(data.value.error));
    }
    var baseTpl := CardsFile(templatesPath);
    r := templates.RenderTemplate("cards", CardsData(cardType, data.value.value), [baseTpl], wrapEngine);
  }

  /** ExperienceConfig.Render: the cards under the experience kind. */
  method ExperienceRender(templates: Utils.Templates, ec: ContentConfig, templatesPath: string,
                          cardEngine: (Utils.FuncMap, string, Card, seq<string>) -> Result<Html>,
                          wrapEngine: (Utils.FuncMap, string, CardsData, seq<string>) -> Result<Html>)
    returns (r: Run<Result<Html>>)
    requires ec.ExperienceConfig?
    ensures r == RenderedCards(ec, "experience", templatesPath, templates.funcMap, cardEngine, wrapEngine)
  {
    r := RenderCards(templates, ec, ec.GetContentType(), templatesPath, cardEngine, wrapEngine);
  }
}
