/** Where the application finds its templates and static files and where a
    static build goes, and the fixed template names. */
module AppConfig {
  import opened Outcomes
  import opened Strs
  import opened Paths
  import opened Regex

  const BaseTemplateName: string := "base"
  const ContentTemplateName: string := "content"
  const StatusTemplateName: string := "status"
  const ContactTemplateName: string := "contact"
  const MailTemplate: string := "mail.html"

  /** A relative path naming something below a directory: clean, not ".",
      and never climbing with "..". */
  predicate IsBelow(rel: string) {
    && IsClean(rel) && !IsAbs(rel) && rel != "."
    && forall i :: 0 <= i < |Segments(rel)| ==> Segments(rel)[i] != ".."
  }

  /** The installation directory. */
  function WwwDir(): string {
    Join(["/", "var", "www", "portfoli.go"])
  }

  /** A single path element other than "." and "..": its own split. */
  lemma {:induction false} WordSplit(w: string)
    requires Separator !in w
    ensures Split(w) == [w]
  {
    if |w| > 0 {
      WordSplit(w[1..]);
      assert [w[0]] + w[1..] == w;
    }
  }

  lemma WordIsBelow(w: string)
    requires Separator !in w && w != "" && w != "." && w != ".."
    ensures IsBelow(w) && Segments(w) == [w]
  {
    WordSplit(w);
  }

  /** Two relative paths below a directory joined by a separator. */
  lemma BelowConcat(a: string, b: string)
    requires IsBelow(a) && IsBelow(b)
    ensures IsBelow(a + "/" + b)
  {
    SplitConcat(a, b);
  }

  /** Helper for RootedJoin: the unjoined text of the root and three
      names. */
  lemma JoinWithRoot(v: string, w: string, p: string)
    ensures JoinWith(["/", v, w, p], "/") == "/" + "/" + (v + "/" + (w + "/" + p))
  {
    assert ["/", v, w, p][1..] == [v, w, p] && [v, w, p][1..] == [w, p] && [w, p][1..] == [p];
    assert JoinWith([w, p], "/") == w + "/" + p;
    assert JoinWith([v, w, p], "/") == v + "/" + (w + "/" + p);
  }

  /** Joining the root with three plain names. */
  lemma RootedJoin(v: string, w: string, p: string)
    requires IsBelow(v) && IsBelow(w) && IsBelow(p)
    ensures Join(["/", v, w, p]) == "/" + v + "/" + w + "/" + p
  {
    BelowConcat(w, p);
    BelowConcat(v, w + "/" + p);
    var rel := v + "/" + (w + "/" + p);
    JoinWithRoot(v, w, p);
    JoinLeading(["/", v, w, p]);
    CleanBelowRoot(rel);
    RootedText(v, w, p);
  }

  /** A join whose first element is not empty cleans the joined text. */
  lemma JoinLeading(elems: seq<string>)
    requires |elems| > 0 && elems[0] != ""
    ensures Join(elems) == Clean(JoinWith(elems, "/"))
  {
  }

  /** Helper for RootedJoin: the same text, regrouped. */
  lemma RootedText(v: string, w: string, p: string)
    ensures "/" + (v + "/" + (w + "/" + p)) == "/" + v + "/" + w + "/" + p
  {
  }

  /** Joining a directory with two plain names. */
  lemma JoinTwoBelow(d: string, m: string, f: string)
    requires IsClean(d) && IsAbs(d) && IsBelow(m) && IsBelow(f)
    ensures Join([d, m, f]) == Child(d, m) + "/" + f
  {
    BelowConcat(m, f);
    JoinThreeAsTwo(d, m, f);
    JoinChild(d, m + "/" + f);
  }

  /** Joining three elements is joining the first with the other two
      already joined. */
  lemma JoinThreeAsTwo(d: string, m: string, f: string)
    requires d != ""
    ensures Join([d, m, f]) == Join([d, m + "/" + f])
  {
    assert [d, m, f][1..] == [m, f] && [m, f][1..] == [f] && [d, m + "/" + f][1..] == [m + "/" + f];
    assert JoinWith([m, f], "/") == m + "/" + f;
    assert JoinWith([d, m, f], "/") == d + "/" + (m + "/" + f);
    assert JoinWith([d, m, f], "/") == JoinWith([d, m + "/" + f], "/");
  }

  /** Helper for WwwDirValue: the installation directory is the root joined
      with its three names. */
  lemma WwwDirParts()
    ensures WwwDir() == "/" + "var" + "/" + "www" + "/" + "portfoli.go"
  {
    WordIsBelow("var");
    WordIsBelow("www");
    WordIsBelow("portfoli.go");
    RootedJoin("var", "www", "portfoli.go");
  }

  /** Helper for WwwDirValue: the joined literals as one literal. */
  lemma WwwDirText(x: string)
    requires x == "/" + "var" + "/" + "www" + "/" + "portfoli.go"
    ensures x == "/var/www/portfoli.go"
  {
  }

  /** The installation directory, as one literal. */
  lemma WwwDirValue()
    ensures WwwDir() == "/var/www/portfoli.go"
  {
    WwwDirParts();
    WwwDirText(WwwDir());
  }

  /** A plain name joined to the installation directory. */
  lemma UnderWww(name: string, r: string)
    requires IsBelow(name) && r == Join([WwwDir(), name])
    ensures r == "/var/www/portfoli.go" + "/" + name
  {
    var w := WwwDir();
    WwwDirValue();
    JoinAbsolute(["/", "var", "www", "portfoli.go"]);
    JoinChild(w, name);
  }

  /** The installation directory is absolute. */
  lemma WwwDirIsAbsolute()
    ensures IsAbs(WwwDir())
  {
    JoinAbsolute(["/", "var", "www", "portfoli.go"]);
  }

  /** A word below the installation directory. */
  lemma DefaultDirectory(name: string)
    requires Separator !in name && name != "" && name != "." && name != ".."
    ensures Join([WwwDir(), name]) == "/var/www/portfoli.go" + "/" + name
  {
    WordIsBelow(name);
    UnderWww(name, Join([WwwDir(), name]));
  }

  /** Helper for DefaultDirectories: each default directory's text as one
      literal. */
  lemma DefaultDirTexts()
    ensures "/var/www/portfoli.go" + "/" + "templates" == "/var/www/portfoli.go/templates"
    ensures "/var/www/portfoli.go" + "/" + "public" == "/var/www/portfoli.go/public"
    ensures "/var/www/portfoli.go" + "/" + "dist" == "/var/www/portfoli.go/dist"
  {
  }

  /** The default directories below the installation directory. */
  lemma DefaultDirectories()
    ensures Join([WwwDir(), "templates"]) == "/var/www/portfoli.go/templates"
    ensures Join([WwwDir(), "public"]) == "/var/www/portfoli.go/public"
    ensures Join([WwwDir(), "dist"]) == "/var/www/portfoli.go/dist"
  {
    DefaultDirectory("templates");
    DefaultDirectory("public");
    DefaultDirectory("dist");
    DefaultDirTexts();
  }

  /** ConvertToAbsPath: filepath.Abs, ending the program on its error. */
  function ConvertToAbsPath(path: string, cwd: Result<string>): (r: Run<string>)
    requires cwd.Ok? ==> IsAbs(cwd.value)
    ensures r.Done? ==> IsAbs(r.value) && IsClean(r.value)
    ensures r.Stopped? ==> r.exit.LogFatal?
    ensures IsAbs(path) ==> r == Done(Clean(path))
    ensures !IsAbs(path) && cwd.Ok? ==> r == Done(Join([cwd.value, path]))
    ensures !IsAbs(path) && cwd.Err? ==> r.Stopped?
  {
    match Abs(path, cwd)
    case Err(e) => Stopped(LogFatal("parsing configuration directory: " + e))
    case Ok(a) => Done(a)
  }

  /** The directory a SetPaths argument selects: the current one when nil,
      else the argument made absolute. */
  function Chosen(arg: Option<string>, current: string, cwd: Result<string>): Run<string>
    requires cwd.Ok? ==> IsAbs(cwd.value)
  {
    if arg.None? then Done(current) else ConvertToAbsPath(arg.value, cwd)
  }

  /** dir/name, where dir is a clean absolute directory. */
  function Child(dir: string, name: string): string {
    if dir == "/" then dir + name else dir + "/" + name
  }

  lemma ChildIsJoin(dir: string, name: string)
    requires IsClean(dir) && IsAbs(dir) && IsBelow(name)
    ensures Join([dir, name]) == Child(dir, name)
    ensures IsClean(Child(dir, name)) && IsAbs(Child(dir, name)) && Child(dir, name) != "/"
  {
    JoinChild(dir, name);
    JoinAbsolute([dir, name]);
    assert |Child(dir, name)| > 1;
  }

  /** The file name of the base template. */
  lemma BaseTemplateFile()
    ensures IsBelow(BaseTemplateName + ".html")
  {
    var f := BaseTemplateName + ".html";
    assert f == "base.html";
    WordIsBelow(f);
  }

  /** The package's directory variables: the installation directory and
      the three directories below it that SetPaths may replace. */
  class AppPaths {
    const wwwDir: string
    var templatesDir: string
    var staticDir: string
    var distDir: string

    /** Every directory is absolute and clean. */
    ghost predicate Valid()
      reads this
    {
      IsAbs(templatesDir) && IsClean(templatesDir) && IsAbs(staticDir) && IsClean(staticDir)
      && IsAbs(distDir) && IsClean(distDir)
    }

    /** The defaults below the installation directory (DefaultDirectories
        spells them out). */
    constructor ()
      ensures wwwDir == WwwDir()
      ensures templatesDir == Join([wwwDir, "templates"])
      ensures staticDir == Join([wwwDir, "public"])
      ensures distDir == Join([wwwDir, "dist"])
      ensures Valid()
    {
      var www := WwwDir();
      WwwDirIsAbsolute();
      wwwDir := www;
      templatesDir := Join([www, "templates"]);
      staticDir := Join([www, "public"]);
      distDir := Join([www, "dist"]);
      JoinAbsolute([www, "templates"]);
      JoinAbsolute([www, "public"]);
      JoinAbsolute([www, "dist"]);
    }

    /** SetPaths: each non-nil argument replaces its directory, in the
        order templates, static, dist; a failing conversion ends the
        program with the earlier directories already replaced. */
    method SetPaths(templates: Option<string>, staticArg: Option<string>, dist: Option<string>, cwd: Result<string>)
      returns (exit: Option<Exit>)
      requires cwd.Ok? ==> IsAbs(cwd.value)
      requires Valid()
      modifies this
      ensures Valid()
      ensures var t := Chosen(templates, old(templatesDir), cwd);
              var s := Chosen(staticArg, old(staticDir), cwd);
              var d := Chosen(dist, old(distDir), cwd);
              && (t.Stopped? ==> exit == Some(t.exit) && unchanged(this))
              && (t.Done? ==> templatesDir == t.value)
              && (t.Done? && s.Stopped? ==> exit == Some(s.exit) && staticDir == old(staticDir) && distDir == old(distDir))
              && (t.Done? && s.Done? ==> staticDir == s.value)
              && (t.Done? && s.Done? && d.Stopped? ==> exit == Some(d.exit) && distDir == old(distDir))
              && (t.Done? && s.Done? && d.Done? ==> exit.None? && distDir == d.value)
    {
      if templates.Some? {
        var r := ConvertToAbsPath(templates.value, cwd);
        if r.Stopped? {
          return Some(r.exit);
        }
        templatesDir := r.value;
      }
      if staticArg.Some? {
        var r := ConvertToAbsPath(staticArg.value, cwd);
        if r.Stopped? {
          return Some(r.exit);
        }
        staticDir := r.value;
      }
      if dist.Some? {
        var r := ConvertToAbsPath(dist.value, cwd);
        if r.Stopped? {
          return Some(r.exit);
        }
        distDir := r.value;
      }
      return None;
    }

    /** The html templates: "html" below the templates directory. */
    function HTMLTemplatesPath(): (r: string)
      reads this
      requires Valid()
      ensures r == Child(templatesDir, "html")
      ensures IsAbs(r) && IsClean(r) && r != "/"
    {
      WordIsBelow("html");
      ChildIsJoin(templatesDir, "html");
      Join([templatesDir, "html"])
    }

    /** The base template: base.html among the html templates. */
    function BaseTemplatePath(): (r: string)
      reads this
      requires Valid()
      ensures r == Child(templatesDir, "html") + "/" + BaseTemplateName + ".html"
    {
      BaseTemplateFile();
      ChildIsJoin(HTMLTemplatesPath(), BaseTemplateName + ".html");
      Join([HTMLTemplatesPath(), BaseTemplateName + ".html"])
    }

    /** The mail template: mail/mail.html below the templates directory. */
    function MailTemplatePath(): (r: string)
      reads this
      requires Valid()
      ensures r == Child(templatesDir, "mail") + "/" + MailTemplate
    {
      WordIsBelow("mail");
      WordIsBelow(MailTemplate);
      JoinTwoBelow(templatesDir, "mail", MailTemplate);
      Join([templatesDir, "mail", MailTemplate])
    }

    /** The content templates: "content" among the html templates. */
    function ContentTemplatesPath(): (r: string)
      reads this
      requires Valid()
      ensures r == Child(templatesDir, "html") + "/" + ContentTemplateName
      ensures IsAbs(r) && IsClean(r)
    {
      WordIsBelow(ContentTemplateName);
      ChildIsJoin(HTMLTemplatesPath(), ContentTemplateName);
      Join([HTMLTemplatesPath(), ContentTemplateName])
    }

    function TemplatesPath(): (r: string)
      reads this
      requires Valid()
      ensures IsAbs(r) && IsClean(r) && r == templatesDir
    {
      templatesDir
    }

    function StaticContentPath(): (r: string)
      reads this
      requires Valid()
      ensures IsAbs(r) && IsClean(r) && r == staticDir
    {
      staticDir
    }

    function DistDir(): (r: string)
      reads this
      requires Valid()
      ensures IsAbs(r) && IsClean(r) && r == distDir
    {
      distDir
    }
  }

  /** A directory chosen by SetPaths is absolute and clean: an absolute
      argument is cleaned, a relative one is joined to the working
      directory, and without a working directory the program stops. */
  lemma ChosenDirectory(arg: Option<string>, current: string, cwd: Result<string>)
    requires cwd.Ok? ==> IsAbs(cwd.value)
    requires IsAbs(current) && IsClean(current)
    ensures var r := Chosen(arg, current, cwd);
            && (r.Done? ==> IsAbs(r.value) && IsClean(r.value))
            && (arg.None? ==> r == Done(current))
            && (arg.Some? && IsAbs(arg.value) ==> r == Done(Clean(arg.value)))
            && (arg.Some? && !IsAbs(arg.value) ==> (r.Stopped? <==> cwd.Err?))
  {
  }

  /** The templates a static build does not render on their own. */
  const StaticIgnorePattern: Pattern :=
    Group("", [BaseTemplateName, ContentTemplateName, StatusTemplateName, ContactTemplateName])

  /** StaticIgnoreRegex: the alternation of the four names. */
  function StaticIgnoreRegex(): (p: Pattern)
    ensures Source(p) == "(" + BaseTemplateName + "|" + ContentTemplateName + "|" + StatusTemplateName
                         + "|" + ContactTemplateName + ")"
  {
    JoinFour(StaticIgnorePattern.alternatives, "|");
    StaticIgnorePattern
  }

  /** A file name is ignored exactly when it contains one of the four
      template names anywhere. */
  lemma StaticIgnoreMatches(name: string)
    ensures Matches(StaticIgnoreRegex(), name) <==>
              Contains(name, BaseTemplateName) || Contains(name, ContentTemplateName)
              || Contains(name, StatusTemplateName) || Contains(name, ContactTemplateName)
  {
    var alts := [BaseTemplateName, ContentTemplateName, StatusTemplateName, ContactTemplateName];
    DotFreeGroup("", alts, name);
    if Matches(StaticIgnoreRegex(), name) {
      var a :| a in alts && Contains(name, "" + a);
      assert "" + a == a;
    } else {
      assert "" + BaseTemplateName == BaseTemplateName && "" + ContentTemplateName == ContentTemplateName;
      assert "" + StatusTemplateName == StatusTemplateName && "" + ContactTemplateName == ContactTemplateName;
      assert alts[0] == BaseTemplateName && alts[1] == ContentTemplateName;
      assert alts[2] == StatusTemplateName && alts[3] == ContactTemplateName;
    }
  }
}
