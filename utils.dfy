/** The template helpers of the utils package: the server base path that
    links are rooted at, the "Assemble" template function, and the guard
    that rendering happens only after Init. The template engine itself
    (parsing, execution and pretty-printing) is a function parameter. */
module Utils {
  import opened Outcomes
  import opened Strs
  import opened Paths

  /** Trusted HTML, template.HTML. */
  type Html = string

  /** What a URL parser reports for a string it accepts. */
  datatype Url = Url(scheme: string, host: string, path: string)

  /** The string parses as a URL with both a scheme and a host. */
  predicate IsAbsoluteUrl(u: Option<Url>) {
    u.Some? && u.value.scheme != "" && u.value.host != ""
  }

  /** The base path Init settles on: rooted and ending in "/". */
  function NormalizeBasePath(serverBasePath: string): (r: string)
    ensures IsAbs(r) && HasSuffix(r, "/")
  {
    var rooted := if IsAbs(serverBasePath) then serverBasePath else "/" + serverBasePath;
    if HasSuffix(rooted, "/") then rooted else rooted + "/"
  }

  /** Init adds at most a leading and a trailing separator. */
  lemma NormalizeKeepsText(s: string)
    ensures var r := NormalizeBasePath(s);
            |s| <= |r| <= |s| + 2 && (r[..|s|] == s || r[1..|s| + 1] == s)
  {
  }

  /** A base path that is already rooted and ends in "/" is kept, so
      normalising is idempotent; the empty base path becomes the root. */
  lemma NormalizeFixedPoints(s: string)
    ensures IsAbs(s) && HasSuffix(s, "/") ==> NormalizeBasePath(s) == s
    ensures NormalizeBasePath(NormalizeBasePath(s)) == NormalizeBasePath(s)
    ensures NormalizeBasePath("") == "/"
  {
    assert HasSuffix("/", "/");
  }

  /** The function "Assemble" for a base path: absolute URLs pass through,
      anything else is put below the base path, once. */
  function Assemble(basePath: string, parse: string -> Option<Url>, path: string): (r: string)
    ensures IsAbsoluteUrl(parse(path)) ==> r == path
    ensures !IsAbsoluteUrl(parse(path)) ==> IsAbs(r)
  {
    if IsAbsoluteUrl(parse(path)) then path
    else
      var res := Join([basePath, TrimPrefix(path, basePath)]);
      if IsAbs(res) then res else [Separator] + res
  }

  /** Below a rooted base path the answer is the clean join of the base
      and the path with one copy of the base removed. */
  lemma AssembleIsCleanJoin(basePath: string, parse: string -> Option<Url>, path: string)
    requires IsAbs(basePath)
    requires !IsAbsoluteUrl(parse(path))
    ensures Assemble(basePath, parse, path) == Join([basePath, TrimPrefix(path, basePath)])
    ensures IsClean(Assemble(basePath, parse, path))
  {
    var elems := [basePath, TrimPrefix(path, basePath)];
    JoinAbsolute(elems);
    assert elems[0] != "";
  }

  /** A path that already carries the base path is not prefixed twice. */
  lemma AssembleStripsBaseOnce(basePath: string, parse: string -> Option<Url>, rest: string)
    requires !HasPrefix(rest, basePath)
    requires !IsAbsoluteUrl(parse(rest)) && !IsAbsoluteUrl(parse(basePath + rest))
    ensures Assemble(basePath, parse, basePath + rest) == Assemble(basePath, parse, rest)
  {
    assert (basePath + rest)[..|basePath|] == basePath;
    assert (basePath + rest)[|basePath|..] == rest;
  }

  /** With the base path Init produces, a clean path below the base is left
      as it is: Assemble is idempotent on its own results. */
  lemma AssembleKeepsAssembled(basePath: string, parse: string -> Option<Url>, path: string)
    requires IsAbs(basePath) && HasSuffix(basePath, "/")
    requires IsClean(path) && HasPrefix(path, basePath)
    requires !IsAbsoluteUrl(parse(path))
    ensures Assemble(basePath, parse, path) == path
  {
    var b0 := basePath[..|basePath| - 1];
    var x := path[|basePath|..];
    assert basePath == b0 + "/";
    assert path == b0 + "/" + x;
    assert TrimPrefix(path, basePath) == x;
    AssembleIsCleanJoin(basePath, parse, path);
    assert [basePath, x][0] != "";
    assert JoinWith([basePath, x], "/") == b0 + "/" + "/" + x;
    CleanDoubleSeparator(b0, x);
    CleanOfClean(path);
  }

  /** title-casing of one word: its first letter upper case, the rest
      lower case (ASCII letters only). */
  function Title(word: string): (r: string)
    ensures |r| == |word|
    ensures |word| > 0 ==> r[0] == ToUpperChar(word[0])
    ensures forall i :: 0 < i < |word| ==> r[i] == ToLowerChar(word[i])
  {
    if word == "" then "" else [ToUpperChar(word[0])] + seq(|word| - 1, i requires 0 <= i < |word| - 1 => ToLowerChar(word[i + 1]))
  }

  /** Why rendering stops before Init has installed the function map. */
  const NotInitialized: string := "[ERROR] Please call util.Init at least once before rendering a template"

  /** The template function map: Title, and Assemble for one base path. */
  datatype FuncMap = FuncMap(basePath: string)

  /** The package-level function map, nil until Init runs. */
  class Templates {
    var funcMap: Option<FuncMap>

    constructor ()
      ensures funcMap == None
    {
      funcMap := None;
    }

    /** Init: normalises the base path and installs the function map. */
    method Init(serverBasePath: string)
      modifies this
      ensures funcMap == Some(FuncMap(NormalizeBasePath(serverBasePath)))
    {
      var p := serverBasePath;
      if !IsAbs(p) {
        p := "/" + p;
      }
      if !HasSuffix(p, "/") {
        p := p + "/";
      }
      funcMap := Some(FuncMap(p));
    }

    /** The Assemble function of the installed map. */
    function AssembleFunc(parse: string -> Option<Url>, path: string): (r: string)
      reads this
      requires funcMap.Some?
      ensures IsAbs(r) || IsAbsoluteUrl(parse(path))
    {
      Assemble(funcMap.value.basePath, parse, path)
    }

    /** RenderTemplate: stops the program before Init; otherwise the
        engine's answer for the named template, the data and the files. */
    method RenderTemplate<D>(tplName: string, data: D, templates: seq<string>,
                             engine: (FuncMap, string, D, seq<string>) -> Result<Html>)
      returns (r: Run<Result<Html>>)
      ensures funcMap.None? <==> r.Stopped?
      ensures r.Stopped? ==> r == Stopped(LogFatal(NotInitialized))
      ensures funcMap.Some? ==> r == Done(engine(funcMap.value, tplName, data, templates))
    {
      if funcMap.None? {
        return Stopped(LogFatal(NotInitialized));
      }
      r := Done(engine(funcMap.value, tplName, data, templates));
    }

    /** ProcessHTMLContent: stops before Init, dereferences a nil HTML
        pointer (a panic), and otherwise runs the engine on the text. */
    method ProcessHTMLContent(html: Option<Html>, engine: (FuncMap, Html) -> Result<Html>)
      returns (r: Run<Result<Html>>)
      ensures funcMap.None? ==> r == Stopped(LogFatal(NotInitialized))
      ensures funcMap.Some? && html.None? ==> r == Stopped(Panic(NilDereference))
      ensures funcMap.Some? && html.Some? ==> r == Done(engine(funcMap.value, html.value))
    {
      if funcMap.None? {
        return Stopped(LogFatal(NotInitialized));
      }
      if html.None? {
        return Stopped(Panic(NilDereference));
      }
      r := Done(engine(funcMap.value, html.value));
    }
  }
}
