/** The optional cache of remote images below the static directory: where
    it lives, the public URL prefix it is served under, and the file name a
    remote image is stored as. The file system, the HTTP download, SHA-1
    and url.Parse are inputs. */
module Images {
  import opened Outcomes
  import opened Strs
  import opened Paths
  import Utils
  import AppConfig

  newtype byte = b: int | 0 <= b < 256

  /** A SHA-1 sum: 20 bytes (FIPS 180-4). */
  type Digest = s: seq<byte> | |s| == 20 witness seq(20, _ => 0)

  // ---------------------------------------------------------------------
  // Lower-case hexadecimal (encoding/hex)

  /** The lower-case digit for a nibble: '0'-'9', then 'a'-'f'. */
  function HexDigit(n: int): char
    requires 0 <= n < 16
  {
    if n < 10 then ('0' as int + n) as char else ('a' as int + n - 10) as char
  }

  predicate IsHexDigit(c: char) {
    ('0' <= c <= '9') || ('a' <= c <= 'f')
  }

  function HexValue(c: char): (n: int)
    requires IsHexDigit(c)
    ensures 0 <= n < 16 && HexDigit(n) == c
    ensures forall m :: 0 <= m < 16 && HexDigit(m) == c ==> m == n
  {
    if '0' <= c <= '9' then c as int - '0' as int else c as int - 'a' as int + 10
  }

  /** hex.EncodeToString: two lower-case digits per byte, high nibble first. */
  function HexEncode(bs: seq<byte>): (s: string)
    ensures |s| == 2 * |bs|
    ensures forall i :: 0 <= i < |s| ==> IsHexDigit(s[i])
  {
    if |bs| == 0 then ""
    else [HexDigit(bs[0] as int / 16), HexDigit(bs[0] as int % 16)] + HexEncode(bs[1..])
  }

  /** hex.DecodeString on lower-case input of even length. */
  function HexDecode(s: string): seq<byte>
    requires |s| % 2 == 0
    requires forall i :: 0 <= i < |s| ==> IsHexDigit(s[i])
  {
    if |s| == 0 then []
    else [(16 * HexValue(s[0]) + HexValue(s[1])) as byte] + HexDecode(s[2..])
  }

  /** Decoding undoes encoding, so distinct digests get distinct names. */
  lemma {:induction false} HexRoundTrip(bs: seq<byte>)
    ensures HexDecode(HexEncode(bs)) == bs
  {
    if |bs| > 0 {
      var s := HexEncode(bs);
      assert s[2..] == HexEncode(bs[1..]);
      HexRoundTrip(bs[1..]);
    }
  }

  // ---------------------------------------------------------------------
  // Cache file names

  /** The number of bytes of the UTF-8 encoding (Go's len on a string). */
  function Utf8Len(s: string): (n: nat)
    ensures n >= |s|
  {
    if |s| == 0 then 0
    else
      var c := s[0] as int;
      (if c < 0x80 then 1 else if c < 0x800 then 2 else if c < 0x10000 then 3 else 4) + Utf8Len(s[1..])
  }

  /** The extension a cache file takes: the URL path's own, unless it is
      empty or longer than 8 bytes, when it is ".img". */
  function CacheExt(urlPath: string): string {
    var ext := Ext(urlPath);
    if ext == "" || Utf8Len(ext) > 8 then ".img" else ext
  }

  /** cacheFileName: the hex SHA-1 of the raw URL, then the extension. */
  function CacheFileName(raw: string, u: Utils.Url, sha1: string -> Digest): string {
    HexEncode(sha1(raw)) + CacheExt(u.path)
  }

  /** The name is 40 hex digits of the digest followed by an extension of
      1 to 8 bytes starting with '.': the URL's when it qualifies, else
      ".img". */
  lemma CacheFileNameShape(raw: string, u: Utils.Url, sha1: string -> Digest)
    ensures var name := CacheFileName(raw, u, sha1);
            var ext := name[40..];
            && |name| > 40
            && name[..40] == HexEncode(sha1(raw))
            && HexDecode(name[..40]) == sha1(raw)
            && ext[0] == '.' && 1 <= Utf8Len(ext) <= 8 && Separator !in ext
            && (ext == Ext(u.path) || ext == ".img")
            && (Ext(u.path) != "" && Utf8Len(Ext(u.path)) <= 8 ==> ext == Ext(u.path))
  {
    HexRoundTrip(sha1(raw));
    var name := CacheFileName(raw, u, sha1);
    assert name[..40] == HexEncode(sha1(raw));
    assert name[40..] == CacheExt(u.path);
    assert Utf8Len(".img") == 4;
  }

  /** Two URLs get the same cache file only if their digests agree. */
  lemma CacheFileNamesDiffer(a: string, b: string, u: Utils.Url, v: Utils.Url, sha1: string -> Digest)
    requires sha1(a) != sha1(b)
    ensures CacheFileName(a, u, sha1) != CacheFileName(b, v, sha1)
  {
    CacheFileNameShape(a, u, sha1);
    CacheFileNameShape(b, v, sha1);
  }

  /** A cache file name is a single plain path element. */
  lemma CacheFileNameIsElement(raw: string, u: Utils.Url, sha1: string -> Digest)
    ensures AppConfig.IsBelow(CacheFileName(raw, u, sha1))
  {
    var name := CacheFileName(raw, u, sha1);
    CacheFileNameShape(raw, u, sha1);
    assert Separator !in name by {
      assert name == name[..40] + name[40..];
      assert forall i :: 0 <= i < 40 ==> IsHexDigit(name[..40][i]);
    }
    AppConfig.WordIsBelow(name);
  }

  // ---------------------------------------------------------------------
  // Configuration

  const StaticPrefix: string := "/static"

  /** The default cache directory, filepath.Join("img", "cache"). */
  const DefaultCacheDir: string := "img/cache"

  /** The three package variables after SetImageCacheConfig, and its error. */
  datatype CacheState = CacheState(enabled: bool, dir: string, publicPrefix: string)
  datatype Configured = Configured(state: CacheState, err: Option<string>)

  const ErrAbsoluteDir: string := "cache dir must be relative to static dir"

  function ErrClearing(cause: string): string {
    "clearing image cache: " + cause
  }

  function ErrCreating(cause: string): string {
    "creating image cache dir: " + cause
  }

  function ErrOutside(staticDir: string): string {
    "cache dir must be inside static dir (" + staticDir + ")"
  }

  /** The directory Rel reports as the cache's place: climbing out of the
      static directory. */
  predicate Escapes(rel: string) {
    rel == ".." || HasPrefix(rel, "../")
  }

  /** What SetImageCacheConfig leaves, given the static directory and the
      errors os.RemoveAll and os.MkdirAll would return. filepath.Abs of the
      joined (absolute) directory is its Clean form, and Rel between two
      absolute paths always succeeds, so their error branches are never
      taken. */
  function Configuration(enabled: bool, force: bool, cacheDir: string, staticDir: string,
                         removeErr: Option<string>, mkdirErr: Option<string>): Configured
    requires IsAbs(staticDir) && IsClean(staticDir)
  {
    if !enabled then Configured(CacheState(false, "", ""), None)
    else
      var dir := if cacheDir == "" then DefaultCacheDir else cacheDir;
      if IsAbs(dir) then Configured(CacheState(false, "", ""), Some(ErrAbsoluteDir))
      else
        var abs := Join([staticDir, dir]);
        JoinAbsolute([staticDir, dir]);
        RelDefined(staticDir, abs);
        var rel := Rel(staticDir, abs).value;
        if rel == "." || rel == "" then Finish(CacheState(true, abs, StaticPrefix), force, removeErr, mkdirErr)
        else if Escapes(rel) then Configured(CacheState(false, "", ""), Some(ErrOutside(staticDir)))
        else Finish(CacheState(true, abs, Join([StaticPrefix, rel])), force, removeErr, mkdirErr)
  }

  /** Clearing (when forced) and creating the directory, after the state is
      set. */
  function Finish(s: CacheState, force: bool, removeErr: Option<string>, mkdirErr: Option<string>): Configured {
    if force && removeErr.Some? then Configured(s, Some(ErrClearing(removeErr.value)))
    else if mkdirErr.Some? then Configured(s, Some(ErrCreating(mkdirErr.value)))
    else Configured(s, None)
  }

  /** The directory the cache would occupy for a relative argument. */
  function Target(cacheDir: string, staticDir: string): string {
    Join([staticDir, if cacheDir == "" then DefaultCacheDir else cacheDir])
  }

  /** Disabling resets the directory and prefix; an absolute directory is
      refused and disables the cache. */
  lemma ConfigurationRefusals(force: bool, cacheDir: string, staticDir: string,
                              removeErr: Option<string>, mkdirErr: Option<string>)
    requires IsAbs(staticDir) && IsClean(staticDir)
    ensures Configuration(false, force, cacheDir, staticDir, removeErr, mkdirErr)
              == Configured(CacheState(false, "", ""), None)
    ensures IsAbs(cacheDir) ==>
              Configuration(true, force, cacheDir, staticDir, removeErr, mkdirErr)
                == Configured(CacheState(false, "", ""), Some(ErrAbsoluteDir))
  {
  }

  lemma DefaultCacheDirIsJoin()
    ensures Join(["img", "cache"]) == DefaultCacheDir && !IsAbs(DefaultCacheDir)
  {
    AppConfig.WordIsBelow("img");
    AppConfig.WordIsBelow("cache");
    AppConfig.BelowConcat("img", "cache");
    var r := "img" + "/" + "cache";
    assert ["img", "cache"][1..] == ["cache"];
    assert JoinWith(["img", "cache"], "/") == r;
    CleanOfClean(r);
    assert r == "img/cache";
  }

  /** "/static" is a clean absolute path other than the root. */
  lemma StaticPrefixIsClean()
    ensures IsAbs(StaticPrefix) && IsClean(StaticPrefix)
  {
    AppConfig.WordSplit("static");
    assert StaticPrefix[1..] == "static";
  }

  /** Rel from a directory to an absolute path: climbing out exactly
      when the path is not in the directory, "." for the directory itself,
      and a plain relative path below it otherwise. */
  lemma InsideRel(base: string, targ: string)
    requires IsClean(base) && IsAbs(base) && IsClean(targ) && IsAbs(targ)
    ensures Rel(base, targ).Ok?
    ensures var rel := Rel(base, targ).value;
            var bs, ts := Segments(base), Segments(targ);
            var inside := |bs| <= |ts| && ts[..|bs|] == bs;
            && (inside <==> !Escapes(rel))
            && (inside && targ == base ==> rel == ".")
            && (inside && targ != base ==> rel == JoinWith(ts[|bs|..], "/") && AppConfig.IsBelow(rel))
  {
    RelOfAbsolute(base, targ);
    var rel := Rel(base, targ).value;
    var bs, ts := Segments(base), Segments(targ);
    var inside := |bs| <= |ts| && ts[..|bs|] == bs;
    if inside && targ != base {
      assert bs != ts by {
        AbsoluteBySegments(base);
        AbsoluteBySegments(targ);
      }
      assert ts[..|ts|] == ts;
      var ext := ts[|bs|..];
      forall i | 0 <= i < |ext| ensures IsSegment(ext[i]) && ext[i] != ".." {
        assert ext[i] == ts[|bs| + i];
      }
      RelativeFromSegments(ext);
    }
    if inside && targ == base {
      assert bs == ts;
    }
  }

  /** Where Rel places the cache when it does not climb out: the static
      directory itself, or a plain relative path below it. */
  lemma RelPlace(staticDir: string, abs: string)
    requires IsAbs(staticDir) && IsClean(staticDir) && IsAbs(abs) && IsClean(abs)
    ensures Rel(staticDir, abs).Ok?
    ensures var rel := Rel(staticDir, abs).value;
            !Escapes(rel) ==> rel == "." || rel == "" || AppConfig.IsBelow(rel)
  {
    InsideRel(staticDir, abs);
  }

  /** "/static" followed by a plain relative path. */
  lemma PublicPrefixBelow(rel: string)
    requires AppConfig.IsBelow(rel)
    ensures Join([StaticPrefix, rel]) == StaticPrefix + "/" + rel
    ensures IsAbs(StaticPrefix + "/" + rel) && IsClean(StaticPrefix + "/" + rel) && StaticPrefix + "/" + rel != "/"
  {
    StaticPrefixIsClean();
    AppConfig.ChildIsJoin(StaticPrefix, rel);
  }

  /** For a relative directory the cache is enabled exactly when its place
      lies in the static directory; then the prefix is "/static" for the
      static directory itself and "/static/" + the path below it otherwise,
      the directory is that place, and the only possible errors are those
      of clearing or creating it. */
  lemma ConfigurationPlacesCache(force: bool, cacheDir: string, staticDir: string,
                                 removeErr: Option<string>, mkdirErr: Option<string>)
    requires IsAbs(staticDir) && IsClean(staticDir)
    requires !IsAbs(cacheDir)
    ensures var c := Configuration(true, force, cacheDir, staticDir, removeErr, mkdirErr);
            var t := Target(cacheDir, staticDir);
            var bs, ts := Segments(staticDir), Segments(t);
            var inside := |bs| <= |ts| && ts[..|bs|] == bs;
            && (c.state.enabled <==> inside)
            && (!inside ==> c == Configured(CacheState(false, "", ""), Some(ErrOutside(staticDir))))
            && (inside ==> c.state.dir == t && IsAbs(t) && IsClean(t))
            && (inside && t == staticDir ==> c.state.publicPrefix == StaticPrefix)
            && (inside && t != staticDir ==> c.state.publicPrefix == StaticPrefix + "/" + JoinWith(ts[|bs|..], "/"))
            && (inside && c.err.Some? ==> (force && removeErr.Some?) || mkdirErr.Some?)
  {
    var dir := if cacheDir == "" then DefaultCacheDir else cacheDir;
    DefaultCacheDirIsJoin();
    var t := Join([staticDir, dir]);
    JoinAbsolute([staticDir, dir]);
    InsideRel(staticDir, t);
    var rel := Rel(staticDir, t).value;
    if rel != "." && rel != "" && !Escapes(rel) {
      PublicPrefixBelow(rel);
    }
  }

  /** Every configuration that keeps a directory has an absolute clean
      public prefix below the root. */
  lemma ConfigurationValid(enabled: bool, force: bool, cacheDir: string, staticDir: string,
                           removeErr: Option<string>, mkdirErr: Option<string>)
    requires IsAbs(staticDir) && IsClean(staticDir)
    ensures var s := Configuration(enabled, force, cacheDir, staticDir, removeErr, mkdirErr).state;
            s.dir != "" ==> IsAbs(s.publicPrefix) && IsClean(s.publicPrefix) && s.publicPrefix != "/"
  {
    if enabled && !IsAbs(if cacheDir == "" then DefaultCacheDir else cacheDir) {
      var t := Target(cacheDir, staticDir);
      JoinAbsolute([staticDir, if cacheDir == "" then DefaultCacheDir else cacheDir]);
      RelPlace(staticDir, t);
      var rel := Rel(staticDir, t).value;
      if rel == "." || rel == "" {
        StaticPrefixIsClean();
      } else if !Escapes(rel) {
        PublicPrefixBelow(rel);
      }
    }
  }

  /** The package variables of the image cache. */
  class ImageCache {
    var imageCacheEnabled: bool
    var imageCacheDir: string
    var imageCachePublic: string

    /** A configured cache directory comes with an absolute clean public
        prefix below the root. */
    ghost predicate Valid()
      reads this
    {
      imageCacheDir != "" ==> IsAbs(imageCachePublic) && IsClean(imageCachePublic) && imageCachePublic != "/"
    }

    function State(): CacheState
      reads this
    {
      CacheState(imageCacheEnabled, imageCacheDir, imageCachePublic)
    }

    constructor ()
      ensures State() == CacheState(false, "", "")
      ensures Valid()
    {
      imageCacheEnabled := false;
      imageCacheDir := "";
      imageCachePublic := "";
    }

    /** SetImageCacheConfig: resets, then validates the directory against
        the static directory and sets it up. */
    method SetImageCacheConfig(enabled: bool, force: bool, cacheDir: string, paths: AppConfig.AppPaths,
                               removeErr: Option<string>, mkdirErr: Option<string>)
      returns (err: Option<string>)
      requires paths.Valid()
      modifies this
      ensures var c := Configuration(enabled, force, cacheDir, paths.StaticContentPath(), removeErr, mkdirErr);
              State() == c.state && err == c.err
      ensures Valid()
    {
      var staticDir := paths.StaticContentPath();
      imageCacheEnabled := enabled;
      imageCacheDir := "";
      imageCachePublic := "";
      if !enabled {
        return None;
      }
      var dir := cacheDir;
      if dir == "" {
        dir := DefaultCacheDir;
      }
      if IsAbs(dir) {
        imageCacheEnabled := false;
        return Some(ErrAbsoluteDir);
      }
      var absCacheDir := Join([staticDir, dir]);
      JoinAbsolute([staticDir, dir]);
      RelPlace(staticDir, absCacheDir);
      var rel := Rel(staticDir, absCacheDir).value;
      if rel == "." || rel == "" {
        imageCachePublic := StaticPrefix;
        StaticPrefixIsClean();
      } else if Escapes(rel) {
        imageCacheEnabled := false;
        return Some(ErrOutside(staticDir));
      } else {
        PublicPrefixBelow(rel);
        imageCachePublic := Join([StaticPrefix, rel]);
      }
      imageCacheDir := absCacheDir;
      assert Configuration(enabled, force, cacheDir, staticDir, removeErr, mkdirErr)
        == Finish(State(), force, removeErr, mkdirErr);
      if force && removeErr.Some? {
        return Some(ErrClearing(removeErr.value));
      }
      if mkdirErr.Some? {
        return Some(ErrCreating(mkdirErr.value));
      }
      return None;
    }

    /** MaybeCacheImage: the cached copy's public path when caching applies
        and the file exists or downloads, else the image unchanged. */
    method MaybeCacheImage(image: string, parse: string -> Option<Utils.Url>, sha1: string -> Digest,
                           present: string -> bool, download: (string, string) -> Option<string>)
      returns (r: string)
      requires Valid()
      ensures r == CachedImage(State(), image, parse, sha1, present, download)
    {
      if !imageCacheEnabled {
        return image;
      }
      var u := parse(image);
      if u.None? || u.value.scheme == "" || u.value.host == "" {
        return image;
      }
      if imageCacheDir == "" {
        return image;
      }
      var filename := CacheFileName(image, u.value, sha1);
      var localPath := Join([imageCacheDir, filename]);
      var publicPath := Join([imageCachePublic, filename]);
      if present(localPath) {
        return publicPath;
      }
      if download(image, localPath).Some? {
        return image;
      }
      return publicPath;
    }
  }

  /** What MaybeCacheImage answers in a given cache state; the file system
      is asked about, and the download goes to, the local path. */
  function CachedImage(s: CacheState, image: string, parse: string -> Option<Utils.Url>, sha1: string -> Digest,
                       present: string -> bool, download: (string, string) -> Option<string>): string
  {
    var u := parse(image);
    if !s.enabled || !Utils.IsAbsoluteUrl(u) || s.dir == "" then image
    else
      var filename := CacheFileName(image, u.value, sha1);
      var localPath := Join([s.dir, filename]);
      if present(localPath) || download(image, localPath).None? then Join([s.publicPrefix, filename]) else image
  }

  /** The image comes back unchanged when caching is off, the string is not
      an absolute URL, or no directory is configured; otherwise the answer
      is the image or prefix + "/" + its cache file name, the latter
      exactly when the file exists or its download succeeds. */
  lemma CachedImageOutcome(s: CacheState, image: string, parse: string -> Option<Utils.Url>, sha1: string -> Digest,
                           present: string -> bool, download: (string, string) -> Option<string>)
    requires s.dir != "" ==> IsAbs(s.publicPrefix) && IsClean(s.publicPrefix) && s.publicPrefix != "/"
    ensures var r := CachedImage(s, image, parse, sha1, present, download);
            var u := parse(image);
            && (!s.enabled || !Utils.IsAbsoluteUrl(u) || s.dir == "" ==> r == image)
            && (s.enabled && Utils.IsAbsoluteUrl(u) && s.dir != "" ==>
                  var name := CacheFileName(image, u.value, sha1);
                  var local := Join([s.dir, name]);
                  && (present(local) || download(image, local).None? ==> r == s.publicPrefix + "/" + name)
                  && (!present(local) && download(image, local).Some? ==> r == image))
  {
    var u := parse(image);
    if s.enabled && Utils.IsAbsoluteUrl(u) && s.dir != "" {
      CacheFileNameIsElement(image, u.value, sha1);
      JoinChild(s.publicPrefix, CacheFileName(image, u.value, sha1));
    }
  }
}
