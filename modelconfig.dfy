/** The application configuration read from config.yml: the profile, the
    SMTP settings of the contact form, and whether the form is shown.
    YAML decoding is modelled by what it leaves: a document that names some
    keys, laid over the defaults, the way yaml.v3 fills an existing value. */
module ModelConfig {
  import opened Outcomes
  import Utils
  import Content

  type Html = Utils.Html

  const ConfigFile: string := "config.yml"

  datatype SocialMedia = SocialMedia(kind: string, link: string)

  /** The profile; HTML fields and the email address are pointers (None
      when nil). */
  datatype ProfileConfig = ProfileConfig(
    brandName: string, brandImage: Option<Html>, bannerImage: string, avatar: string,
    firstName: string, lastName: string, email: Option<string>,
    heading: Option<Html>, subHeading: Option<Html>, slogan: string, contactHeading: string,
    socialMedia: seq<SocialMedia>, contentTypes: seq<string>, animations: bool)

  /** The four SMTP settings; the user is an address (None when nil). */
  datatype SMTPConfig = SMTPConfig(user: Option<string>, pass: string, host: string, port: int)

  datatype Config = Config(profile: ProfileConfig, smtp: Option<SMTPConfig>, renderContact: bool)

  /** An email address as written in the YAML: one mail.ParseAddress
      accepts (with the address it yields), or one it rejects. */
  datatype AddressText = ParsedAddress(address: string) | BadAddress(raw: string)

  /** A pointer-valued key: absent (the value is kept), an explicit YAML
      null (the pointer becomes nil), or a value. */
  datatype PointerKey<T> = Absent | Null | Given(value: T)

  /** The keys a config.yml gives under "profile" (None: key absent). */
  datatype ProfileDoc = ProfileDoc(
    brandName: Option<string>, brandImage: PointerKey<Html>, bannerImage: Option<string>, avatar: Option<string>,
    firstName: Option<string>, lastName: Option<string>, email: Option<AddressText>,
    heading: PointerKey<Html>, subHeading: PointerKey<Html>, slogan: Option<string>, contactHeading: Option<string>,
    socialMedia: Option<seq<SocialMedia>>, contentTypes: Option<seq<string>>, animations: Option<bool>)

  datatype SMTPDoc = SMTPDoc(user: Option<AddressText>, pass: Option<string>, host: Option<string>, port: Option<int>)

  datatype ConfigDoc = ConfigDoc(profile: Option<ProfileDoc>, smtp: Option<SMTPDoc>)

  /** The errors Load reports; InvalidSMTPConfig is ErrInvalidSMTPConfig. */
  datatype LoadError = YamlError(message: string) | InvalidKind(kind: string) | InvalidSMTPConfig

  /** The text of each error: the YAML decoder's message, the invalid kind,
      or ErrInvalidSMTPConfig's text. */
  function ErrorText(e: LoadError): string {
    match e
    case YamlError(m) => m
    case InvalidKind(k) => "invalid content kind " + k
    case InvalidSMTPConfig => "invalid SMTP configuration"
  }

  /** What Load returns: the config pointer (None when nil) and the error. */
  datatype Loaded = Loaded(config: Option<Config>, err: Option<LoadError>)

  const DefaultBrandImage: Html :=
    "<img src='/static/img/portfoli.go-yellow.svg' style='width: 25px; margin-bottom: 4px;'/>"

  /** The config Load starts from. */
  function Defaults(): Config {
    Config(ProfileConfig("Portfoli.go", Some(DefaultBrandImage), "", "", "", "", None, None, None,
                         "", "", [], [], false),
           None, false)
  }

  function Or<T>(o: Option<T>, d: T): T {
    if o.Some? then o.value else d
  }

  /** Decoding into a pointer field: an absent key keeps the pointer, a null
      sets it to nil, a value to a new pointer. */
  function PointerOf<T>(k: PointerKey<T>, d: Option<T>): (r: Option<T>)
    ensures k.Absent? ==> r == d
    ensures k.Null? ==> r.None?
    ensures k.Given? ==> r == Some(k.value)
  {
    match k
    case Absent => d
    case Null => None
    case Given(v) => Some(v)
  }

  function AddressOf(a: Option<AddressText>, d: Option<string>): Option<string> {
    match a
    case Some(ParsedAddress(x)) => Some(x)
    case _ => d
  }

  predicate IsBad(a: Option<AddressText>) {
    a.Some? && a.value.BadAddress?
  }

  /** The document names an address that does not parse. */
  predicate HasBadAddress(doc: ConfigDoc) {
    (doc.profile.Some? && IsBad(doc.profile.value.email)) || (doc.smtp.Some? && IsBad(doc.smtp.value.user))
  }

  /** The text of the first address that does not parse, the profile's
      before the SMTP user's. */
  function BadAddressText(doc: ConfigDoc): (raw: string)
    requires HasBadAddress(doc)
    ensures (doc.profile.Some? && IsBad(doc.profile.value.email) && raw == doc.profile.value.email.value.raw)
            || (doc.smtp.Some? && IsBad(doc.smtp.value.user) && raw == doc.smtp.value.user.value.raw)
  {
    if doc.profile.Some? && IsBad(doc.profile.value.email) then doc.profile.value.email.value.raw
    else doc.smtp.value.user.value.raw
  }

  /** What UnmarshalYAML logs before ending the program. */
  const InvalidAddressMessage: string := "[ERROR]: Invalid profile email address "

  function OverlayProfile(p: ProfileConfig, d: ProfileDoc): ProfileConfig {
    ProfileConfig(
      Or(d.brandName, p.brandName), PointerOf(d.brandImage, p.brandImage), Or(d.bannerImage, p.bannerImage),
      Or(d.avatar, p.avatar), Or(d.firstName, p.firstName), Or(d.lastName, p.lastName),
      AddressOf(d.email, p.email), PointerOf(d.heading, p.heading), PointerOf(d.subHeading, p.subHeading),
      Or(d.slogan, p.slogan), Or(d.contactHeading, p.contactHeading), Or(d.socialMedia, p.socialMedia),
      Or(d.contentTypes, p.contentTypes), Or(d.animations, p.animations))
  }

  /** yaml.Unmarshal into cfg: keys present replace, absent keys keep the
      value; a new "smtp" section starts from zero values; an address that
      does not parse ends the program (log.Fatalf in UnmarshalYAML). */
  function Decode(cfg: Config, doc: ConfigDoc): Run<Config> {
    if HasBadAddress(doc) then Stopped(LogFatal(InvalidAddressMessage + BadAddressText(doc)))
    else
      var profile := if doc.profile.Some? then OverlayProfile(cfg.profile, doc.profile.value) else cfg.profile;
      var smtp := if doc.smtp.None? then cfg.smtp
                  else
                    var s := doc.smtp.value;
                    var base := Or(cfg.smtp, SMTPConfig(None, "", "", 0));
                    Some(SMTPConfig(AddressOf(s.user, base.user), Or(s.pass, base.pass), Or(s.host, base.host), Or(s.port, base.port)));
      Done(Config(profile, smtp, cfg.renderContact))
  }

  /** Decoding stops exactly on an address that does not parse, and logs
      that address's text. */
  lemma DecodeRejectsBadAddress(cfg: Config, doc: ConfigDoc)
    ensures Decode(cfg, doc).Stopped? <==> HasBadAddress(doc)
    ensures doc.profile.Some? && IsBad(doc.profile.value.email) ==>
              Decode(cfg, doc) == Stopped(LogFatal(InvalidAddressMessage + doc.profile.value.email.value.raw))
    ensures !(doc.profile.Some? && IsBad(doc.profile.value.email)) && doc.smtp.Some? && IsBad(doc.smtp.value.user) ==>
              Decode(cfg, doc) == Stopped(LogFatal(InvalidAddressMessage + doc.smtp.value.user.value.raw))
  {
  }

  /** Keys the document leaves out keep the default brand name and image. */
  lemma DecodeKeepsDefaults(doc: ConfigDoc)
    requires !HasBadAddress(doc)
    ensures var c := Decode(Defaults(), doc).value;
            && (doc.profile.None? || doc.profile.value.brandName.None? ==> c.profile.brandName == "Portfoli.go")
            && (doc.profile.None? || doc.profile.value.brandImage.Absent? ==> c.profile.brandImage == Some(DefaultBrandImage))
            && (doc.smtp.None? ==> c.smtp.None?)
  {
  }

  /** The index of the first configured kind that is not valid. */
  function FirstInvalidKind(kinds: seq<string>): (r: Option<nat>)
    ensures r.Some? ==> r.value < |kinds| && !Content.IsValidContentType(kinds[r.value])
    ensures r.Some? ==> forall j :: 0 <= j < r.value ==> Content.IsValidContentType(kinds[j])
    ensures r.None? <==> forall j :: 0 <= j < |kinds| ==> Content.IsValidContentType(kinds[j])
  {
    if |kinds| == 0 then None
    else if !Content.IsValidContentType(kinds[0]) then Some(0)
    else
      var rest := FirstInvalidKind(kinds[1..]);
      assert forall j :: 1 <= j < |kinds| ==> kinds[j] == kinds[1..][j - 1];
      if rest.None? then None else Some(rest.value + 1)
  }

  /** The SMTP fields in declaration order, lower-cased as Load logs them. */
  const SMTPFieldNames: seq<string> := ["user", "pass", "host", "port"]

  /** The i-th SMTP field holds its zero value. */
  predicate FieldIsZero(s: SMTPConfig, i: nat)
    requires i < 4
  {
    if i == 0 then s.user.None? else if i == 1 then s.pass == "" else if i == 2 then s.host == "" else s.port == 0
  }

  /** Every SMTP setting is given. */
  predicate SMTPComplete(s: SMTPConfig) {
    s.user.Some? && s.pass != "" && s.host != "" && s.port != 0
  }

  /** The first SMTP field holding its zero value. */
  function FirstZeroField(s: SMTPConfig): (r: Option<nat>)
    ensures r.Some? ==> r.value < 4 && FieldIsZero(s, r.value) && forall j :: 0 <= j < r.value ==> !FieldIsZero(s, j)
    ensures r.None? <==> SMTPComplete(s)
  {
    if s.user.None? then Some(0) else if s.pass == "" then Some(1) else if s.host == "" then Some(2)
    else if s.port == 0 then Some(3) else None
  }

  /** What one Load does: its result, and the config it leaves in the
      package variable (which Get then returns). */
  datatype LoadStep = LoadStep(outcome: Run<Loaded>, stored: Config)

  function Loading(file: Result<ConfigDoc>): LoadStep {
    if file.Err? then LoadStep(Done(Loaded(None, Some(YamlError(file.error)))), Defaults())
    else
      match Decode(Defaults(), file.value)
      case Stopped(x) => LoadStep(Stopped(x), Defaults())
      case Done(c) => Checked(c)
  }

  /** The checks Load makes on the decoded config: the content kinds, then
      the SMTP section. */
  function Checked(c: Config): LoadStep {
    var kinds := c.profile.contentTypes;
    match FirstInvalidKind(kinds)
    case Some(i) => LoadStep(Done(Loaded(None, Some(InvalidKind(kinds[i])))), c)
    case None =>
      var on := c.(renderContact := true);
      if c.smtp.None? then LoadStep(Stopped(Panic(NilDereference)), on)
      else if FirstZeroField(c.smtp.value).Some? then
        var off := c.(renderContact := false);
        LoadStep(Done(Loaded(Some(off), Some(InvalidSMTPConfig))), off)
      else LoadStep(Done(Loaded(Some(on), None)), on)
  }

  /** A configured kind that is not valid makes Load return no config and
      that kind's error, whatever the SMTP section says; absent an invalid
      kind, Load never reports a kind error. */
  lemma LoadRejectsInvalidKinds(doc: ConfigDoc)
    requires !HasBadAddress(doc)
    ensures var c := Decode(Defaults(), doc).value;
            var kinds := c.profile.contentTypes;
            var r := Loading(Ok(doc)).outcome;
            && ((exists i :: 0 <= i < |kinds| && !Content.IsValidContentType(kinds[i])) <==>
                 r.Done? && r.value.err.Some? && r.value.err.value.InvalidKind?)
            && (r.Done? && r.value.err.Some? && r.value.err.value.InvalidKind? ==>
                 && r.value.config.None?
                 && exists i :: 0 <= i < |kinds| && r.value.err.value.kind == kinds[i]
                                && !Content.IsValidContentType(kinds[i])
                                && forall j :: 0 <= j < i ==> Content.IsValidContentType(kinds[j]))
  {
  }

  /** When Load returns a config, the contact form is enabled exactly when
      all four SMTP settings are given; otherwise the error is
      ErrInvalidSMTPConfig; and the config returned is the one stored. */
  lemma LoadGatesContactForm(file: Result<ConfigDoc>)
    ensures var step := Loading(file);
            var r := step.outcome;
            r.Done? && r.value.config.Some? ==>
              var c := r.value.config.value;
              && c == step.stored
              && c.smtp.Some?
              && (c.renderContact <==> SMTPComplete(c.smtp.value))
              && (r.value.err.None? <==> c.renderContact)
              && (r.value.err.Some? ==> r.value.err.value == InvalidSMTPConfig)
  {
  }

  /** With valid kinds but no "smtp" section, Load dereferences nil. */
  lemma LoadPanicsWithoutSMTP(doc: ConfigDoc)
    requires !HasBadAddress(doc) && doc.smtp.None?
    requires var c := Decode(Defaults(), doc).value;
             forall i :: 0 <= i < |c.profile.contentTypes| ==> Content.IsValidContentType(c.profile.contentTypes[i])
    ensures Loading(Ok(doc)).outcome == Stopped(Panic(NilDereference))
  {
  }

  /** The package variable cfg and the functions that set and read it. */
  class ConfigStore {
    var cfg: Option<Config>

    constructor ()
      ensures cfg == None
    {
      cfg := None;
    }

    /** Load: starts from the defaults, decodes the file over them, checks
        the content kinds, then the SMTP fields in order. */
    method Load(file: Result<ConfigDoc>) returns (r: Run<Loaded>)
      modifies this
      ensures r == Loading(file).outcome
      ensures cfg == Some(Loading(file).stored)
      ensures r.Done? && (r.value.err.None? || r.value.err.value == InvalidSMTPConfig) ==> r.value.config.Some?
    {
      var c := Defaults();
      cfg := Some(c);
      if file.Err? {
        return Done(Loaded(None, Some(YamlError(file.error))));
      }
      var decoded := Decode(c, file.value);
      if decoded.Stopped? {
        return Stopped(decoded.exit);
      }
      r := Check(decoded.value);
    }

    /** The rest of Load, once the file is decoded into c. */
    method Check(c: Config) returns (r: Run<Loaded>)
      modifies this
      ensures r == Checked(c).outcome
      ensures cfg == Some(Checked(c).stored)
    {
      cfg := Some(c);
      var kinds := c.profile.contentTypes;
      for i := 0 to |kinds|
        invariant forall j :: 0 <= j < i ==> Content.IsValidContentType(kinds[j])
      {
        if !Content.IsValidContentType(kinds[i]) {
          return Done(Loaded(None, Some(InvalidKind(kinds[i]))));
        }
      }
      var on := c.(renderContact := true);
      cfg := Some(on);
      if on.smtp.None? {
        return Stopped(Panic(NilDereference));
      }
      for i := 0 to |SMTPFieldNames|
        invariant forall j :: 0 <= j < i ==> !FieldIsZero(on.smtp.value, j)
      {
        if FieldIsZero(on.smtp.value, i) {
          var off := c.(renderContact := false);
          cfg := Some(off);
          return Done(Loaded(Some(off), Some(InvalidSMTPConfig)));
        }
      }
      return Done(Loaded(Some(on), None));
    }

    /** Get: the stored config; before any Load the program stops. */
    method Get() returns (r: Run<Config>)
      ensures cfg.None? ==> r.Stopped? && r.exit.LogFatal?
      ensures cfg.Some? ==> r == Done(cfg.value)
    {
      if cfg.None? {
        return Stopped(LogFatal("[ERROR] Cannot return config, please call LoadConfig first"));
      }
      return Done(cfg.value);
    }
  }

  // ---------------------------------------------------------------------
  // RenderHTML

  /** The HTML pointer fields of the profile, in declaration order. */
  datatype HtmlField = BrandImage | Heading | SubHeading

  const HtmlFields: seq<HtmlField> := [BrandImage, Heading, SubHeading]

  function FieldValue(p: ProfileConfig, f: HtmlField): Option<Html> {
    match f
    case BrandImage => p.brandImage
    case Heading => p.heading
    case SubHeading => p.subHeading
  }

  function WithField(p: ProfileConfig, f: HtmlField, v: Html): (q: ProfileConfig)
    ensures FieldValue(q, f) == Some(v)
    ensures forall g :: g != f ==> FieldValue(q, g) == FieldValue(p, g)
  {
    match f
    case BrandImage => p.(brandImage := Some(v))
    case Heading => p.(heading := Some(v))
    case SubHeading => p.(subHeading := Some(v))
  }

  /** What RenderHTML leaves: the profile as far as it got, and the error
      that stopped it. */
  datatype Rendered = Rendered(profile: ProfileConfig, err: Option<string>)

  /** ProcessHTMLContent on one field: stops before Init or on a nil
      pointer, else the engine's answer. */
  function Process(funcMap: Option<Utils.FuncMap>, html: Option<Html>,
                   engine: (Utils.FuncMap, Html) -> Result<Html>): Run<Result<Html>>
  {
    if funcMap.None? then Stopped(LogFatal(Utils.NotInitialized))
    else if html.None? then Stopped(Panic(NilDereference))
    else Done(engine(funcMap.value, html.value))
  }

  /** Processes the given fields in order, replacing each by its rendering
      and stopping at the first error. */
  function RenderFields(funcMap: Option<Utils.FuncMap>, p: ProfileConfig, fields: seq<HtmlField>,
                        engine: (Utils.FuncMap, Html) -> Result<Html>): Run<Rendered>
    decreases |fields|
  {
    if |fields| == 0 then Done(Rendered(p, None))
    else
      match Process(funcMap, FieldValue(p, fields[0]), engine)
      case Stopped(x) => Stopped(x)
      case Done(Err(e)) => Done(Rendered(p, Some(e)))
      case Done(Ok(h)) => RenderFields(funcMap, WithField(p, fields[0], h), fields[1..], engine)
  }

  /** Each field is listed at most once. */
  predicate Distinct(fields: seq<HtmlField>) {
    forall i, j :: 0 <= i < j < |fields| ==> fields[i] != fields[j]
  }

  /** q differs from p at most in the HTML fields. */
  predicate SameOtherFields(p: ProfileConfig, q: ProfileConfig) {
    q.(brandImage := p.brandImage, heading := p.heading, subHeading := p.subHeading) == p
  }

  /** Field g of q holds what the engine made of field g of p. */
  predicate RenderedFrom(funcMap: Option<Utils.FuncMap>, p: ProfileConfig, q: ProfileConfig, g: HtmlField,
                         engine: (Utils.FuncMap, Html) -> Result<Html>)
  {
    && funcMap.Some? && FieldValue(p, g).Some? && FieldValue(q, g).Some?
    && engine(funcMap.value, FieldValue(p, g).value) == Ok(FieldValue(q, g).value)
  }

  /** Rendering failed at fields[k]: the engine gave the reported error on
      that field's value, the fields before it hold their renderings and
      it and the fields after it keep their value. */
  predicate FailedAt(funcMap: Option<Utils.FuncMap>, p: ProfileConfig, res: Rendered, fields: seq<HtmlField>, k: int,
                     engine: (Utils.FuncMap, Html) -> Result<Html>)
  {
    && 0 <= k < |fields| && res.err.Some?
    && funcMap.Some? && FieldValue(p, fields[k]).Some?
    && engine(funcMap.value, FieldValue(p, fields[k]).value) == Err(res.err.value)
    && (forall j :: 0 <= j < k ==> RenderedFrom(funcMap, p, res.profile, fields[j], engine))
    && (forall j :: k <= j < |fields| ==> FieldValue(res.profile, fields[j]) == FieldValue(p, fields[j]))
  }

  /** Fields RenderHTML does not reach keep their value, nothing but the
      HTML fields changes, and without error every listed field is set. */
  lemma {:induction false} RenderFieldsOutcome(funcMap: Option<Utils.FuncMap>, p: ProfileConfig, fields: seq<HtmlField>,
                                               engine: (Utils.FuncMap, Html) -> Result<Html>)
    ensures var r := RenderFields(funcMap, p, fields, engine);
            r.Done? ==>
              && (forall g :: g !in fields ==> FieldValue(r.value.profile, g) == FieldValue(p, g))
              && (r.value.err.None? ==> forall g :: g in fields ==> FieldValue(r.value.profile, g).Some?)
              && SameOtherFields(p, r.value.profile)
    decreases |fields|
  {
    if |fields| > 0 {
      var r := Process(funcMap, FieldValue(p, fields[0]), engine);
      if r.Done? && r.value.Ok? {
        var q := WithField(p, fields[0], r.value.value);
        RenderFieldsOutcome(funcMap, q, fields[1..], engine);
        var t := RenderFields(funcMap, q, fields[1..], engine);
        if t.Done? && t.value.err.None? {
          forall g | g in fields ensures FieldValue(t.value.profile, g).Some? {
            if g != fields[0] {
              assert g in fields[1..];
            } else if g !in fields[1..] {
              assert FieldValue(q, g).Some?;
            }
          }
        }
      }
    }
  }

  /** Without error every listed field holds the engine's rendering of its
      original value. */
  lemma {:induction false} RenderFieldsSuccess(funcMap: Option<Utils.FuncMap>, p: ProfileConfig, fields: seq<HtmlField>,
                                               engine: (Utils.FuncMap, Html) -> Result<Html>)
    requires Distinct(fields)
    ensures var r := RenderFields(funcMap, p, fields, engine);
            r.Done? && r.value.err.None? ==>
              forall g :: g in fields ==> RenderedFrom(funcMap, p, r.value.profile, g, engine)
    decreases |fields|
  {
    if |fields| > 0 {
      var r := Process(funcMap, FieldValue(p, fields[0]), engine);
      if r.Done? && r.value.Ok? {
        var f := fields[0];
        var q := WithField(p, f, r.value.value);
        assert Distinct(fields[1..]) by {
          forall i, j | 0 <= i < j < |fields[1..]| ensures fields[1..][i] != fields[1..][j] {
            assert fields[1..][i] == fields[i + 1] && fields[1..][j] == fields[j + 1];
          }
        }
        assert f !in fields[1..] by {
          forall i | 0 <= i < |fields[1..]| ensures fields[1..][i] != f {
            assert fields[1..][i] == fields[i + 1];
          }
        }
        RenderFieldsSuccess(funcMap, q, fields[1..], engine);
        RenderFieldsOutcome(funcMap, q, fields[1..], engine);
        var t := RenderFields(funcMap, q, fields[1..], engine);
        if t.Done? && t.value.err.None? {
          forall g | g in fields ensures RenderedFrom(funcMap, p, t.value.profile, g, engine) {
            if g != f {
              assert g in fields[1..];
              assert FieldValue(q, g) == FieldValue(p, g);
            } else {
              assert FieldValue(t.value.profile, f) == FieldValue(q, f) == Some(r.value.value);
            }
          }
        }
      }
    }
  }

  /** An error stops RenderHTML at the first field the engine rejects. */
  lemma {:induction false} RenderFieldsFailure(funcMap: Option<Utils.FuncMap>, p: ProfileConfig, fields: seq<HtmlField>,
                                               engine: (Utils.FuncMap, Html) -> Result<Html>)
    requires Distinct(fields)
    ensures var r := RenderFields(funcMap, p, fields, engine);
            r.Done? && r.value.err.Some? ==>
              exists k :: FailedAt(funcMap, p, r.value, fields, k, engine)
    decreases |fields|
  {
    if |fields| > 0 {
      var r := Process(funcMap, FieldValue(p, fields[0]), engine);
      if r.Done? && r.value.Err? {
        assert FailedAt(funcMap, p, RenderFields(funcMap, p, fields, engine).value, fields, 0, engine);
      } else if r.Done? {
        var f := fields[0];
        var q := WithField(p, f, r.value.value);
        var rest := fields[1..];
        assert Distinct(rest) by {
          forall i, j | 0 <= i < j < |rest| ensures rest[i] != rest[j] {
            assert rest[i] == fields[i + 1] && rest[j] == fields[j + 1];
          }
        }
        assert forall i :: 0 <= i < |rest| ==> rest[i] == fields[i + 1] && rest[i] != f;
        RenderFieldsFailure(funcMap, q, rest, engine);
        RenderFieldsOutcome(funcMap, q, rest, engine);
        var t := RenderFields(funcMap, q, rest, engine);
        if t.Done? && t.value.err.Some? {
          var k' :| FailedAt(funcMap, q, t.value, rest, k', engine);
          assert f !in rest;
          assert FieldValue(t.value.profile, f) == Some(r.value.value);
          assert RenderedFrom(funcMap, p, t.value.profile, fields[0], engine);
          forall j | 1 <= j < k' + 1 ensures RenderedFrom(funcMap, p, t.value.profile, fields[j], engine) {
            assert RenderedFrom(funcMap, q, t.value.profile, rest[j - 1], engine);
          }
          forall j | k' + 1 <= j < |fields| ensures FieldValue(t.value.profile, fields[j]) == FieldValue(p, fields[j]) {
            assert FieldValue(t.value.profile, rest[j - 1]) == FieldValue(q, rest[j - 1]);
          }
          assert FailedAt(funcMap, p, t.value, fields, k' + 1, engine);
        }
      }
    }
  }

  /** RenderHTML stops before Init, with no field rendered, and on a nil
      field; once Init ran and every listed field is set it always
      finishes. */
  lemma {:induction false} RenderFieldsStops(funcMap: Option<Utils.FuncMap>, p: ProfileConfig, fields: seq<HtmlField>,
                                             engine: (Utils.FuncMap, Html) -> Result<Html>)
    ensures var r := RenderFields(funcMap, p, fields, engine);
            && (funcMap.None? && |fields| > 0 ==> r == Stopped(LogFatal(Utils.NotInitialized)))
            && (funcMap.Some? && r.Stopped? ==>
                  r.exit == Panic(NilDereference) && exists g :: g in fields && FieldValue(p, g).None?)
            && (funcMap.Some? && (forall g :: g in fields ==> FieldValue(p, g).Some?) ==> r.Done?)
    decreases |fields|
  {
    if |fields| > 0 && funcMap.Some? {
      var r := Process(funcMap, FieldValue(p, fields[0]), engine);
      if r.Done? && r.value.Ok? {
        var f := fields[0];
        var q := WithField(p, f, r.value.value);
        RenderFieldsStops(funcMap, q, fields[1..], engine);
        var t := RenderFields(funcMap, q, fields[1..], engine);
        if t.Stopped? {
          var g :| g in fields[1..] && FieldValue(q, g).None?;
          assert g in fields && g != f;
        }
        if forall g :: g in fields ==> FieldValue(p, g).Some? {
          forall g | g in fields[1..] ensures FieldValue(q, g).Some? {
            assert g in fields;
          }
        }
      }
    }
  }

  /** An explicit null for "brandimage" replaces the default image by a nil
      pointer, and RenderHTML then panics on it at once, after Init. */
  lemma NullBrandImagePanics(doc: ConfigDoc, funcMap: Utils.FuncMap, engine: (Utils.FuncMap, Html) -> Result<Html>)
    requires !HasBadAddress(doc) && doc.profile.Some? && doc.profile.value.brandImage.Null?
    ensures var p := Decode(Defaults(), doc).value.profile;
            && p.brandImage.None?
            && RenderFields(Some(funcMap), p, HtmlFields, engine) == Stopped(Panic(NilDereference))
  {
  }

  /** RenderHTML: passes each HTML field through ProcessHTMLContent and
      writes the result back, stopping at the first error. */
  method RenderHTML(t: Utils.Templates, p: ProfileConfig, engine: (Utils.FuncMap, Html) -> Result<Html>)
    returns (r: Run<Rendered>)
    ensures r == RenderFields(t.funcMap, p, HtmlFields, engine)
  {
    var cur := p;
    for i := 0 to |HtmlFields|
      invariant RenderFields(t.funcMap, cur, HtmlFields[i..], engine) == RenderFields(t.funcMap, p, HtmlFields, engine)
    {
      var f := HtmlFields[i];
      assert HtmlFields[i..][1..] == HtmlFields[i + 1..];
      var res := t.ProcessHTMLContent(FieldValue(cur, f), engine);
      assert res == Process(t.funcMap, FieldValue(cur, f), engine);
      if res.Stopped? {
        return Stopped(res.exit);
      }
      if res.value.Err? {
        return Done(Rendered(cur, Some(res.value.error)));
      }
      cur := WithField(cur, f, res.value.value);
    }
    return Done(Rendered(cur, None));
  }
}
