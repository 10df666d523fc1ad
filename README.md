# portfoli.go in Dafny

portfoli.go renders a personal portfolio site from YAML configuration and
HTML templates. It runs either as a dynamic server or as a static build
into a dist directory. This project models the rules at the core of the
program and proves properties of them:

- **Template helpers** (module `Utils`). The server base path is normalised
  so that it starts and ends in "/". The template function `Assemble` roots
  links below that base path. Rendering before `Init` ends the program.
- **Regex router** (`Handler`). Routes live in an ordered table. Each route
  keeps the base path that was in effect when it was registered. The first
  route whose pattern matches answers; otherwise the answer is 404.
- **Status messages** (`Messages`). A two-level table keyed by endpoint and
  kind, with a fixed HTTP code per message. The generic failure message
  is the fallback for any other pair, and the owner's mailto link is built in.
- **Content kinds** (`Content`, with `Dates`). There are five kinds, each
  with its YAML file name, element type and template. The validity check
  uses an unanchored regex. A kind renders to HTML fragments in element
  order, and the first error stops it. Experience entries render as cards.
- **Configuration** (`ModelConfig`). `Load` starts from the defaults, lays
  the YAML over them and rejects invalid content kinds. It enables the
  contact form only when all four SMTP settings are given. `Get` returns
  what `Load` stored. `RenderHTML` passes the profile's HTML fields through
  the template engine.
- **Application directories** (`AppConfig`). The default directories below
  /var/www/portfoli.go, their replacement by `SetPaths`, the derived
  template paths, and the pattern of templates a static build skips.
- **Image cache** (`Images`). The cache directory must lie inside the
  static directory. This module covers the public prefix it is served
  under, when a remote image is cached, and the cache file name: the hex
  SHA-1 of the URL plus an extension rule.
- **Server** (`Server`). The route table `StartServer` registers, and what
  each handler answers: template choice, content gating, contact-form
  gating, the mail flow, status pages, and the 500 that breaks a redirect
  loop on the status template.
- **Static build** (`Static`). Which files a build writes, in which order,
  with which template and data. Which errors end the build.

The supporting modules model the Go library behaviour the core relies on:
- `Outcomes`: Go-style `(value, error)` results, nil pointers, and a run
  that may end the process through log.Fatal or a panic.
- `Strs`: the `strings` helpers.
- `Paths`: the lexical `path/filepath` functions Clean, Join, Base, Ext,
  Rel and Abs, with the working directory as an input.
- `Regex`: the literal-alternation regexes the program compiles, matched
  unanchored as `regexp.MatchString` does.
- `Models`: the data every page template receives.

Foreign parts are inputs to the model:
- template parsing and execution;
- YAML decoding;
- SHA-1 and url.Parse;
- file-system results and form parsing;
- address parsing, sanitising and SMTP sending.

Package-level Go variables become fields of classes (`ConfigStore`,
`Templates`, `MessageTable`, `AppPaths`, `ImageCache`, `Server`, `Builder`).
The functions that change them become methods. Each method is proved equal
to a specification function, and the properties are lemmas about that
function.

The repository's files mix revisions. The model follows each function's
meaning, not its exact signature:
- `server/server.go:84` calls `messages.RoutingRegexString`, which
  `messages/messages.go:130` defines as `GetRoutingRegexString`.
- `models/content/content.go:170` passes the arguments of
  `RenderTemplate` in another order than `utils/utils.go:95-99` declares.
  The model uses the declared order: name, data, files.
- `models/content/certifications.go:18` names the kind getter
  `GetContentKind`, and `models/content/experience.go:41-55` uses
  `Elements`/`ConfigName`/`ContentType`.
- `GetContentType` in the model covers all of these names.
- `StartServer` and `Build` take their configuration from
  `models.LoadConfiguration`. The model takes it to be `config.Load` on the
  document found in the configuration directory.

## Model

| member | source | states |
|---|---|---|
| Utils.NormalizeBasePath | utils/utils.go:69-74 | the base path Init settles on is rooted and ends in "/" |
| Utils.NormalizeKeepsText | utils/utils.go:69-74 | Init adds at most one leading and one trailing "/"; the given text survives unchanged inside the result |
| Utils.NormalizeFixedPoints | utils/utils.go:69-74 | an already normalised base path such as "/app/" is kept; normalising twice equals normalising once; "" becomes "/" |
| Utils.Assemble | utils/utils.go:51-64 | an absolute URL (scheme and host) is returned unchanged; anything else yields a rooted path |
| Utils.AssembleIsCleanJoin | utils/utils.go:57-62 | below a rooted base path the result is the clean join of the base path and the path with one copy of the base stripped, and is lexically clean |
| Utils.AssembleStripsBaseOnce | utils/utils.go:57-58 | a path that already carries the base path assembles like the path without it, so the base is never doubled |
| Utils.AssembleKeepsAssembled | utils/utils.go:51-64 | with a base path Init produced, a clean path already below the base comes back unchanged: Assemble is idempotent on its own results |
| Utils.Title | utils/utils.go:78 | title-casing keeps the length, upper-cases the first letter and lower-cases the rest |
| Utils.Templates.constructor | utils/utils.go:45-47 | the function map starts nil |
| Utils.Templates.Init | utils/utils.go:67-81 | installs the function map for the normalised base path |
| Utils.Templates.AssembleFunc | utils/utils.go:79 | the installed Assemble yields a rooted path or the absolute URL it was given |
| Utils.Templates.RenderTemplate | utils/utils.go:95-119 | stops the program with the Init message exactly when no function map is installed (checkFuncsInitializedOrAbort); otherwise the engine's answer for the name, data and files |
| Utils.Templates.ProcessHTMLContent | utils/utils.go:124-139 | stops before Init; a nil HTML pointer is a panic; otherwise the engine's answer for the text |
| Handler.StripPrefix | handler/regexhandler.go:64 | an empty prefix hands the path on unchanged; otherwise the handler runs exactly when the path has the prefix, and prefix + handed path = request path |
| Handler.FirstMatch | handler/regexhandler.go:79-83 | the index found matches and no earlier route does; none is found exactly when no route matches |
| Handler.FirstMatchIsFirst | handler/regexhandler.go:79-83 | a matching route with no matching route before it is the one the router picks |
| Handler.MatchAllServesRoot | handler/regexhandler_test.go:25-37 | a lone ".*" route without base path serves GET "/" unchanged |
| Handler.PrefixMismatchIsNotFound | handler/regexhandler.go:74 | when the picked route's prefix is not on the path the answer is 404 although the pattern matched |
| Handler.Dispatched | handler/regexhandler.go:78-86 | specification of ServeHTTP: the first route whose pattern matches the full path answers through its stripped handler, and no match is 404; FirstMatch, FirstMatchIsFirst and PrefixMismatchIsNotFound state its cases |
| Handler.RegistrationExample | handler/regexhandler.go:54-76 | routes registered under "/app/" and then "/" keep their order and the stripped base path in effect when each was added ("/app", then "") |
| Handler.RegexHandler.constructor | handler/regexhandler.go:44-47 | no routes and an empty base path |
| Handler.RegexHandler.SetBasePath | handler/regexhandler.go:54-56 | the base path becomes the argument without one trailing "/" ("/" gives "", "/app/" gives "/app"); routes unchanged |
| Handler.RegexHandler.Handle | handler/regexhandler.go:58-66 | appends exactly one route, carrying the base path in effect now; earlier routes and the base path unchanged |
| Handler.RegexHandler.HandleFunc | handler/regexhandler.go:68-76 | the same for a handler function |
| Handler.RegexHandler.ServeHTTP | handler/regexhandler.go:78-86 | the first matching route in registration order is tested on the full request path and answers alone, with its prefix stripped; no match gives 404 |
| Messages.Mailto | messages/messages.go:67-72 | specification of the owner's mailto link (empty without an address); MailtoNamesAddress states its shape |
| Messages.Compiled | messages/messages.go:66-119 | specification of the table Compile builds; CompiledLookup, CompiledStatuses and FailureMessagesLinkOwner state what it holds |
| Messages.MailtoNamesAddress | messages/messages.go:67-72 | the mailto link starts with the mailto anchor and holds the address both as target and as text |
| Messages.Lookup | messages/messages.go:121-128 | Get yields the entry of a listed pair; any other pair falls back to fail/generic when the table has it, and otherwise to nil |
| Messages.CompiledLookup | messages/messages.go:73-128 | after Compile, Get never yields nil; exactly the listed pairs are in the table and get their own message; every other pair gets fail/generic |
| Messages.CompiledGet | messages/messages.go:121-128 | the message Get yields from the compiled table |
| Messages.CompiledStatuses | messages/messages.go:74-116 | status codes: success/contact 200, fail/address 400, fail/contact 500, fail/notfound 404, fail/generic 500; success/notfound falls back to fail/generic |
| Messages.FailureMessagesLinkOwner | messages/messages.go:93-116 | the contact and generic failure messages end in the mailto link (empty without an address) and contain the owner's address |
| Messages.GetRoutingRegexString | messages/messages.go:130-132 | the status route pattern is exactly "(success\|fail)" |
| Messages.MessageTable.constructor | messages/messages.go:64 | the table starts as the nil map |
| Messages.MessageTable.Compile | messages/messages.go:66-119 | installs the compiled table for the owner's address |
| Messages.MessageTable.Get | messages/messages.go:121-128 | answers as Lookup on the installed table |
| Dates.FormatDateRoundTrip | models/content/content.go:115 | the layout "2006-01-02" writes a date before year 10000 in ten characters that read back to the same date |
| Content.DateRange.GetFromDateAsStr | models/content/content.go:114-116 | the from date as YYYY-MM-DD, which reads back to the date; the card date range (models/content/card.go:80-82) follows the same rule |
| Content.DateRange.GetToDateAsStr | models/content/content.go:120-127 | a date is formatted as YYYY-MM-DD, a string is returned unchanged, anything else (also unset) gives "now"; the same for card date ranges (models/content/card.go:86-93) |
| Content.TemplateNames | models/content/project.go:57-59 | projects use "project.html", education entries "education.html" (education.go:32-34), certifications "certification.html" (certifications.go:30-32), experience entries their card template (experience.go:70-72); two elements share a template exactly when they are of the same kind |
| Content.Cast | models/content/content.go:181-187 | the cast list has the same length and the same elements in the same order |
| Content.Upcast | models/content/content.go:181-187 | castToContent, and likewise castToCard (models/content/card.go:97-103), fills the list index by index: same length, element i is the i-th input, which is the list Cast gives |
| Content.ProjectConfigGetters | models/content/project.go:38-48 | the kind is "projects" (the typeProject entry), the file "projects.yml", the elements are the projects in count and order, each with "project.html" |
| Content.EducationConfigGetters | models/content/education.go:10-20 | the kind is "education", the file "education.yml", the elements keep count and order |
| Content.CertificationConfigGetters | models/content/certifications.go:10-20 | the kind is "certifications", the file "certifications.yml", the elements keep count and order |
| Content.ExperienceConfigGetters | models/content/experience.go:41-55 | the kind is "experience", the file "experience.yml", the title is the kind, the cards keep count and order |
| Content.AboutMeConfigGetters | models/content/me.go:9-19 | the kind is "me", the file "me.yml", and there are no elements |
| Content.RegistryConsistent | models/content/content.go:58-66 | five distinct kinds, exactly these are mapped, and each mapped object reports its own kind and file name |
| Content.IsValidContentType | models/content/content.go:200-209 | a string is valid exactly when it contains one of the five kinds anywhere, as the regex is unanchored |
| Content.KindsAreValid | models/content/content.go:200-209 | every exact kind name is valid |
| Content.HomeIsValidButUnmapped | models/content/content.go:58-68 | "home" passes the check because it contains "me", yet has no mapping |
| Content.GetRoutingRegexString | models/content/content.go:160-162 | the pattern is "(" + the kinds in order joined by "\|" + ")" |
| Content.RenderAll | models/content/content.go:144-153 | succeeds exactly when every element renders, then with one fragment per element in order; otherwise fails with the first failing element's error |
| Content.RenderedContent | models/content/content.go:132-156 | specification of GetRenderedContent: the mapped kind is loaded, its elements rendered in order through RenderTemplate (which ends the program at the first element while no function map is installed), and the title-cased kind attached; RenderedContentOutcome states its cases |
| Content.RenderedContentOutcome | models/content/content.go:132-156 | a kind without mapping stops the program (nil interface); a loaded kind with elements ends it through log.Fatal exactly when no function map is installed; the result is Ok exactly when loading and every element's rendering succeed; then one fragment per element in order under the title-cased kind |
| Content.RenderedMe | models/content/content.go:144-155 | "me" renders to no fragments, titled "Me", whether or not Init has run, since no template is rendered |
| Content.MeIsMapped | models/content/content.go:65 | "me" maps to the empty about-me configuration |
| Content.TitleOfMe | models/content/content.go:154 | the title-cased "me" is "Me" |
| Content.GetRenderedContent | models/content/content.go:132-176 | the method, rendering each element with RenderTemplate on the package function map, answers what RenderedContent states |
| Content.RenderEach | models/content/content.go:145-153 | the append loop with early return, here and in renderCards (models/content/card.go:123-130): before Init the first element ends the program and an empty list renders to nothing; after Init it answers as RenderAll |
| Content.RenderedCards | models/content/card.go:120-149 | specification of renderCards: the end of the program while no function map is installed, otherwise the cards rendered in order, then the cards template on them; RenderedCardsOutcome states its cases |
| Content.RenderedCardsOutcome | models/content/card.go:120-149 | the program ends through log.Fatal exactly when no function map is installed (at the first card, or at the wrapper); otherwise a failing card's error is the answer, and no later card matters, or the wrapper gets one fragment per card, in order, under the card type |
| Content.RenderCards | models/content/card.go:107-149 | the method, rendering cards and wrapper with RenderTemplate on the package function map, answers what RenderedCards states |
| Content.ExperienceRender | models/content/experience.go:57-59 | Render is renderCards with card type "experience" on the package function map |
| ModelConfig.Decode | models/config/config.go:129-138 | specification of the YAML decoding into the defaults: given keys replace, absent keys keep their value, an explicit null on a pointer key makes it nil, a bad address ends the program (models/config/mail.go:90-98); DecodeKeepsDefaults, DecodeRejectsBadAddress and NullBrandImagePanics state its cases |
| ModelConfig.PointerOf | models/config/config.go:70-84 | decoding into a pointer field: an absent key keeps the pointer, a null makes it nil, a value gives a pointer to it |
| ModelConfig.BadAddressText | models/config/mail.go:90-93 | the text logged is the raw value of an address that does not parse: the profile's when that one is bad, else the SMTP user's |
| ModelConfig.DecodeRejectsBadAddress | models/config/mail.go:90-98 | decoding stops exactly when an address does not parse, through log.Fatalf with "[ERROR]: Invalid profile email address " followed by that address's text |
| ModelConfig.Loading | models/config/config.go:127-163 | specification of Load: decoding, the kind check and the SMTP check in that order, with the config it stores; LoadRejectsInvalidKinds, LoadGatesContactForm and LoadPanicsWithoutSMTP state its cases |
| ModelConfig.DecodeKeepsDefaults | models/config/config.go:129-138 | when the document leaves them out, the brand name "Portfoli.go" and the default brand image remain, and there is no SMTP section |
| ModelConfig.FirstInvalidKind | models/config/config.go:142-146 | the first configured kind failing the check, with all earlier kinds valid; none exactly when every kind is valid |
| ModelConfig.FirstZeroField | models/config/config.go:151-161 | the first SMTP field holding its zero value, in the order user, pass, host, port; none exactly when all four are set |
| ModelConfig.LoadRejectsInvalidKinds | models/config/config.go:142-146 | an invalid kind is reported, whatever the SMTP section says, exactly when one is configured, with no config and the first invalid kind |
| ModelConfig.LoadGatesContactForm | models/config/config.go:148-162 | a returned config is the stored one; the contact form is on exactly when all four SMTP settings are set; otherwise the error is ErrInvalidSMTPConfig |
| ModelConfig.LoadPanicsWithoutSMTP | models/config/config.go:151 | with valid kinds and no smtp section, Load dereferences a nil pointer |
| ModelConfig.ConfigStore.constructor | models/config/config.go:57-59 | no config is stored |
| ModelConfig.ConfigStore.Load | models/config/config.go:127-163 | the result and the stored config are those Loading states; a nil error or ErrInvalidSMTPConfig comes with a config |
| ModelConfig.Checked | models/config/config.go:142-163 | specification of the checks Load makes after decoding: the kinds, then the SMTP fields; the Load lemmas state its cases |
| ModelConfig.ConfigStore.Check | models/config/config.go:142-163 | the two check loops answer, and leave the stored config, as Checked states |
| ModelConfig.ConfigStore.Get | models/config/config.go:166-171 | the stored config; before any Load the program ends through log.Fatal |
| ModelConfig.WithField | models/config/config.go:109 | writing a field sets that field and leaves the others |
| ModelConfig.RenderFields | models/config/config.go:100-113 | specification of RenderHTML over a list of fields: each field is processed in turn and written back, and the first error or stop ends it; the four lemmas below state its cases |
| ModelConfig.RenderFieldsOutcome | models/config/config.go:100-113 | fields outside the list keep their value; no profile field other than the HTML ones changes; without error every listed field is set |
| ModelConfig.RenderFieldsSuccess | models/config/config.go:102-109 | without error, each of the distinct listed fields holds the engine's rendering of its original value |
| ModelConfig.RenderFieldsFailure | models/config/config.go:104-108 | an error is the engine's error on some field of the distinct list; the fields before it hold their renderings, and it and later fields keep their original value |
| ModelConfig.NullBrandImagePanics | models/config/config.go:135 | an explicit null "brandimage" replaces the default image by nil, and RenderHTML after Init then panics on it (ProcessHTMLContent dereferences it, utils/utils.go:126) |
| ModelConfig.RenderFieldsStops | models/config/config.go:104 | before Init the program stops with the Init message; after Init it stops only on a nil field (a panic), and with every listed field set it always finishes |
| ModelConfig.RenderHTML | models/config/config.go:100-113 | the loop answers as RenderFields on the three distinct HTML fields in declaration order (brand image, heading, subheading), so what the RenderFields lemmas state holds of it |
| AppConfig.WwwDirValue | config/config.go:48 | the installation directory is "/var/www/portfoli.go" |
| AppConfig.WwwDirIsAbsolute | config/config.go:48 | the installation directory is absolute |
| AppConfig.DefaultDirectories | config/config.go:50-52 | the defaults are /var/www/portfoli.go/templates, /public and /dist |
| AppConfig.ConvertToAbsPath | config/config.go:57-63 | an absolute argument is cleaned, a relative one is joined to the working directory, and the program ends when that is not available; results are absolute and clean |
| AppConfig.ChosenDirectory | config/config.go:68-81 | a nil argument keeps the current directory, any other is made absolute; every chosen directory is absolute and clean |
| AppConfig.AppPaths.constructor | config/config.go:47-53 | the three directories are the installation directory joined with templates, public and dist |
| AppConfig.AppPaths.SetPaths | config/config.go:68-81 | exactly the directories with a non-nil argument change, in order templates, static, dist; a failing conversion ends the program with the later directories unchanged |
| AppConfig.AppPaths.HTMLTemplatesPath | config/config.go:97-99 | templatesDir/html |
| AppConfig.AppPaths.BaseTemplatePath | config/config.go:102-104 | templatesDir/html/base.html |
| AppConfig.AppPaths.MailTemplatePath | config/config.go:107-109 | templatesDir/mail/mail.html |
| AppConfig.AppPaths.ContentTemplatesPath | config/config.go:113-115 | templatesDir/html/content |
| AppConfig.AppPaths.TemplatesPath | config/config.go:118-120 | the templates directory, absolute and clean |
| AppConfig.AppPaths.StaticContentPath | config/config.go:124-126 | the static directory, absolute and clean |
| AppConfig.AppPaths.DistDir | config/config.go:129-131 | the dist directory, absolute and clean |
| AppConfig.StaticIgnoreRegex | config/config.go:85-94 | the pattern text is "(base\|content\|status\|contact)" |
| AppConfig.StaticIgnoreMatches | config/config.go:85-94 | a name is skipped exactly when it contains "base", "content", "status" or "contact" anywhere |
| Images.Configuration | utils/images.go:55-102 | specification of SetImageCacheConfig: the three variables and the error it leaves; ConfigurationRefusals, ConfigurationPlacesCache and ConfigurationValid state its cases |
| Images.CachedImage | utils/images.go:105-129 | specification of MaybeCacheImage; CachedImageOutcome states its cases |
| Images.CacheFileName | utils/images.go:132-139 | specification of cacheFileName; CacheFileNameShape, CacheFileNamesDiffer and CacheFileNameIsElement state its properties |
| Images.HexEncode | utils/images.go:138 | two lowercase hex digits per byte |
| Images.HexRoundTrip | utils/images.go:138 | decoding the hex text gives the digest back, so the text determines the digest |
| Images.CacheFileNameShape | utils/images.go:132-139 | the name is the 40 hex digits of the SHA-1, then the URL path's extension when it is non-empty and at most 8 bytes, else ".img" |
| Images.CacheFileNamesDiffer | utils/images.go:132-139 | URLs with different digests get different cache files |
| Images.CacheFileNameIsElement | utils/images.go:117-119 | a cache file name is one plain path element, so it lands directly in the cache directory |
| Images.ConfigurationRefusals | utils/images.go:55-69 | disabling resets directory and prefix without error; an absolute directory is refused and disables the cache |
| Images.DefaultCacheDirIsJoin | utils/images.go:63-65 | the default cache directory is "img/cache", a relative path |
| Images.InsideRel | utils/images.go:78-90 | Rel between absolute paths succeeds; it climbs out exactly when the target is not inside the directory, is "." for the directory itself, and is a plain relative path otherwise |
| Images.PublicPrefixBelow | utils/images.go:89 | "/static" joined with a plain relative path is "/static/" + that path |
| Images.ConfigurationPlacesCache | utils/images.go:71-101 | for a relative directory the cache is enabled exactly when it lies inside the static directory; then the prefix is "/static" for the static directory itself and "/static/" + the path below otherwise; the only later errors are clearing and creating |
| Images.ConfigurationValid | utils/images.go:83-92 | whenever a cache directory is set, the public prefix is absolute, clean and not "/" |
| Images.ImageCache.constructor | utils/images.go:48-52 | caching off, no directory, no prefix |
| Images.ImageCache.SetImageCacheConfig | utils/images.go:55-102 | the three variables and the error are those Configuration states, and a set directory comes with a valid prefix |
| Images.ImageCache.MaybeCacheImage | utils/images.go:105-129 | the answer is what CachedImage states for the current state |
| Images.CachedImageOutcome | utils/images.go:105-129 | the image is returned unchanged when caching is off, the URL lacks a scheme or host, or no directory is set; otherwise the answer is prefix + "/" + cache file name exactly when the file exists or downloads, else the image |
| Server.RouteTable | server/server.go:78-86 | specification of the six routes StartServer registers, in order, each with the base path in effect; SomeRouteMatches, StatusRouteServesFail and RawFailIsGeneric state its properties |
| Server.Answer | server/server.go:78-86 | specification of a request's answer: the router's pick on the route table, with the picked handler's response; RawBaseFailRedirectLoops and FailRedirectReachesStatus state properties of it |
| Server.ServedGeneric | server/server.go:96-102 | specification of serveGeneric; GenericTemplateOfRoot and GenericTemplateOfPage state its template choice |
| Server.ServedContent | server/server.go:115-131 | specification of serveContent; ServedContentOutcome states its cases |
| Server.SentMail | server/server.go:133-184 | specification of sendMail, including the nil SMTP section, SMTP user (models/config/mail.go:70) or owner address that panics before sending; SentMailOutcome states its cases |
| Server.ServedStatus | server/server.go:186-196 | specification of serveStatus; StatusNeverRedirects states its answers |
| Server.Abort | server/server.go:198-211 | specification of abortWithStatusTplCheck: a bare 500 for the status template, the fail/generic redirect otherwise |
| Server.SentTemplate | server/server.go:213-246 | specification of sendTemplate: contact gating, the template stat, the Init check and the rendering; SentTemplateOutcome and ContactRefusedWhenDisabled state its cases |
| Server.SrvBasePathAsWritten | server/server.go:71 | the redirect base path as StartServer sets it: the argument unchanged |
| Server.SomeRouteMatches | server/server.go:81-86 | the ".*" route comes last, so some route always matches |
| Server.PageCode | server/server.go:241-243 | the supplied status is written when it is at least 100, otherwise the page goes out with 200 |
| Server.RedirectUrlShape | server/server.go:248-254 | a redirect location starts with base path + endpoint + "?kind=" and ends with "?kind=" + kind |
| Server.RedirectUrls | server/server.go:248-254 | fail and success redirect with 303 to base path + endpoint + "?kind=" + kind |
| Server.ContactRefusedWhenDisabled | server/server.go:215-219 | with the contact form off, the contact template is answered with the fail/notfound redirect |
| Server.SentTemplateOutcome | server/server.go:198-246 | a stat error other than a missing file is a nil dereference (FileInfo.IsDir on nil); a missing template, a directory or a failing render answers a bare 500 for the status template and the fail/generic redirect for any other; a rendered page carries PageCode's status |
| Server.TemplateFileInDirectory | server/server.go:221 | a template name without separator names a file directly in the html template directory |
| Server.GenericTemplateOfRoot | server/server.go:96-102 | "/" and "" use the template "index" |
| Server.GenericTemplateOfPage | server/server.go:96-102 | "/w" and "w" use the template w (the last path element) |
| Server.ServedContentOutcome | server/server.go:115-131 | once Init has installed the function map: a kind that is not configured redirects to fail/notfound, a load or render error to fail/generic, a rendered kind is sent with the content template; it stops for a configured kind without mapping, and otherwise only when the content template cannot be stat'ed |
| Server.ContentBeforeInitStops | models/content/content.go:170 | before Init, a configured kind whose configuration has elements ends the program (utils.RenderTemplate's log.Fatal) instead of redirecting |
| Server.SentMailOutcome | server/server.go:133-184 | non-POST goes to /contact; an unreadable form or a send error to fail/contact; a bad address to fail/address; a parsed address with a nil SMTP section, SMTP user or owner address is a panic; otherwise a sent mail goes to success/contact |
| Server.NilUserPanics | models/config/mail.go:70 | with the SMTP user missing, which Load tolerates, a POST with a parseable address panics instead of sending |
| Server.CompiledHasFallback | messages/messages.go:109-116 | the compiled table has the fail/generic message |
| Server.StatusNeverRedirects | server/server.go:186-196 | with the fallback in place the status handler answers a page with the message's status or a bare 500, never a redirect; it stops exactly when the status template cannot be stat'ed |
| Server.SrvBasePath | server/server.go:71 | the corrected base path of the redirects is rooted and ends in "/" |
| Server.NormalizedIsStripped | handler/regexhandler.go:55 | a rooted or empty base path, normalised, is the router's stripped prefix followed by "/" |
| Server.StatusRouteServesFail | server/server.go:84 | the status route serves strip + "/fail" and hands on "/fail" when no earlier route matches |
| Server.RawFailIsGeneric | server/server.go:81-86 | a one-segment base path such as "/app" followed by "fail" is caught only by the ".*" route, which hands on "fail" |
| Server.RawBaseFailRedirectLoops | server/server.go:248-250 | with the base path as given, a failure under "/app" redirects to a URL whose answer is the same failure redirect |
| Server.AppBaseLoops | server/server.go:71 | "/app" is such a base path, and its fail location is "/appfail?kind=" + kind |
| Server.FailRedirectReachesStatus | server/server.go:248-250 | with the normalised base path, the fail location reaches the status handler, which answers a page or a bare 500 (or stops when the status template cannot be stat'ed) |
| Server.Register | server/server.go:78-86 | the router holds the six routes in order, each stripping the base path set first |
| Server.Server.constructor | server/server.go:54-57 | no config, an empty base path and an empty router |
| Server.Server.LoadConfig | server/server.go:62-69 | a stop while loading ends the program; an error other than ErrInvalidSMTPConfig ends it through log.Fatal; the program goes on exactly when the error is nil or ErrInvalidSMTPConfig, and then keeps the loaded config; in every case config.Load's package variable holds what Load stored |
| Server.Server.Setup | server/server.go:71-86 | sets the redirect base path to the argument as given, runs Init with it, panics exactly when there is no owner address, and otherwise compiles the messages and registers the routes |
| Server.Server.StartServer | server/server.go:60-94 | up to ListenAndServe the program goes on exactly when the load is tolerated and the owner address is set; a tolerated load without address panics; config.Load's package variable holds what Load stored; then the base path is kept as given, the templates, messages and routes are installed |
| Server.Server.IsContentEnabled | server/server.go:104-113 | true exactly when the requested name equals one of the configured kinds |
| Server.Server.SanitizeForm | server/server.go:146-158 | the form holds exactly name, email and message, each the sanitised posted value |
| Server.Server.SendTemplate | server/server.go:213-246 | answers as SentTemplate on the current state |
| Server.Server.ServeGeneric | server/server.go:96-102 | answers as ServedGeneric |
| Server.Server.ServeContent | server/server.go:115-131 | answers as ServedContent |
| Server.Server.SendMail | server/server.go:133-184 | answers as SentMail, nil-user panic included |
| Server.Server.ServeStatus | server/server.go:186-196 | answers as ServedStatus: the message of the last path element and the kind, sent with its status code |
| Server.Server.ServeHTTP | server/server.go:78-86 | the router picks the route and its handler answers the stripped request |
| Static.Planned | static/static.go:53-67 | specification of Build: the config load, the owner-address and Init checks, then the stages; ConfigErrors, CompletedBuild and CompletedConfigured state its outcomes |
| Static.Pages | static/static.go:64-66 | specification of the three stages, each run only after the previous one went through; Then and PagesInOrder state its order |
| Static.GenericTasks | static/static.go:76-86 | specification of the templates buildGeneric builds; GenericTasksExactly and GenericTasksAppend state which and in what order |
| Static.Produced | static/static.go:116-146 | specification of build: render, then write to the dist directory; ProducedIsFaithful states what a written page is |
| Static.ProducedIsFaithful | static/static.go:116-146 | a written page renders its own template with the profile and the contact form off, lands in the dist directory under its output name, and keeps the task's names and data |
| Static.StepsOutcome | static/static.go:90-102 | a loop of build calls either goes through, writing one file per step in order, or stops at the first failing step with the files written before it |
| Static.Then | static/static.go:64-66 | a later stage runs only after the earlier one went through, and its files follow the earlier ones |
| Static.GenericTasksExactly | static/static.go:76-86 | buildGeneric builds exactly the listed templates the ignore pattern lets through, each to a file of its own name, without data |
| Static.GenericTasksAppend | static/static.go:76-86 | the generic builds follow the listing's order |
| Static.PagesAreFaithful | static/static.go:124-143 | every file a build writes, even one that stops early, is faithful to its task |
| Static.GenericWritten | static/static.go:76-86 | a generic stage that goes through writes one page per template built, each with its own name and no data |
| Static.ContentWritten | static/static.go:90-102 | a content stage that goes through writes content.html as kind.html for each configured kind, in configuration order |
| Static.ErrorWritten | static/static.go:105-112 | an error stage that goes through writes one page, the status template with the fail/notfound message under its status code |
| Static.PagesInOrder | static/static.go:64-66 | a finished build writes the generic pages, then the content pages, then the error page |
| Static.ErrorPageIsNotFound | static/static.go:106-111 | the error page is "404.html" |
| Static.ConfigErrors | static/static.go:56-59 | a configuration error other than ErrInvalidSMTPConfig ends the build before anything is written; an incomplete SMTP section builds exactly as a complete one |
| Static.CompletedConfigured | static/static.go:61-66 | a finished build of a configuration writes the complete site: the three stages in order, ending in 404.html, all faithful |
| Static.CompletedBuild | static/static.go:53-67 | a finished build had a configuration with the owner's address and a listing, and wrote the complete site |
| Static.Builder.constructor | static/static.go:48-50 | no config and no files written |
| Static.Builder.BuildPage | static/static.go:116-146 | a page that renders and writes is recorded; otherwise the program ends with the render or write message |
| Static.Builder.BuildGeneric | static/static.go:70-87 | the loop ends as GenericPages states and records exactly its files |
| Static.Builder.BuildContent | static/static.go:90-102 | the loop ends as the content steps over the configured kinds state and records exactly their files |
| Static.Builder.BuildKind | static/static.go:91-101 | one kind: the content render's stop or error ends the program, otherwise its page is built |
| Static.Builder.BuildErrors | static/static.go:105-112 | ends as ErrorPages states for the installed messages |
| Static.Builder.Build | static/static.go:53-67 | the build ends as Planned states on the directories read at its start and records exactly its files; the stored config is what Load stores; a build that goes through leaves installed the loaded config with the owner's address, Init's template functions for the base path and the compiled messages |
| Static.Builder.Start | static/static.go:56-59 | from what Load returned, as FromLoaded states; going on means a tolerated load and the installed state Build states |
| Static.Builder.Initialise | static/static.go:61-62 | keeps the config, runs Init for the base path, panics without an owner address, and otherwise compiles the messages and builds as Configured states |
| Static.Builder.BuildConfigured | static/static.go:62-66 | installs the compiled messages for the owner's address, then builds as Configured states |
| Static.Builder.BuildStages | static/static.go:64-66 | the three stages, each only after the previous went through, as Pages states |
| Paths.Join | utils/utils.go:58 | filepath.Join is empty exactly when all elements are, and is clean otherwise |
| Paths.CleanIdempotent | utils/utils.go:58 | cleaning a clean path changes nothing |
| Paths.Abs | config/config.go:58 | filepath.Abs cleans an absolute path and joins a relative one to the working directory; its results are absolute and clean |
| Paths.RelOfAbsolute | utils/images.go:78 | filepath.Rel of two absolute clean paths succeeds, climbing out exactly when the target is not below the base |
| Paths.BaseOfChild | server/server.go:99 | filepath.Base of prefix + "/" + name is name |
| Paths.Ext | utils/images.go:134 | the extension is empty or a dot-led suffix without separator or further dot; it is empty only when the last element has no dot |
| Strs.TrimSuffix | handler/regexhandler.go:55 | strings.TrimSuffix removes the suffix once when present and otherwise keeps the text |
| Strs.ItoaInjective | static/static.go:109 | different status codes give different file names |
| Regex.DotFreeGroup | models/content/content.go:204 | an unanchored alternation without '.' matches exactly the strings containing one of its alternatives |

## Left out

- HTTP serving: ListenAndServe, http.FileServer, and the internals of http.StripPrefix and http.Redirect. A response is a value (`Server.Response`), and the two file-server routes answer with the file path they would serve. These are library plumbing.
- Concurrency: Go serves requests concurrently. The model handles one request at a time over a fixed state, which is all the handlers do, as they only read the package state.
- Template parsing, execution and gohtml pretty-printing are a function that may fail. They are foreign library code.
- YAML decoding is modelled by which keys a document gives (`ModelConfig.ConfigDoc`). The file reads are left out, and so are the YAML loading helpers of models/utils/utils.go.
- Mail: gomail sending, net/mail.ParseAddress, the YAML e-mail decoding and bluemonday sanitising are inputs. They are foreign code.
- Image download (`downloadImage`), os.Stat, os.RemoveAll and os.MkdirAll: their results are inputs. They are network and file-system I/O. For the template check, os.Stat reports one of four outcomes (`Server.FileStat`): a file, a directory, nothing there, or another error.
- SHA-1 (FIPS 180-4) is an input function that returns 20 bytes. Only the hex encoding and the extension rule are modelled.
- url.Parse and url.ParseRequestURI are an input function. Only the scheme and host they report are used.
- Logging: log.Printf lines are left out. log.Fatal and panics appear as a stopped run with their message.
- The command line (portfoli.go). It also passes an image-cache argument that Build and StartServer as shown do not take, so where SetImageCacheConfig is called from is not modelled.
- The browser scripts under public/js and static/js are browser UI.
- The earlier snapshots are superseded and clash with the core. They are portfolio.go, the models/*.go files directly under models/, and server/messages.go.
- models/content/about.go redeclares the about-me configuration and uses an undefined constant. The model follows models/content/me.go.
- Output file permissions (0664) and the contents of the written files, beyond the rendering they hold.
- Static.Builder.BuildGeneric: the template listing is an input. buildGeneric reads the relative directory "templates/html" (static/static.go:71) while pages render from HTMLTemplatesPath, and the model does not tie the two.
- Static.Builder.Build: the directory getters are read once per build, since nothing in a build changes them.
- Utils.Title: ASCII letters of a single word only. cases.Title also handles several words and non-ASCII letters.
- Content.DateRange.GetFromDateAsStr: the round trip is stated for years 0 to 9999 only. Negative years are not representable, and days are not checked against the month.
- ModelConfig.Decode: an explicit YAML null is modelled for the three HTML pointer keys only. For "email" and "smtp" a null and an absent key give the same nil, because the defaults leave both nil and the file is decoded once.
- ModelConfig.ConfigStore.Load: on a YAML error the stored config is the defaults. In Go it may hold a partly decoded value. A "profile" key explicitly set to null, which would make Load dereference nil, is not modelled.
- ModelConfig.ConfigStore.Load: an owner address that is set but has a nil inner address pointer is not modelled. Decoding either yields a parsed address or ends the program.
- Images.ImageCache.SetImageCacheConfig: filepath.Abs of the joined directory and filepath.Rel between two absolute paths cannot fail, so their error branches are left out.
- Content.GetRenderedContent: each load decodes into a fresh, empty configuration of the kind. Go keeps one shared object per kind in contentMappings and decodes into it in place, so a later load can still see keys from an earlier one, or a partly decoded value after an error. The model does not capture that shared state.
- ModelConfig.BadAddressText: when both the profile address and the SMTP user fail to parse, which one yaml.v3 reaches first depends on the order of the keys in the document. The model reports the profile's.
- Server.Server.SendMail: a non-POST request redirects to "/contact" without the base path, as written. This is modelled but not corrected.

## Findings

| source | as written | input that shows it | evidently intended | confidence | as-written member | corrected member |
|---|---|---|---|---|---|---|
| server/server.go:71 | `srvBasePath` is the base path as given. Only utils.Init's copy gets the trailing "/". | Base path "/app" and a request that fails. fail redirects to "/appfail?kind=…", which only the ".*" route matches. That route strips "/app", and serveGeneric looks for a "fail" template. When there is none, the answer is the same redirect again. | The redirect base path normalised like Init's ("/app/"), so that the failure goes to "/app/fail" and the status handler answers it | medium; not executed | Server.RawBaseFailRedirectLoops | Server.FailRedirectReachesStatus |

The `Server` class follows the code as written: `Setup` keeps the base path
as given (`SrvBasePathAsWritten`). The corrected base path is
`SrvBasePath`, and `FailRedirectReachesStatus` proves what it achieves.
