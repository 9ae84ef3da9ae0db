/**
 * The deterministic half of the AI service (`aiService`): the navigation and footer
 * data built from the page list, the contact and gallery data, the per-page rules of
 * `enrichSpecifications`, the flattening of the generated code into files, the summary
 * and the fallback specification. The language-model replies are parameters: `None`
 * stands for a call or a parse that failed.
 */
module Content {
  import opened Wrappers
  import opened Strings
  import opened Template
  import opened Generator

  // ---------------------------------------------------------------- links

  /** The `href` of a page's link: the site root for the index page, `/<name>` otherwise. */
  function LinkHref(name: string): (h: string)
    ensures |h| >= 1 && h[0] == '/'
    ensures name != "index" ==> h[1..] == name
    ensures h == "/" <==> name == "index" || name == ""
  {
    if name == "index" then "/" else "/" + name
  }

  /** The link of one page: its title as text. */
  function LinkRecord(p: Page): Record
  {
    Record([Entry("text", Str(p.title)), Entry("href", Str(LinkHref(p.name)))])
  }

  /** `specs.pages.map(page => ({ text, href }))`. */
  function Links(pages: seq<Page>): (ls: seq<Record>)
    ensures |ls| == |pages|
  {
    seq(|pages|, i requires 0 <= i < |pages| => LinkRecord(pages[i]))
  }

  /** `generateNavData(specs)`. */
  function NavData(specs: Specs): Record
  {
    Record([Entry("siteName", Str(specs.siteName)), Entry("navLinks", List(Links(specs.pages)))])
  }

  /** `generateFooterData(specs)`; `year` is the current year the clock supplies. */
  function FooterData(specs: Specs, year: int): Record
  {
    Record([
      Entry("siteName", Str(specs.siteName)),
      Entry("description", Str(specs.siteName + " - Your trusted partner in " + specs.industry)),
      Entry("links", List(Links(specs.pages))),
      Entry("contact", Obj(Record([Entry("email", Str("contact@example.com")), Entry("phone", Str("+1 (555) 123-4567"))]))),
      Entry("year", Num(year))])
  }

  /**
   * The navigation and the footer carry the same links: one per page, in page order,
   * with the page's title as text and the root for the index page.
   */
  lemma {:induction false} NavFooterLinks(specs: Specs, year: int)
    ensures Lookup(NavData(specs).entries, "navLinks") == Lookup(FooterData(specs, year).entries, "links")
    ensures Lookup(NavData(specs).entries, "navLinks") == Some(List(Links(specs.pages)))
    ensures forall i :: 0 <= i < |specs.pages| ==>
      Lookup(Links(specs.pages)[i].entries, "text") == Some(Str(specs.pages[i].title)) &&
      Lookup(Links(specs.pages)[i].entries, "href") == Some(Str(LinkHref(specs.pages[i].name)))
  {
    var nav := NavData(specs).entries;
    var footer := FooterData(specs, year).entries;
    assert nav[1].key == "navLinks";
    assert footer[2].key == "links";
  }

  /**
   * The footer's contact details sit in a nested object, so no top-level key is
   * `contact.email` or `contact.phone`: the footer's `{{contact.email}}` and
   * `{{contact.phone}}` tokens find nothing to replace them.
   */
  lemma {:induction false} FooterNoDottedKeys(specs: Specs, year: int)
    ensures Lookup(FooterData(specs, year).entries, "contact.email").None?
    ensures Lookup(FooterData(specs, year).entries, "contact.phone").None?
    ensures Lookup(FooterData(specs, year).entries, "contact").Some?
  {
    var es := FooterData(specs, year).entries;
    assert |es[0].key| == 8 && |es[1].key| == 11 && |es[2].key| == 5 && |es[3].key| == 7 && |es[4].key| == 4;
    assert |"contact.email"| == 13 && |"contact.phone"| == 13;
    forall i | 0 <= i < |es| ensures es[i].key != "contact.email" && es[i].key != "contact.phone" {
      assert |es[i].key| < 13;
    }
    assert es[3].key == "contact";
  }

  /** The navigation and footer records are plain objects: no key appears twice. */
  lemma {:induction false} NavFooterKeysDistinct(specs: Specs, year: int)
    ensures DistinctKeys(FooterData(specs, year).entries) && DistinctKeys(NavData(specs).entries)
  {
    var es := FooterData(specs, year).entries;
    assert |es[0].key| == 8 && |es[1].key| == 11 && |es[2].key| == 5 && |es[3].key| == 7 && |es[4].key| == 4;
    var ns := NavData(specs).entries;
    assert ns[0].key[0] == 's' && ns[1].key[0] == 'n';
  }

  // ---------------------------------------------------------------- contact and gallery

  /** `generateContactData`: fixed text, whatever the specification. */
  const ContactData: Record := Record([
    Entry("title", Str("Get In Touch")),
    Entry("subtitle", Str("Have questions? Send us a message and we'll respond as soon as possible."))])

  const ImageCount: nat := 6

  const GalleryUrl: string := "https://via.placeholder.com/400x300?text=Gallery+Image+"

  /** The `i`-th image of the gallery, numbered in its url, its alt text and its caption. */
  function GalleryImage(industry: string, i: nat): Record
  {
    Record([
      Entry("url", Str(GalleryUrl + NatToString(i))),
      Entry("alt", Str("Gallery image " + NatToString(i))),
      Entry("caption", Str(industry + " showcase " + NatToString(i)))])
  }

  /** The images 1 to `n`, in order. */
  function GalleryImages(industry: string, n: nat): (images: seq<Record>)
    ensures |images| == n
  {
    seq(n, k requires 0 <= k < n => GalleryImage(industry, k + 1))
  }

  /** `generateGalleryData(specs)`. */
  function GalleryData(specs: Specs): Record
  {
    Record([Entry("title", Str("Our Gallery")), Entry("images", List(GalleryImages(specs.industry, ImageCount)))])
  }

  /** The counted loop of `generateGalleryData`, pushing one image per turn. */
  method GenerateGalleryData(specs: Specs) returns (data: Record)
    ensures data == GalleryData(specs)
  {
    var images: seq<Record> := [];
    var i := 1;
    while i <= ImageCount
      invariant 1 <= i <= ImageCount + 1
      invariant images == GalleryImages(specs.industry, i - 1)
    {
      images := images + [GalleryImage(specs.industry, i)];
      i := i + 1;
    }
    data := Record([Entry("title", Str("Our Gallery")), Entry("images", List(images))]);
  }

  /**
   * The gallery has exactly six images, the `k`-th numbered `k` in its url, alt text and
   * caption.
   */
  lemma {:induction false} GalleryNumbered(specs: Specs)
    ensures Lookup(GalleryData(specs).entries, "images") == Some(List(GalleryImages(specs.industry, 6)))
    ensures forall k :: 1 <= k <= 6 ==>
      Lookup(GalleryImages(specs.industry, 6)[k - 1].entries, "url") == Some(Str(GalleryUrl + NatToString(k))) &&
      Lookup(GalleryImages(specs.industry, 6)[k - 1].entries, "alt") == Some(Str("Gallery image " + NatToString(k))) &&
      Lookup(GalleryImages(specs.industry, 6)[k - 1].entries, "caption") == Some(Str(specs.industry + " showcase " + NatToString(k)))
  {
    var images := GalleryImages(specs.industry, 6);
    forall k | 1 <= k <= 6
      ensures Lookup(images[k - 1].entries, "url") == Some(Str(GalleryUrl + NatToString(k)))
      ensures Lookup(images[k - 1].entries, "alt") == Some(Str("Gallery image " + NatToString(k)))
      ensures Lookup(images[k - 1].entries, "caption") == Some(Str(specs.industry + " showcase " + NatToString(k)))
    {
      var es := images[k - 1].entries;
      assert es == GalleryImage(specs.industry, k).entries;
      assert es[0].key == "url" && es[1].key == "alt" && es[2].key == "caption";
      assert es[1..][1..] == [es[2]];
    }
  }

  /** No two images of the gallery are alike. */
  lemma {:induction false} GalleryDistinct(specs: Specs)
    ensures forall j, k :: 0 <= j < k < 6 ==> GalleryImages(specs.industry, 6)[j] != GalleryImages(specs.industry, 6)[k]
  {
    var images := GalleryImages(specs.industry, 6);
    forall j, k | 0 <= j < k < 6 ensures images[j] != images[k] {
      var a, b := images[j].entries[1].value.s, images[k].entries[1].value.s;
      assert a[14] == DigitChar(j + 1) && b[14] == DigitChar(k + 1);
    }
  }

  // ---------------------------------------------------------------- generated content

  /** The fallback of `generateHeroContent` when the call or the parse fails. */
  function HeroFallback(page: Page, specs: Specs): Record
  {
    Record([
      Entry("title", Str(page.title)),
      Entry("subtitle", Str("Welcome to " + specs.siteName)),
      Entry("buttons", List([
        Record([Entry("text", Str("Get Started")), Entry("href", Str("#contact")), Entry("style", Str("primary"))]),
        Record([Entry("text", Str("Learn More")), Entry("href", Str("#features")), Entry("style", Str("secondary"))])]))])
  }

  /** `generateHeroContent(page, specs)`: the parsed reply, or the fallback. */
  function HeroContent(page: Page, specs: Specs, reply: Option<Record>): (r: Record)
    ensures reply.Some? ==> r == reply.value
    ensures reply.None? ==> Lookup(r.entries, "title") == Some(Str(page.title))
  {
    match reply
    case Some(d) => d
    case None => HeroFallback(page, specs)
  }

  /** The early-return test of `generateFeaturesContent`: only these pages ask for content. */
  predicate FeaturesWanted(page: Page)
  {
    (page.description.Some? && (Includes(page.description.value, "service") || Includes(page.description.value, "feature")))
    || page.name == "index" || page.name == "services"
  }

  /** The fallback of `generateFeaturesContent` when the call or the parse fails. */
  const FeaturesFallback: Record := Record([
    Entry("title", Str("Our Services")),
    Entry("subtitle", Str("What we offer to our clients")),
    Entry("items", List([
      Record([Entry("icon", Str("🎯")), Entry("title", Str("Service 1")),
        Entry("description", Str("Professional service description goes here with details about what we offer."))]),
      Record([Entry("icon", Str("💎")), Entry("title", Str("Service 2")),
        Entry("description", Str("High-quality service that meets your needs and exceeds expectations."))]),
      Record([Entry("icon", Str("🚀")), Entry("title", Str("Service 3")),
        Entry("description", Str("Fast and reliable service delivery with attention to detail and quality."))])]))])

  /** `generateFeaturesContent(page, specs)`; `None` is `null`. */
  function FeaturesContent(page: Page, reply: Option<Record>): (r: Option<Record>)
    ensures r.None? <==> !FeaturesWanted(page)
    ensures r.Some? && reply.Some? ==> r.value == reply.value
  {
    if !FeaturesWanted(page) then None
    else Some(reply.GetOr(FeaturesFallback))
  }

  /** A page that does not ask for features gets `null` whatever the model would have said: no call is made. */
  lemma {:induction false} FeaturesNoCall(page: Page, r1: Option<Record>, r2: Option<Record>)
    requires !FeaturesWanted(page)
    ensures FeaturesContent(page, r1) == FeaturesContent(page, r2) == None
  {
  }

  // ---------------------------------------------------------------- enrichment

  /** The gallery test of `enrichSpecifications`. */
  predicate GalleryWanted(page: Page)
  {
    (page.description.Some? && Includes(page.description.value, "gallery")) || page.name == "gallery"
  }

  /** The site asks for a features section. */
  predicate WantsFeatures(components: seq<string>)
  {
    "features" in components || "services" in components
  }

  /** One turn of the loop of `enrichSpecifications`: the fields it assigns on the page object. */
  function EnrichPage(page: Page, specs: Specs, year: int, hero: Option<Record>, features: Option<Record>): Page
  {
    page.(
      heroData := Some(HeroContent(page, specs, hero)),
      featuresData := if WantsFeatures(specs.components) then FeaturesContent(page, features) else page.featuresData,
      navData := Some(NavData(specs)),
      footerData := Some(FooterData(specs, year)),
      heroStyle := Some(if page.name == "index" then "centered" else "withImage"),
      contactData := if page.name == "contact" then Some(ContactData) else page.contactData,
      galleryData := if GalleryWanted(page) then Some(GalleryData(specs)) else page.galleryData)
  }

  /**
   * The per-page selection rules: the centred hero exactly on the index page, contact
   * data set on the contact page and left alone elsewhere, gallery data set exactly on
   * gallery pages, features data replaced only when the site asks for features and
   * present only for the pages that want it.
   */
  lemma {:induction false} EnrichRules(page: Page, specs: Specs, year: int, hero: Option<Record>, features: Option<Record>)
    ensures var e := EnrichPage(page, specs, year, hero, features);
      (e.heroStyle == Some("centered") <==> page.name == "index") &&
      (e.heroStyle == Some("withImage") <==> page.name != "index")
    ensures var e := EnrichPage(page, specs, year, hero, features);
      (page.name == "contact" ==> e.contactData == Some(ContactData)) &&
      (page.name != "contact" ==> e.contactData == page.contactData)
    ensures var e := EnrichPage(page, specs, year, hero, features);
      (GalleryWanted(page) ==> e.galleryData == Some(GalleryData(specs))) &&
      (!GalleryWanted(page) ==> e.galleryData == page.galleryData)
    ensures var e := EnrichPage(page, specs, year, hero, features);
      (!WantsFeatures(specs.components) ==> e.featuresData == page.featuresData) &&
      (WantsFeatures(specs.components) ==> (e.featuresData.Some? <==> FeaturesWanted(page)))
  {
  }

  /** Enrichment leaves the fields the links are built from alone, so every page sees the same navigation. */
  lemma {:induction false} EnrichKeepsLinks(page: Page, specs: Specs, year: int, hero: Option<Record>, features: Option<Record>)
    ensures LinkRecord(EnrichPage(page, specs, year, hero, features)) == LinkRecord(page)
    ensures EnrichPage(page, specs, year, hero, features).description == page.description
  {
  }

  /**
   * `enrichSpecifications`: the loop assigns the fields of each page object in place
   * (the spread copy is shallow, so the pages are the caller's). `hero(i)` and
   * `features(i)` are the model's replies for the `i`-th page.
   */
  method EnrichSpecifications(pages: array<Page>, specs: Specs, year: int,
                              hero: nat -> Option<Record>, features: nat -> Option<Record>)
    modifies pages
    ensures forall i :: 0 <= i < pages.Length ==>
      pages[i] == EnrichPage(old(pages[i]), specs, year, hero(i), features(i))
  {
    var i := 0;
    while i < pages.Length
      invariant 0 <= i <= pages.Length
      invariant forall k :: 0 <= k < i ==> pages[k] == EnrichPage(old(pages[k]), specs, year, hero(k), features(k))
      invariant forall k :: i <= k < pages.Length ==> pages[k] == old(pages[k])
    {
      var page := pages[i];
      var heroData := HeroContent(page, specs, hero(i));
      page := page.(heroData := Some(heroData));
      if "features" in specs.components || "services" in specs.components {
        page := page.(featuresData := FeaturesContent(page, features(i)));
      }
      page := page.(navData := Some(NavData(specs)));
      page := page.(footerData := Some(FooterData(specs, year)));
      if page.name == "index" {
        page := page.(heroStyle := Some("centered"));
      } else {
        page := page.(heroStyle := Some("withImage"));
      }
      if page.name == "contact" {
        page := page.(contactData := Some(ContactData));
      }
      if (page.description.Some? && Includes(page.description.value, "gallery")) || page.name == "gallery" {
        var gallery := GenerateGalleryData(specs);
        page := page.(galleryData := Some(gallery));
      }
      pages[i] := page;
      i := i + 1;
    }
  }

  // ---------------------------------------------------------------- file structure

  /** A file of the generated site. */
  datatype VirtualFile = VirtualFile(path: string, content: string)

  function HtmlPath(n: string): string { "public/" + n + ".html" }
  function CssPath(n: string): string { "public/css/" + n + ".css" }
  function JsPath(n: string): string { "public/js/" + n + ".js" }

  /** The files of one page: html, css, and the script only when it is non-empty. */
  function PageFiles(e: PageEntry): seq<VirtualFile>
  {
    [VirtualFile(HtmlPath(e.name), e.code.html), VirtualFile(CssPath(e.name), e.code.css)] +
    (if e.code.js != "" then [VirtualFile(JsPath(e.name), e.code.js)] else [])
  }

  /** The files of the pages, in key order. */
  function FrontendFiles(m: seq<PageEntry>): seq<VirtualFile>
    decreases |m|
  {
    if m == [] then [] else FrontendFiles(m[..|m| - 1]) + PageFiles(m[|m| - 1])
  }

  /** One `<dir><name>.js` file per route or model, in key order. */
  function SourceFiles(dir: string, srcs: seq<Source>): (fs: seq<VirtualFile>)
    ensures |fs| == |srcs|
    decreases |srcs|
  {
    if srcs == [] then []
    else SourceFiles(dir, srcs[..|srcs| - 1]) + [VirtualFile(dir + srcs[|srcs| - 1].name + ".js", srcs[|srcs| - 1].text)]
  }

  /** `JSON.stringify(value, null, 2)` of an object of strings, its members indented by `indent` plus two spaces. */
  function PairsJson(ps: seq<Pair>, indent: string): string
  {
    if ps == [] then "{}"
    else
      "{\n" + Join(seq(|ps|, i requires 0 <= i < |ps| => indent + "  " + JsonQuote(ps[i].key) + ": " + JsonQuote(ps[i].value)), ",\n")
      + "\n" + indent + "}"
  }

  /** `JSON.stringify(code.backend.package, null, 2)`. */
  function PackageText(p: PackageJson): string
  {
    "{\n" + Join([
      "  \"name\": " + JsonQuote(p.name),
      "  \"version\": " + JsonQuote(p.version),
      "  \"description\": " + JsonQuote(p.description),
      "  \"main\": " + JsonQuote(p.main),
      "  \"scripts\": " + PairsJson(p.scripts, "  "),
      "  \"dependencies\": " + PairsJson(p.dependencies, "  "),
      "  \"devDependencies\": " + PairsJson(p.devDependencies, "  ")], ",\n") + "\n}"
  }

  /** The files after the pages that do not come from a list. */
  function ServerFile(code: WebsiteCode): VirtualFile { VirtualFile("server.js", code.backend.server) }

  function ClosingFiles(code: WebsiteCode, specs: Specs): seq<VirtualFile>
  {
    [VirtualFile("package.json", PackageText(code.backend.package)),
     VirtualFile(".env.example", EnvTemplate(specs.siteName)),
     VirtualFile("README.md", Readme(specs.siteName, specs))]
  }

  /** The files after the pages: the server, the routes, the models and the closing files. */
  function BackendFiles(code: WebsiteCode, closing: seq<VirtualFile>): seq<VirtualFile>
  {
    [ServerFile(code)] + SourceFiles("routes/", code.backend.routes) +
    SourceFiles("models/", code.backend.models) + closing
  }

  /** `generateFileStructure(code, specs)`. */
  function FileStructure(code: WebsiteCode, specs: Specs): seq<VirtualFile>
  {
    FrontendFiles(code.frontend) + BackendFiles(code, ClosingFiles(code, specs))
  }

  /** `generateFileStructure` as the source runs it: successive pushes onto `files`. */
  method GenerateFileStructure(code: WebsiteCode, specs: Specs) returns (files: seq<VirtualFile>)
    ensures files == FileStructure(code, specs)
  {
    files := [];
    var m := code.frontend;
    var i := 0;
    while i < |m|
      invariant 0 <= i <= |m|
      invariant files == FrontendFiles(m[..i])
    {
      assert m[..i + 1][..i] == m[..i];
      var page := m[i];
      files := files + [VirtualFile(HtmlPath(page.name), page.code.html)];
      files := files + [VirtualFile(CssPath(page.name), page.code.css)];
      if page.code.js != "" {
        files := files + [VirtualFile(JsPath(page.name), page.code.js)];
      }
      i := i + 1;
    }
    assert m[..i] == m;
    ghost var front := files;
    files := files + [VirtualFile("server.js", code.backend.server)];
    var head := files;
    var routes := code.backend.routes;
    var r := 0;
    while r < |routes|
      invariant 0 <= r <= |routes|
      invariant files == head + SourceFiles("routes/", routes[..r])
    {
      assert routes[..r + 1][..r] == routes[..r];
      files := files + [VirtualFile("routes/" + routes[r].name + ".js", routes[r].text)];
      r := r + 1;
    }
    assert routes[..r] == routes;
    head := files;
    var models := code.backend.models;
    var k := 0;
    while k < |models|
      invariant 0 <= k <= |models|
      invariant files == head + SourceFiles("models/", models[..k])
    {
      assert models[..k + 1][..k] == models[..k];
      files := files + [VirtualFile("models/" + models[k].name + ".js", models[k].text)];
      k := k + 1;
    }
    assert models[..k] == models;
    var package := VirtualFile("package.json", PackageText(code.backend.package));
    var env := VirtualFile(".env.example", EnvTemplate(specs.siteName));
    var readme := VirtualFile("README.md", Readme(specs.siteName, specs));
    files := files + [package];
    files := files + [env];
    files := files + [readme];
    Regroup(front, ServerFile(code), SourceFiles("routes/", routes), SourceFiles("models/", models), package, env, readme);
    assert ClosingFiles(code, specs) == [package, env, readme];
  }

  /** The pushes of `generateFileStructure` grouped as the page files and the rest. */
  lemma {:induction false} Regroup(front: seq<VirtualFile>, server: VirtualFile, routes: seq<VirtualFile>, models: seq<VirtualFile>,
                                   package: VirtualFile, env: VirtualFile, readme: VirtualFile)
    ensures front + [server] + routes + models + [package] + [env] + [readme] ==
      front + ([server] + routes + models + [package, env, readme])
  {
  }

  /** The route and model files are named after their keys. */
  lemma {:induction false} SourceFilePaths(dir: string, srcs: seq<Source>)
    ensures forall i :: 0 <= i < |srcs| ==> SourceFiles(dir, srcs)[i].path == dir + srcs[i].name + ".js"
    decreases |srcs|
  {
    if srcs != [] {
      SourceFilePaths(dir, srcs[..|srcs| - 1]);
    }
  }

  /** The three closing files sit at the project's root. */
  lemma {:induction false} ClosingNotPublic(code: WebsiteCode, specs: Specs)
    ensures |ClosingFiles(code, specs)| == 3
    ensures forall j :: 0 <= j < 3 ==> !StartsWith(ClosingFiles(code, specs)[j].path, "public/")
  {
    var closing := ClosingFiles(code, specs);
    assert closing[0].path[1] == 'a' && closing[1].path[0] == '.' && closing[2].path[0] == 'R';
  }

  /** Every page file lives under `public/`. */
  lemma {:induction false} PagePathsPublic(n: string)
    ensures StartsWith(HtmlPath(n), "public/") && StartsWith(CssPath(n), "public/") && StartsWith(JsPath(n), "public/")
  {
    assert HtmlPath(n)[..7] == "public/";
    assert CssPath(n)[..7] == "public/";
    assert JsPath(n)[..7] == "public/";
  }

  /** A path whose first letter is neither the directory's nor its second is not under `public/`. */
  lemma {:induction false} NotPublic(path: string)
    requires |path| >= 2 && (path[0] != 'p' || path[1] != 'u')
    ensures !StartsWith(path, "public/")
  {
    if |path| >= 7 {
      assert path[..7][0] == path[0] && path[..7][1] == path[1];
    }
  }

  /** With closing files at the root, none of the files after the pages lives under `public/`. */
  lemma {:induction false} PublicFiles(code: WebsiteCode, closing: seq<VirtualFile>)
    requires forall j :: 0 <= j < |closing| ==> !StartsWith(closing[j].path, "public/")
    ensures forall i :: 0 <= i < |BackendFiles(code, closing)| ==> !StartsWith(BackendFiles(code, closing)[i].path, "public/")
  {
    var routes, models := SourceFiles("routes/", code.backend.routes), SourceFiles("models/", code.backend.models);
    SourceFilePaths("routes/", code.backend.routes);
    SourceFilePaths("models/", code.backend.models);
    var rest := BackendFiles(code, closing);
    var front := [ServerFile(code)] + routes + models;
    assert rest == front + closing;
    forall i | 0 <= i < |front| ensures !StartsWith(front[i].path, "public/") {
      if i == 0 {
        assert front[i].path == "server.js";
        NotPublic(front[i].path);
      } else if i <= |routes| {
        assert front[i] == routes[i - 1];
        NotPublic(front[i].path);
      } else {
        assert front[i] == models[i - 1 - |routes|];
        NotPublic(front[i].path);
      }
    }
    forall i | 0 <= i < |rest| ensures !StartsWith(rest[i].path, "public/") {
      if i >= |front| {
        assert rest[i] == closing[i - |front|];
      } else {
        assert rest[i] == front[i];
      }
    }
  }

  /** The three page paths never coincide, and each names its page. */
  lemma {:induction false} PagePathsDiffer(n: string, n': string)
    ensures HtmlPath(n) != CssPath(n') && HtmlPath(n) != JsPath(n') && CssPath(n) != JsPath(n')
    ensures HtmlPath(n) == HtmlPath(n') ==> n == n'
    ensures CssPath(n) == CssPath(n') ==> n == n'
    ensures JsPath(n) == JsPath(n') ==> n == n'
  {
    var h, c, j := HtmlPath(n), CssPath(n'), JsPath(n');
    assert h[|h| - 1] == 'l' && c[|c| - 1] == 's' && j[|j| - 1] == 's';
    var c0, j0 := CssPath(n), JsPath(n');
    assert c0[|c0| - 3] == 'c' && j0[|j0| - 3] == '.';
    if HtmlPath(n) == HtmlPath(n') {
      assert n == HtmlPath(n)[7..7 + |n|] == HtmlPath(n')[7..7 + |n'|] == n';
    }
    if CssPath(n) == CssPath(n') {
      assert n == CssPath(n)[11..11 + |n|] == CssPath(n')[11..11 + |n'|] == n';
    }
    if JsPath(n) == JsPath(n') {
      assert n == JsPath(n)[10..10 + |n|] == JsPath(n')[10..10 + |n'|] == n';
    }
  }

  /** A page's script file is there exactly when some page of that name has a non-empty script with that text. */
  lemma {:induction false} FrontendJsFiles(m: seq<PageEntry>, n: string, c: string)
    ensures VirtualFile(JsPath(n), c) in FrontendFiles(m) <==>
      c != "" && exists k :: 0 <= k < |m| && m[k].name == n && m[k].code.js == c
    decreases |m|
  {
    if m != [] {
      var init, last := m[..|m| - 1], m[|m| - 1];
      FrontendJsFiles(init, n, c);
      PagePathsDiffer(last.name, n);
      PagePathsDiffer(n, last.name);
      assert forall k :: 0 <= k < |init| ==> init[k] == m[k];
      if last.name != n || last.code.js != c {
        if exists k :: 0 <= k < |m| && m[k].name == n && m[k].code.js == c {
          var k :| 0 <= k < |m| && m[k].name == n && m[k].code.js == c;
          assert k < |init|;
        }
      }
    }
  }

  /** Every page has its markup file, with the markup of some page of that name, and no other markup file exists. */
  lemma {:induction false} FrontendHtmlFiles(m: seq<PageEntry>, n: string, c: string)
    ensures VirtualFile(HtmlPath(n), c) in FrontendFiles(m) <==>
      exists k :: 0 <= k < |m| && m[k].name == n && m[k].code.html == c
    decreases |m|
  {
    if m != [] {
      var init, last := m[..|m| - 1], m[|m| - 1];
      FrontendHtmlFiles(init, n, c);
      PagePathsDiffer(last.name, n);
      PagePathsDiffer(n, last.name);
      assert forall k :: 0 <= k < |init| ==> init[k] == m[k];
      if last.name != n || last.code.html != c {
        if exists k :: 0 <= k < |m| && m[k].name == n && m[k].code.html == c {
          var k :| 0 <= k < |m| && m[k].name == n && m[k].code.html == c;
          assert k < |init|;
        }
      }
    }
  }

  /** The number of pages with a script. */
  function ScriptCount(m: seq<PageEntry>): nat
    decreases |m|
  {
    if m == [] then 0 else ScriptCount(m[..|m| - 1]) + (if m[|m| - 1].code.js != "" then 1 else 0)
  }

  /** Two or three files per page, then the server, the routes, the models and the closing three. */
  lemma {:induction false} FileCount(code: WebsiteCode, specs: Specs)
    ensures |FrontendFiles(code.frontend)| == 2 * |code.frontend| + ScriptCount(code.frontend)
    ensures |FileStructure(code, specs)| ==
      2 * |code.frontend| + ScriptCount(code.frontend) + 1 + |code.backend.routes| + |code.backend.models| + 3
  {
    FrontendCount(code.frontend);
  }

  lemma {:induction false} FrontendCount(m: seq<PageEntry>)
    ensures |FrontendFiles(m)| == 2 * |m| + ScriptCount(m)
    decreases |m|
  {
    if m != [] {
      FrontendCount(m[..|m| - 1]);
    }
  }

  /** The server file follows the pages, and the package, the environment template and the readme close the list, in that order. */
  lemma {:induction false} FileOrder(code: WebsiteCode, specs: Specs)
    ensures var fs := FileStructure(code, specs); var n := |FrontendFiles(code.frontend)|;
      |fs| >= n + 4 && fs[n].path == "server.js" &&
      fs[|fs| - 3].path == "package.json" && fs[|fs| - 2].path == ".env.example" && fs[|fs| - 1].path == "README.md"
    ensures var fs := FileStructure(code, specs);
      |fs| >= 3 && fs[|fs| - 2].content == EnvTemplate(specs.siteName) && fs[|fs| - 1].content == Readme(specs.siteName, specs)
  {
  }

  // ---------------------------------------------------------------- summary

  /** The object `generateSummary` returns; the flags are taken by their truthiness. */
  datatype Summary = Summary(
    siteName: string, kind: string, pageCount: nat, pages: seq<string>, features: Option<seq<string>>,
    hasBackend: bool, hasForms: bool, hasAuth: bool, hasAdmin: bool, components: seq<string>)

  /** `generateSummary(specs)`. */
  function GenerateSummary(specs: Specs): (s: Summary)
    ensures s.pageCount == |s.pages| == |specs.pages|
    ensures forall i :: 0 <= i < |specs.pages| ==> s.pages[i] == specs.pages[i].title
  {
    Summary(specs.siteName, specs.websiteType, |specs.pages|,
      seq(|specs.pages|, i requires 0 <= i < |specs.pages| => specs.pages[i].title),
      specs.features, FlagOn(specs.backend, "contactForm") || FlagOn(specs.backend, "authentication"),
      FlagOn(specs.backend, "contactForm"), FlagOn(specs.backend, "authentication"),
      FlagOn(specs.backend, "admin"), specs.components)
  }

  /** The summary reports a backend exactly when the generated bundle has a data model. */
  lemma {:induction false} SummaryBackend(t: Table, specs: Specs)
    requires HasContactBackend(t)
    ensures GenerateSummary(specs).hasBackend <==> ModelsOf(t, specs.backend) != []
    ensures GenerateSummary(specs).hasForms <==> ContactSource(t) in RoutesOf(t, specs.backend)
    ensures GenerateSummary(specs).hasAdmin <==> AdminSource in RoutesOf(t, specs.backend)
  {
    BackendFlags(t, specs.backend);
  }

  // ---------------------------------------------------------------- default specification

  /** The keyword classifier of `getDefaultSpecifications`. */
  function WebsiteKind(userInput: string): string
  {
    var keywords := ToLower(userInput);
    if Includes(keywords, "portfolio") || Includes(keywords, "photographer") then "portfolio"
    else if Includes(keywords, "business") || Includes(keywords, "company") then "business"
    else "general"
  }

  /**
   * Portfolio wins over business, business over general, and the choice ignores the
   * case of ASCII letters.
   */
  lemma {:induction false} WebsiteKindRules(userInput: string)
    ensures var k := WebsiteKind(userInput); var w := ToLower(userInput);
      (k == "portfolio" <==> Contains(w, "portfolio") || Contains(w, "photographer")) &&
      (k == "business" <==>
        !Contains(w, "portfolio") && !Contains(w, "photographer") && (Contains(w, "business") || Contains(w, "company"))) &&
      (k == "portfolio" || k == "business" || k == "general")
    ensures WebsiteKind(ToLower(userInput)) == WebsiteKind(userInput)
  {
    ToLowerIdempotent(userInput);
  }

  function DefaultPage(name: string, title: string, description: string): Page
  {
    Page(name, title, Some(description), None, None, None, None, None, None, None)
  }

  const DefaultPages: seq<Page> := [
    DefaultPage("index", "Home", "Homepage with hero and features"),
    DefaultPage("about", "About", "About us page"),
    DefaultPage("services", "Services", "Services we offer"),
    DefaultPage("contact", "Contact", "Contact form page")]

  /** `getDefaultSpecifications(userInput)`: only the website type depends on the input. */
  function DefaultSpecifications(userInput: string): (s: Specs)
    ensures s.websiteType == WebsiteKind(userInput)
  {
    Specs(WebsiteKind(userInput), "My Website", "General", DefaultPages,
      ["navbar", "hero", "features", "contact", "footer"],
      Some(["Responsive Design", "Contact Form", "Modern UI", "Working Backend"]),
      Some([Flag("contactForm", true), Flag("authentication", false), Flag("admin", false), Flag("database", true)]),
      "modern", "blue and white")
  }

  /**
   * The fallback site has the four pages index, about, services and contact, asks for
   * features, and its backend has the contact form only.
   */
  lemma {:induction false} DefaultShape(userInput: string)
    ensures var s := DefaultSpecifications(userInput);
      |s.pages| == 4 && s.pages[0].name == "index" && s.pages[1].name == "about" &&
      s.pages[2].name == "services" && s.pages[3].name == "contact"
    ensures WantsFeatures(DefaultSpecifications(userInput).components)
    ensures var b := DefaultSpecifications(userInput).backend;
      FlagOn(b, "contactForm") && !FlagOn(b, "authentication") && !FlagOn(b, "admin")
  {
    var s := DefaultSpecifications(userInput);
    assert s.components[2] == "features";
    var fs := s.backend.value;
    assert fs[..|fs| - 1] == fs[..3] && fs[..3][..2] == fs[..2] && fs[..2][..1] == fs[..1];
    assert !LastFlag(fs[..3], "admin");
    assert !LastFlag(fs[..2], "authentication");
    assert LastFlag(fs[..1], "contactForm");
  }
}
