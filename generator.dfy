/**
 * The code generator (`codeGenerator`): the components a page asks for, each page
 * assembled from the fragment table, the pages keyed by name, and the backend bundle and
 * database schemas chosen by the specification's flags.
 */
module Generator {
  import opened Wrappers
  import opened Strings
  import opened Template
  import opened Pieces
  import Library

  /** One entry of the specification's `backend` object; `on` is its truthiness. */
  datatype Flag = Flag(key: string, on: bool)

  /**
   * A page of the specification, with the data `enrichSpecifications` attaches to it;
   * `None` is an absent (or `null`) property, and an absent title is the empty string.
   */
  datatype Page = Page(
    name: string, title: string, description: Option<string>, heroStyle: Option<string>,
    heroData: Option<Record>, featuresData: Option<Record>, navData: Option<Record>,
    footerData: Option<Record>, contactData: Option<Record>, galleryData: Option<Record>)

  datatype Specs = Specs(
    websiteType: string, siteName: string, industry: string, pages: seq<Page>,
    components: seq<string>, features: Option<seq<string>>, backend: Option<seq<Flag>>,
    designStyle: string, colorScheme: string)

  /**
   * `backend?.[key]`: the truthiness of the flag, false when the object or the key is absent.
   * The object comes from `JSON.parse`, where a repeated key keeps its last value.
   */
  function FlagOn(b: Option<seq<Flag>>, key: string): bool
  {
    b.Some? && LastFlag(b.value, key)
  }

  function LastFlag(fs: seq<Flag>, key: string): bool
    decreases |fs|
  {
    if fs == [] then false
    else if fs[|fs| - 1].key == key then fs[|fs| - 1].on
    else LastFlag(fs[..|fs| - 1], key)
  }

  /** A later entry for a key overrides every earlier one; other keys are not affected. */
  lemma {:induction false} FlagLastWins(fs: seq<Flag>, f: Flag, key: string)
    ensures FlagOn(Some(fs + [f]), key) == if key == f.key then f.on else FlagOn(Some(fs), key)
  {
    assert (fs + [f])[..|fs + [f]| - 1] == fs;
  }

  /**
   * The fragment table the generator reads (`this.componentLibrary`): the lookup of a
   * (type, variant) pair, and the two stylesheets every page starts with.
   */
  datatype Table = Table(find: (string, string) -> Option<Library.Fragment>, globalCss: string, buttonsCss: string)

  /** The table of `componentLibrary`. */
  const Standard: Table := Table(Library.Find, Library.GlobalCss, Library.ButtonsCss)

  /** What `generateBackend` reads without checking: the contact form's backend code. */
  predicate HasContactBackend(t: Table)
  {
    t.find("contactForm", "standard").Some? && t.find("contactForm", "standard").value.backend.Some?
  }

  /** The pairs that bring a non-empty script are exactly the navbar and the contact form. */
  ghost predicate ScriptRule(t: Table)
  {
    forall kind, variant :: (t.find(kind, variant).Some? && t.find(kind, variant).value.js.GetOr("") != "") <==>
      ((kind == "navbar" && variant == "modern") || (kind == "contactForm" && variant == "standard"))
  }

  /** The value `renderComponent` returns. */
  datatype Rendered = Rendered(html: string, css: string, js: string)

  /**
   * `renderComponent(type, variant, data)`: nothing for a pair the table lacks; otherwise
   * the markup with its placeholders filled, the stylesheet, and the script or `''`.
   */
  function Component(t: Table, kind: string, variant: string, data: Option<Record>): Rendered
  {
    match t.find(kind, variant)
    case None => Rendered("", "", "")
    case Some(f) => Rendered(Render(Flatten(f.html), data), f.css, f.js.GetOr(""))
  }

  method RenderComponent(t: Table, kind: string, variant: string, data: Option<Record>) returns (r: Rendered)
    ensures r == Component(t, kind, variant, data)
  {
    var f := t.find(kind, variant);
    if f.None? {
      return Rendered("", "", "");
    }
    var html := ReplaceTemplateVars(Flatten(f.value.html), data);
    r := Rendered(html, f.value.css, f.value.js.GetOr(""));
  }

  /** A pair the table lacks renders as three empty strings. */
  lemma {:induction false} ComponentUnknown(kind: string, variant: string, data: Option<Record>)
    requires !Library.Defined(kind, variant)
    ensures Component(Standard, kind, variant, data) == Rendered("", "", "")
  {
  }

  /**
   * A known pair: the stylesheet is the table's, and the markup is the table's filled in
   * by the engine; without data it is the table's markup as is, and with well-formed data
   * it is the piece-level rendering of the table's markup.
   */
  lemma {:induction false} ComponentKnown(kind: string, variant: string, data: Option<Record>)
    requires Library.Defined(kind, variant)
    ensures var f := Library.Find(kind, variant).value;
      var r := Component(Standard, kind, variant, data);
      r.css == f.css && r.html == Render(Flatten(f.html), data) &&
      (data.None? ==> r.html == Flatten(f.html)) &&
      (data.Some? && GoodData(data.value.entries) ==> r.html == Flatten(PRender(f.html, data.value)))
  {
    var f := Library.Find(kind, variant).value;
    if data.Some? && GoodData(data.value.entries) {
      Library.LibraryGood(kind, variant);
      RenderPieces(f.html, data.value);
    }
  }

  /** The table of `componentLibrary` obeys the script rule and carries the contact backend. */
  lemma {:induction false} StandardTable()
    ensures ScriptRule(Standard) && HasContactBackend(Standard)
    ensures Standard.find("contactForm", "standard").value.backend.value ==
      Library.BackendCode(Library.ContactRoute, Library.ContactModel)
  {
    forall kind, variant
      ensures (Standard.find(kind, variant).Some? && Standard.find(kind, variant).value.js.GetOr("") != "") <==>
        ((kind == "navbar" && variant == "modern") || (kind == "contactForm" && variant == "standard"))
    {
      if Library.Defined(kind, variant) {
        Library.ScriptNonEmpty(kind, variant);
      }
    }
  }

  /** Under the script rule, only the navbar and the contact form bring a script. */
  lemma {:induction false} ComponentScript(t: Table, kind: string, variant: string, data: Option<Record>)
    requires ScriptRule(t)
    ensures Component(t, kind, variant, data).js != "" <==>
      (kind == "navbar" && variant == "modern") || (kind == "contactForm" && variant == "standard")
  {
    assert (t.find(kind, variant).Some? && t.find(kind, variant).value.js.GetOr("") != "") <==>
      ((kind == "navbar" && variant == "modern") || (kind == "contactForm" && variant == "standard"));
  }

  /** What a requested component name stands for. */
  datatype Choice = Choice(kind: string, variant: string, data: Option<Record>)

  const ComponentNames: seq<string> := ["navbar", "hero", "features", "services", "gallery", "contact", "footer"]

  /** `page.heroStyle || 'centered'`. */
  function HeroVariant(page: Page): string
  {
    if page.heroStyle.None? || page.heroStyle.value == "" then "centered" else page.heroStyle.value
  }

  /** The `switch` of `selectComponentsForPage`; `None` for a name it has no case for. */
  function Choose(name: string, page: Page): (c: Option<Choice>)
    ensures c.Some? <==> name in ComponentNames
  {
    if name == "navbar" then Some(Choice("navbar", "modern", page.navData))
    else if name == "hero" then Some(Choice("hero", HeroVariant(page), page.heroData))
    else if name == "features" || name == "services" then Some(Choice("features", "grid", page.featuresData))
    else if name == "gallery" then Some(Choice("gallery", "grid", page.galleryData))
    else if name == "contact" then Some(Choice("contactForm", "standard", page.contactData))
    else if name == "footer" then Some(Choice("footer", "standard", page.footerData))
    else None
  }

  /** `features` and `services` are the same grid; `contact` is the standard contact form. */
  lemma {:induction false} ChooseAliases(page: Page)
    ensures Choose("features", page) == Choose("services", page) == Some(Choice("features", "grid", page.featuresData))
    ensures Choose("contact", page) == Some(Choice("contactForm", "standard", page.contactData))
    ensures Choose("hero", page) == Some(Choice("hero", HeroVariant(page), page.heroData))
    ensures page.heroStyle.None? ==> HeroVariant(page) == "centered"
  {
  }

  /** The component a single name contributes: none for an unknown name. */
  function Contribution(t: Table, name: string, page: Page): seq<Rendered>
  {
    match Choose(name, page)
    case None => []
    case Some(c) => [Component(t, c.kind, c.variant, c.data)]
  }

  /** The list `selectComponentsForPage` builds, one push per recognised name, in order. */
  function Selected(t: Table, page: Page, names: seq<string>): seq<Rendered>
    decreases |names|
  {
    if names == [] then []
    else Selected(t, page, names[..|names| - 1]) + Contribution(t, names[|names| - 1], page)
  }

  method SelectComponentsForPage(t: Table, page: Page, requested: seq<string>) returns (components: seq<Rendered>)
    ensures components == Selected(t, page, requested)
  {
    components := [];
    var i := 0;
    while i < |requested|
      invariant 0 <= i <= |requested|
      invariant components == Selected(t, page, requested[..i])
    {
      var name := requested[i];
      assert requested[..i + 1][..i] == requested[..i];
      var c := Choose(name, page);
      if c.Some? {
        var r := RenderComponent(t, c.value.kind, c.value.variant, c.value.data);
        components := components + [r];
      }
      i := i + 1;
    }
    assert requested[..i] == requested;
  }

  /** Selection distributes over concatenation: the requested order is kept. */
  lemma {:induction false} SelectedAppend(t: Table, page: Page, a: seq<string>, b: seq<string>)
    ensures Selected(t, page, a + b) == Selected(t, page, a) + Selected(t, page, b)
    decreases |b|
  {
    if b == [] {
      assert a + b == a;
    } else {
      var b' := b[..|b| - 1];
      assert (a + b)[..|a + b| - 1] == a + b';
      SelectedAppend(t, page, a, b');
    }
  }

  /** Unknown names are dropped: the result is no longer than the request, and as long exactly when every name is known. */
  lemma {:induction false} SelectedLength(t: Table, page: Page, names: seq<string>)
    ensures |Selected(t, page, names)| <= |names|
    ensures |Selected(t, page, names)| == |names| <==> forall i :: 0 <= i < |names| ==> names[i] in ComponentNames
    ensures (forall i :: 0 <= i < |names| ==> names[i] !in ComponentNames) ==> Selected(t, page, names) == []
    decreases |names|
  {
    if names != [] {
      var init := names[..|names| - 1];
      SelectedLength(t, page, init);
      assert forall i :: 0 <= i < |init| ==> init[i] == names[i];
    }
  }

  /** The value `generatePage` returns. */
  datatype PageCode = PageCode(html: string, css: string, js: string)

  /** `page.title || siteName`. */
  function PageTitle(page: Page, siteName: string): string
  {
    if page.title == "" then siteName else page.title
  }

  /** The stylesheet link of a page, the exact tag the preview inlines. */
  function CssLink(name: string): string
  {
    CssLinkHead + name + CssLinkTail
  }

  /** `generateHTMLStructure`: the document up to `<body>`, with the title and the page's stylesheet link. */
  function HtmlStructure(page: Page, siteName: string): string
  {
    DocHead + PageTitle(page, siteName) + DocTitleEnd + CssLink(page.name) + DocTail
  }

  /**
   * The document shell opens with the title (the page's own, or the site name) and
   * carries the page's stylesheet link right after it.
   */
  lemma {:induction false} HtmlStructureLayout(page: Page, siteName: string)
    ensures StartsWith(HtmlStructure(page, siteName), DocHead + PageTitle(page, siteName) + DocTitleEnd)
    ensures OccursAt(HtmlStructure(page, siteName), CssLink(page.name), |DocHead| + |PageTitle(page, siteName)| + |DocTitleEnd|)
  {
    var head := DocHead + PageTitle(page, siteName) + DocTitleEnd;
    var link := CssLink(page.name);
    StartsSelf(link);
    OccursInMiddle(head, link, DocTail, link);
    StartsSelf(head);
    StartsConcat(head, link, head);
    StartsConcat(head + link, DocTail, head);
  }

  function HtmlPart(r: Rendered): string { r.html }
  function CssPart(r: Rendered): string { r.css }
  function JsPart(r: Rendered): string { r.js }

  /** `if (comp.x) acc += comp.x` over the components, in order. */
  function Joined(comps: seq<Rendered>, part: Rendered -> string): string
    decreases |comps|
  {
    if comps == [] then "" else Joined(comps[..|comps| - 1], part) + part(comps[|comps| - 1])
  }

  /** `if (comp.x) acc += '\n' + comp.x` over the components, in order. */
  function Lines(comps: seq<Rendered>, part: Rendered -> string): string
    decreases |comps|
  {
    if comps == [] then ""
    else Lines(comps[..|comps| - 1], part) + (if part(comps[|comps| - 1]) == "" then "" else "\n" + part(comps[|comps| - 1]))
  }

  /** `generatePage`: the shell around the components' markup, the global styles first, the scripts. */
  function PageOf(t: Table, page: Page, comps: seq<Rendered>, siteName: string): PageCode
  {
    PageCode(
      HtmlStructure(page, siteName) + Joined(comps, HtmlPart) + PageClose,
      t.globalCss + "\n" + t.buttonsCss + Lines(comps, CssPart),
      Lines(comps, JsPart))
  }

  method GeneratePage(t: Table, page: Page, components: seq<Rendered>, siteName: string) returns (r: PageCode)
    ensures r == PageOf(t, page, components, siteName)
  {
    var shell := HtmlStructure(page, siteName);
    var styles := t.globalCss + "\n" + t.buttonsCss;
    var html := shell;
    var css := styles;
    var js := "";
    var i := 0;
    while i < |components|
      invariant 0 <= i <= |components|
      invariant html == shell + Joined(components[..i], HtmlPart)
      invariant css == styles + Lines(components[..i], CssPart)
      invariant js == Lines(components[..i], JsPart)
    {
      var comp := components[i];
      AccumulateStep(components, i);
      if comp.html != "" {
        Regroup3(shell, Joined(components[..i], HtmlPart), comp.html);
        html := html + comp.html;
      }
      if comp.css != "" {
        Regroup3(styles, Lines(components[..i], CssPart), "\n");
        Regroup3(styles, Lines(components[..i], CssPart) + "\n", comp.css);
        css := css + "\n" + comp.css;
      }
      if comp.js != "" {
        js := js + "\n" + comp.js;
      }
      i := i + 1;
    }
    assert components[..i] == components;
    html := html + PageClose;
    r := PageCode(html, css, js);
  }

  /** One more component extends each accumulated part by its own. */
  lemma {:induction false} AccumulateStep(comps: seq<Rendered>, i: nat)
    requires i < |comps|
    ensures Joined(comps[..i + 1], HtmlPart) ==
      if comps[i].html == "" then Joined(comps[..i], HtmlPart) else Joined(comps[..i], HtmlPart) + comps[i].html
    ensures Lines(comps[..i + 1], CssPart) ==
      if comps[i].css == "" then Lines(comps[..i], CssPart) else Lines(comps[..i], CssPart) + "\n" + comps[i].css
    ensures Lines(comps[..i + 1], JsPart) ==
      if comps[i].js == "" then Lines(comps[..i], JsPart) else Lines(comps[..i], JsPart) + "\n" + comps[i].js
  {
    var c := comps[..i + 1];
    assert c[..i] == comps[..i] && c[i] == comps[i];
    var h, s, j := Joined(comps[..i], HtmlPart), Lines(comps[..i], CssPart), Lines(comps[..i], JsPart);
    assert h + "" == h && s + "" == s && j + "" == j;
    Regroup3(s, "\n", comps[i].css);
    Regroup3(j, "\n", comps[i].js);
  }

  /** The accumulated lines are empty exactly when every part is. */
  lemma {:induction false} LinesEmptyIff(comps: seq<Rendered>, part: Rendered -> string)
    ensures Lines(comps, part) == "" <==> forall i :: 0 <= i < |comps| ==> part(comps[i]) == ""
    decreases |comps|
  {
    if comps != [] {
      var init := comps[..|comps| - 1];
      LinesEmptyIff(init, part);
      assert forall i :: 0 <= i < |init| ==> init[i] == comps[i];
    }
  }

  /** One more requested name adds its component's line, if any. */
  lemma {:induction false} LinesSelectedStep(t: Table, page: Page, names: seq<string>, name: string, part: Rendered -> string)
    ensures Lines(Selected(t, page, names + [name]), part) ==
      Lines(Selected(t, page, names), part) + Lines(Contribution(t, name, page), part)
  {
    var s := names + [name];
    assert s[..|s| - 1] == names;
    var sel := Selected(t, page, names);
    if Choose(name, page).Some? {
      var x := Contribution(t, name, page);
      assert (sel + x)[..|sel + x| - 1] == sel;
      assert Contribution(t, name, page)[..0] == [];
    } else {
      assert sel + [] == sel;
    }
  }

  /** The script line a single requested name contributes. */
  lemma {:induction false} ContributionScript(t: Table, name: string, page: Page)
    requires ScriptRule(t)
    ensures Lines(Contribution(t, name, page), JsPart) == "" <==> name != "navbar" && name != "contact"
  {
    var x := Contribution(t, name, page);
    match Choose(name, page)
    case None =>
    case Some(c) =>
      ComponentScript(t, c.kind, c.variant, c.data);
      assert x[..|x| - 1] == [];
  }

  /** The scripts of the selected components are all empty unless the navbar or the contact form is requested. */
  lemma {:induction false} SelectedScriptIff(t: Table, page: Page, names: seq<string>)
    requires ScriptRule(t)
    ensures Lines(Selected(t, page, names), JsPart) == "" <==>
      forall i :: 0 <= i < |names| ==> names[i] != "navbar" && names[i] != "contact"
    decreases |names|
  {
    if names != [] {
      var init := names[..|names| - 1];
      var last := names[|names| - 1];
      assert names == init + [last];
      SelectedScriptIff(t, page, init);
      LinesSelectedStep(t, page, init, last, JsPart);
      ContributionScript(t, last, page);
      assert forall i :: 0 <= i < |init| ==> init[i] == names[i];
    }
  }

  /**
   * A generated page has a script exactly when the requested components include the
   * navbar or the contact form.
   */
  lemma {:induction false} PageScriptIff(t: Table, page: Page, names: seq<string>, siteName: string)
    requires ScriptRule(t)
    ensures PageOf(t, page, Selected(t, page, names), siteName).js == "" <==>
      forall i :: 0 <= i < |names| ==> names[i] != "navbar" && names[i] != "contact"
  {
    SelectedScriptIff(t, page, names);
  }

  /** An entry of a JS object keyed by page name. */
  datatype PageEntry = PageEntry(name: string, code: PageCode)

  function Keys(m: seq<PageEntry>): (ks: seq<string>)
    ensures |ks| == |m| && forall i :: 0 <= i < |m| ==> ks[i] == m[i].name
  {
    seq(|m|, i requires 0 <= i < |m| => m[i].name)
  }

  predicate Distinct(ks: seq<string>)
  {
    forall i, j :: 0 <= i < j < |ks| ==> ks[i] != ks[j]
  }

  /** `obj[k] = v`: an existing key keeps its place and takes the new value; a new key goes last. */
  function Put(m: seq<PageEntry>, k: string, v: PageCode): seq<PageEntry>
  {
    if m == [] then [PageEntry(k, v)]
    else if m[0].name == k then [PageEntry(k, v)] + m[1..]
    else [m[0]] + Put(m[1..], k, v)
  }

  /** `obj[k]`. */
  function Get(m: seq<PageEntry>, k: string): Option<PageCode>
  {
    if m == [] then None else if m[0].name == k then Some(m[0].code) else Get(m[1..], k)
  }

  lemma {:induction false} PutGet(m: seq<PageEntry>, k: string, v: PageCode, k': string)
    ensures Get(Put(m, k, v), k') == if k' == k then Some(v) else Get(m, k')
  {
    if m != [] && m[0].name != k {
      PutGet(m[1..], k, v, k');
    }
  }

  lemma {:induction false} PutKeys(m: seq<PageEntry>, k: string, v: PageCode)
    ensures Keys(Put(m, k, v)) == if k in Keys(m) then Keys(m) else Keys(m) + [k]
  {
    if m != [] {
      assert Keys(m) == [m[0].name] + Keys(m[1..]);
      if m[0].name != k {
        PutKeys(m[1..], k, v);
        assert Keys(Put(m, k, v)) == [m[0].name] + Keys(Put(m[1..], k, v));
      } else {
        assert Keys(Put(m, k, v)) == [k] + Keys(m[1..]);
      }
    }
  }

  /** `generateFrontend`: each page in order, with the site's component list, keyed by its name. */
  function FrontendOf(t: Table, pages: seq<Page>, components: seq<string>, siteName: string): seq<PageEntry>
    decreases |pages|
  {
    if pages == [] then []
    else
      var p := pages[|pages| - 1];
      Put(FrontendOf(t, pages[..|pages| - 1], components, siteName), p.name, CodeFor(t, p, components, siteName))
  }

  method GenerateFrontend(t: Table, specs: Specs) returns (frontend: seq<PageEntry>)
    ensures frontend == FrontendOf(t, specs.pages, specs.components, specs.siteName)
  {
    frontend := [];
    var i := 0;
    while i < |specs.pages|
      invariant 0 <= i <= |specs.pages|
      invariant frontend == FrontendOf(t, specs.pages[..i], specs.components, specs.siteName)
    {
      var page := specs.pages[i];
      assert specs.pages[..i + 1][..i] == specs.pages[..i];
      var comps := SelectComponentsForPage(t, page, specs.components);
      var code := GeneratePage(t, page, comps, specs.siteName);
      frontend := Put(frontend, page.name, code);
      i := i + 1;
    }
    assert specs.pages[..i] == specs.pages;
  }

  /** The last page with a given name, if any. */
  function LastNamed(pages: seq<Page>, n: string): Option<Page>
    decreases |pages|
  {
    if pages == [] then None
    else if pages[|pages| - 1].name == n then Some(pages[|pages| - 1])
    else LastNamed(pages[..|pages| - 1], n)
  }

  /** The code `generateFrontend` stores for a page. */
  function CodeFor(t: Table, p: Page, components: seq<string>, siteName: string): PageCode
  {
    PageOf(t, p, Selected(t, p, components), siteName)
  }

  lemma {:induction false} FrontendStep(t: Table, pages: seq<Page>, components: seq<string>, siteName: string)
    requires pages != []
    ensures FrontendOf(t, pages, components, siteName) ==
      Put(FrontendOf(t, pages[..|pages| - 1], components, siteName), pages[|pages| - 1].name,
        CodeFor(t, pages[|pages| - 1], components, siteName))
  {
  }

  /** The names of the pages, in order. */
  function PageNames(pages: seq<Page>): (ns: seq<string>)
    ensures |ns| == |pages| && forall i :: 0 <= i < |pages| ==> ns[i] == pages[i].name
  {
    seq(|pages|, i requires 0 <= i < |pages| => pages[i].name)
  }

  /** Storing under a key keeps the keys distinct and adds exactly that key. */
  lemma {:induction false} PutDistinct(m: seq<PageEntry>, k: string, v: PageCode, names: seq<string>)
    requires Distinct(Keys(m)) && forall n :: n in Keys(m) <==> n in names
    ensures Distinct(Keys(Put(m, k, v)))
    ensures forall n :: n in Keys(Put(m, k, v)) <==> n in names + [k]
  {
    PutKeys(m, k, v);
    if k !in Keys(m) {
      var ks := Keys(m) + [k];
      forall i, j | 0 <= i < j < |ks| ensures ks[i] != ks[j] {
        if j == |ks| - 1 {
          assert ks[i] in Keys(m);
        }
      }
    }
  }

  /** The keys are the page names, each once. */
  lemma {:induction false} FrontendKeys(t: Table, pages: seq<Page>, components: seq<string>, siteName: string)
    ensures Distinct(Keys(FrontendOf(t, pages, components, siteName)))
    ensures forall n :: n in Keys(FrontendOf(t, pages, components, siteName)) <==> n in PageNames(pages)
    decreases |pages|
  {
    if pages != [] {
      var init := pages[..|pages| - 1];
      var p := pages[|pages| - 1];
      FrontendKeys(t, init, components, siteName);
      FrontendStep(t, pages, components, siteName);
      PutDistinct(FrontendOf(t, init, components, siteName), p.name, CodeFor(t, p, components, siteName), PageNames(init));
      assert PageNames(pages) == PageNames(init) + [p.name];
    }
  }

  /** The code under a name is the last page of that name's: a later duplicate replaces an earlier one. */
  lemma {:induction false} FrontendGet(t: Table, pages: seq<Page>, components: seq<string>, siteName: string, n: string)
    ensures Get(FrontendOf(t, pages, components, siteName), n) ==
      match LastNamed(pages, n)
      case None => None
      case Some(p) => Some(CodeFor(t, p, components, siteName))
    decreases |pages|
  {
    if pages != [] {
      var init := pages[..|pages| - 1];
      var p := pages[|pages| - 1];
      FrontendGet(t, init, components, siteName, n);
      FrontendStep(t, pages, components, siteName);
      PutGet(FrontendOf(t, init, components, siteName), p.name, CodeFor(t, p, components, siteName), n);
    }
  }

  /** A route or model file of the backend bundle, by key. */
  datatype Source = Source(name: string, text: string)

  datatype Pair = Pair(key: string, value: string)

  /** The object `generatePackageJson` returns. */
  datatype PackageJson = PackageJson(
    name: string, version: string, description: string, main: string,
    scripts: seq<Pair>, dependencies: seq<Pair>, devDependencies: seq<Pair>)

  /** The object `generateBackend` returns. */
  datatype Backend = Backend(server: string, routes: seq<Source>, models: seq<Source>, package: PackageJson)

  /** `siteName.toLowerCase().replace(/\s+/g, '-')`. */
  function PackageName(siteName: string): string
  {
    CollapseSpaces(ToLower(siteName), "-")
  }

  /** `siteName.replace(/\s+/g, '_').toLowerCase()`, the database name. */
  function DbName(siteName: string): string
  {
    ToLower(CollapseSpaces(siteName, "_"))
  }

  /**
   * The two names agree up to the separator: lower-casing first or last makes no
   * difference, and neither contains white space.
   */
  lemma {:induction false} SiteNames(siteName: string)
    ensures DbName(siteName) == CollapseSpaces(ToLower(siteName), "_")
    ensures NoSpace(DbName(siteName)) && NoSpace(PackageName(siteName))
    ensures forall i :: 0 <= i < |DbName(siteName)| ==> !('A' <= DbName(siteName)[i] <= 'Z')
    ensures forall i :: 0 <= i < |PackageName(siteName)| ==> !('A' <= PackageName(siteName)[i] <= 'Z')
  {
    LowerCollapse(siteName, "_");
    LowerCollapse(siteName, "-");
    CollapseSpacesNoSpace(ToLower(siteName), "_");
    CollapseSpacesNoSpace(ToLower(siteName), "-");
  }

  const Dependencies: seq<Pair> := [
    Pair("express", "^4.18.2"), Pair("mongoose", "^7.0.0"), Pair("cors", "^2.8.5"),
    Pair("dotenv", "^16.0.3"), Pair("bcryptjs", "^2.4.3"), Pair("jsonwebtoken", "^9.0.0")]

  /** `generatePackageJson(siteName)`: only the name and the description depend on the site. */
  function PackageOf(siteName: string): (p: PackageJson)
    ensures p.name == PackageName(siteName) && p.description == "Generated website - " + siteName
    ensures p.dependencies == Dependencies && p.devDependencies == [Pair("nodemon", "^2.0.22")]
  {
    PackageJson(PackageName(siteName), "1.0.0", "Generated website - " + siteName, "server.js",
      [Pair("start", "node server.js"), Pair("dev", "nodemon server.js")],
      Dependencies, [Pair("nodemon", "^2.0.22")])
  }

  /** `generateServerCode(siteName)`: the database name spliced in, and the contact router always required. */
  function ServerCode(siteName: string): string
  {
    ServerHead + DbName(siteName) + ServerMiddle + ContactRequire + ServerTail
  }

  /** The server connects to the site's database and always requires the contact router. */
  lemma {:induction false} ServerCodeLayout(siteName: string)
    ensures OccursAt(ServerCode(siteName), DbName(siteName), |ServerHead|)
    ensures OccursAt(ServerCode(siteName), ContactRequire, |ServerHead| + |DbName(siteName)| + |ServerMiddle|)
  {
    var db := DbName(siteName);
    var a := ServerHead + db + ServerMiddle;
    StartsSelf(db);
    StartsSelf(ContactRequire);
    OccursInMiddle(ServerHead, db, ServerMiddle, db);
    OccursExtend(a, ContactRequire, db, |ServerHead|);
    OccursExtend(a + ContactRequire, ServerTail, db, |ServerHead|);
    OccursInMiddle(a, ContactRequire, ServerTail, ContactRequire);
  }

  /** `generateEnvTemplate(siteName)`. */
  function EnvTemplate(siteName: string): string
  {
    EnvHead + DbName(siteName) + EnvTail
  }

  /** The environment template names the same database as the server code. */
  lemma {:induction false} EnvTemplateLayout(siteName: string)
    ensures StartsWith(EnvTemplate(siteName), EnvHead)
    ensures OccursAt(EnvTemplate(siteName), DbName(siteName), |EnvHead|)
  {
    var db := DbName(siteName);
    StartsSelf(db);
    OccursInMiddle(EnvHead, db, EnvTail, db);
    StartsSelf(EnvHead);
    StartsConcat(EnvHead, db, EnvHead);
    StartsConcat(EnvHead + db, EnvTail, EnvHead);
  }

  function ContactSource(t: Table): Source
    requires HasContactBackend(t)
  {
    Source("contact", t.find("contactForm", "standard").value.backend.value.route)
  }

  function ContactModelSource(t: Table): Source
    requires HasContactBackend(t)
  {
    Source("Contact", t.find("contactForm", "standard").value.backend.value.model)
  }

  const AuthSource: Source := Source("auth", AuthRoutes)
  const UserSource: Source := Source("User", UserModel)
  const AdminSource: Source := Source("admin", AdminRoutes)

  /** The routes the flags call for, in the order `generateBackend` adds them. */
  function RoutesOf(t: Table, b: Option<seq<Flag>>): seq<Source>
    requires HasContactBackend(t)
  {
    (if FlagOn(b, "contactForm") then [ContactSource(t)] else []) +
    (if FlagOn(b, "authentication") then [AuthSource] else []) +
    (if FlagOn(b, "admin") then [AdminSource] else [])
  }

  function ModelsOf(t: Table, b: Option<seq<Flag>>): seq<Source>
    requires HasContactBackend(t)
  {
    (if FlagOn(b, "contactForm") then [ContactModelSource(t)] else []) +
    (if FlagOn(b, "authentication") then [UserSource] else [])
  }

  method GenerateBackend(t: Table, specs: Specs) returns (code: Backend)
    requires HasContactBackend(t)
    ensures code == Backend(ServerCode(specs.siteName), RoutesOf(t, specs.backend), ModelsOf(t, specs.backend), PackageOf(specs.siteName))
  {
    var routes: seq<Source> := [];
    var models: seq<Source> := [];
    if FlagOn(specs.backend, "contactForm") {
      routes := routes + [ContactSource(t)];
      models := models + [ContactModelSource(t)];
    }
    if FlagOn(specs.backend, "authentication") {
      routes := routes + [AuthSource];
      models := models + [UserSource];
    }
    if FlagOn(specs.backend, "admin") {
      routes := routes + [AdminSource];
    }
    code := Backend(ServerCode(specs.siteName), routes, models, PackageOf(specs.siteName));
  }

  /**
   * Each route and model is there exactly when its flag is on, and the keys follow the
   * order contact, auth, admin.
   */
  lemma {:induction false} BackendFlags(t: Table, b: Option<seq<Flag>>)
    requires HasContactBackend(t)
    ensures ContactSource(t) in RoutesOf(t, b) <==> FlagOn(b, "contactForm")
    ensures AuthSource in RoutesOf(t, b) <==> FlagOn(b, "authentication")
    ensures AdminSource in RoutesOf(t, b) <==> FlagOn(b, "admin")
    ensures ContactModelSource(t) in ModelsOf(t, b) <==> FlagOn(b, "contactForm")
    ensures UserSource in ModelsOf(t, b) <==> FlagOn(b, "authentication")
    ensures forall r :: r in RoutesOf(t, b) ==> r in [ContactSource(t), AuthSource, AdminSource]
    ensures forall m :: m in ModelsOf(t, b) ==> m in [ContactModelSource(t), UserSource]
    ensures |RoutesOf(t, b)| <= 3 && |ModelsOf(t, b)| <= 2
  {
  }

  /** A database schema of `generateDatabaseSchema`. */
  datatype Schema = Schema(name: string, fields: seq<string>)

  const ContactSchema: Schema := Schema("Contact", ["name", "email", "subject", "message", "submittedAt"])
  const UserSchema: Schema := Schema("User", ["email", "password", "name", "role", "createdAt"])

  method GenerateDatabaseSchema(specs: Specs) returns (schemas: seq<Schema>)
    ensures ContactSchema in schemas <==> FlagOn(specs.backend, "contactForm")
    ensures UserSchema in schemas <==> FlagOn(specs.backend, "authentication")
    ensures forall s :: s in schemas ==> s == ContactSchema || s == UserSchema
    ensures |schemas| == 2 ==> schemas == [ContactSchema, UserSchema]
    ensures |schemas| <= 2
  {
    schemas := [];
    if FlagOn(specs.backend, "contactForm") {
      schemas := schemas + [ContactSchema];
    }
    if FlagOn(specs.backend, "authentication") {
      schemas := schemas + [UserSchema];
    }
  }

  /** `parts.map(p => '- ' + p).join('\n')`. */
  function Bullets(parts: seq<string>): (r: string)
    ensures parts == [] <==> r == ""
    ensures parts != [] ==> StartsWith(r, "- ")
  {
    var items := seq(|parts|, i requires 0 <= i < |parts| => "- " + parts[i]);
    JoinStarts(items, "\n", "- ");
    Join(items, "\n")
  }

  /**
   * `Object.keys` of the parsed `backend` object: `JSON.parse` keeps a repeated key once,
   * at the position where it first appears.
   */
  function ObjectKeys(fs: seq<Flag>): (ks: seq<string>)
    ensures forall k :: k in ks <==> exists i :: 0 <= i < |fs| && fs[i].key == k
    ensures Distinct(ks)
    ensures |ks| <= |fs| && (fs == [] <==> ks == [])
    decreases |fs|
  {
    if fs == [] then []
    else
      var front := fs[..|fs| - 1];
      var ks := ObjectKeys(front);
      assert forall i :: 0 <= i < |front| ==> front[i] == fs[i];
      if fs[|fs| - 1].key in ks then ks else ks + [fs[|fs| - 1].key]
  }

  /** A key keeps its place once it has appeared: the keys of a prefix are a prefix of the keys. */
  lemma {:induction false} ObjectKeysPrefix(fs: seq<Flag>, n: nat)
    requires n <= |fs|
    ensures |ObjectKeys(fs[..n])| <= |ObjectKeys(fs)|
    ensures ObjectKeys(fs[..n]) == ObjectKeys(fs)[..|ObjectKeys(fs[..n])|]
    decreases |fs| - n
  {
    if n < |fs| {
      var m := |fs| - 1;
      assert fs[..m][..n] == fs[..n];
      ObjectKeysPrefix(fs[..m], n);
      assert fs[..|fs|] == fs;
    } else {
      assert fs[..n] == fs;
    }
  }

  /** The backend section of the readme: the keys of the `backend` object, or a fixed sentence when it is absent. */
  function BackendSection(b: Option<seq<Flag>>): (r: string)
    ensures r == "No backend features" <==> b.None?
    ensures b.Some? ==> (r == "" <==> b.value == [])
  {
    match b
    case None => "No backend features"
    case Some(fs) =>
      var r := Bullets(ObjectKeys(fs));
      assert r != "No backend features" by {
        if r != "" {
          assert r[0] == '-';
        }
      }
      r
  }

  /** `generateReadme(siteName, specs)`. */
  function Readme(siteName: string, specs: Specs): (r: string)
    ensures StartsWith(r, "# " + siteName)
  {
    var features := match specs.features case None => "" case Some(fs) => Bullets(fs);
    var pages := Bullets(seq(|specs.pages|, i requires 0 <= i < |specs.pages| => specs.pages[i].name + ": " + specs.pages[i].title));
    var rest := ReadmeFeatures + features + ReadmePages + pages + ReadmeBackend + BackendSection(specs.backend) + ReadmeTail;
    StartsSelf(ReadmeHead + siteName);
    StartsConcat(ReadmeHead + siteName, rest, ReadmeHead + siteName);
    ReadmeHead + siteName + rest
  }

  /** The object `generateWebsite` returns. */
  datatype WebsiteCode = WebsiteCode(frontend: seq<PageEntry>, backend: Backend, database: seq<Schema>)

  method GenerateWebsite(t: Table, specs: Specs) returns (code: WebsiteCode)
    requires HasContactBackend(t)
    ensures code.frontend == FrontendOf(t, specs.pages, specs.components, specs.siteName)
    ensures code.backend == Backend(ServerCode(specs.siteName), RoutesOf(t, specs.backend), ModelsOf(t, specs.backend), PackageOf(specs.siteName))
    ensures ContactSchema in code.database <==> FlagOn(specs.backend, "contactForm")
    ensures UserSchema in code.database <==> FlagOn(specs.backend, "authentication")
    ensures forall s :: s in code.database ==> s == ContactSchema || s == UserSchema
    ensures |code.database| == 2 ==> code.database == [ContactSchema, UserSchema]
    ensures |code.database| <= 2
  {
    var frontend := GenerateFrontend(t, specs);
    var backend := GenerateBackend(t, specs);
    var database := GenerateDatabaseSchema(specs);
    code := WebsiteCode(frontend, backend, database);
  }

  // The generated text the generator copies verbatim.
  const ServerHead: string := @"const express = require('express');
const mongoose = require('mongoose');
const cors = require('cors');
const path = require('path');
require('dotenv').config();

const app = express();

// Middleware
app.use(cors());
app.use(express.json());
app.use(express.urlencoded({ extended: true }));

// Serve static files
app.use(express.static(path.join(__dirname, 'public')));
app.use('/css', express.static(path.join(__dirname, 'public/css')));
app.use('/js', express.static(path.join(__dirname, 'public/js')));

// Database connection
mongoose.connect(process.env.MONGODB_URI || 'mongodb://localhost:27017/"
  const ServerMiddle: string := @"', {
  useNewUrlParser: true,
  useUnifiedTopology: true
})
.then(() => console.log('Database connected'))
.catch(err => console.error('Database connection error:', err));

// Routes
"
  const ContactRequire: string := @"const contactRouter = require('./routes/contact');"
  const ServerTail: string := @"
app.use('/api', contactRouter);

// Serve HTML pages
app.get('/', (req, res) => {
  res.sendFile(path.join(__dirname, 'public', 'index.html'));
});

app.get('/:page', (req, res) => {
  const page = req.params.page;
  res.sendFile(path.join(__dirname, 'public', `${page}.html`), (err) => {
    if (err) {
      res.status(404).send('Page not found');
    }
  });
});

const PORT = process.env.PORT || 3000;
app.listen(PORT, () => {
  console.log(`Server running on port ${PORT}`);
});
"
  const AuthRoutes: string := @"const express = require('express');
const router = express.Router();
const bcrypt = require('bcryptjs');
const jwt = require('jsonwebtoken');
const User = require('../models/User');

// Register
router.post('/register', async (req, res) => {
  try {
    const { email, password, name } = req.body;
    
    const existingUser = await User.findOne({ email });
    if (existingUser) {
      return res.status(400).json({ error: 'User already exists' });
    }
    
    const hashedPassword = await bcrypt.hash(password, 10);
    const user = new User({ email, password: hashedPassword, name });
    await user.save();
    
    res.json({ success: true, message: 'User registered successfully' });
  } catch (error) {
    res.status(500).json({ error: 'Registration failed' });
  }
});

// Login
router.post('/login', async (req, res) => {
  try {
    const { email, password } = req.body;
    
    const user = await User.findOne({ email });
    if (!user) {
      return res.status(400).json({ error: 'Invalid credentials' });
    }
    
    const isValid = await bcrypt.compare(password, user.password);
    if (!isValid) {
      return res.status(400).json({ error: 'Invalid credentials' });
    }
    
    const token = jwt.sign({ userId: user._id }, process.env.JWT_SECRET || 'secret', { expiresIn: '7d' });
    res.json({ success: true, token, user: { id: user._id, email: user.email, name: user.name } });
  } catch (error) {
    res.status(500).json({ error: 'Login failed' });
  }
});

module.exports = router;
"
  const UserModel: string := @"const mongoose = require('mongoose');

const userSchema = new mongoose.Schema({
  email: { type: String, required: true, unique: true },
  password: { type: String, required: true },
  name: { type: String, required: true },
  role: { type: String, default: 'user' },
  createdAt: { type: Date, default: Date.now }
});

module.exports = mongoose.model('User', userSchema);
"
  const AdminRoutes: string := @"const express = require('express');
const router = express.Router();
const Contact = require('../models/Contact');

// Middleware to check admin
const isAdmin = (req, res, next) => {
  // Add your admin authentication logic here
  next();
};

// Get all contact submissions
router.get('/contacts', isAdmin, async (req, res) => {
  try {
    const contacts = await Contact.find().sort({ submittedAt: -1 });
    res.json(contacts);
  } catch (error) {
    res.status(500).json({ error: 'Failed to fetch contacts' });
  }
});

// Delete contact submission
router.delete('/contacts/:id', isAdmin, async (req, res) => {
  try {
    await Contact.findByIdAndDelete(req.params.id);
    res.json({ success: true });
  } catch (error) {
    res.status(500).json({ error: 'Failed to delete contact' });
  }
});

module.exports = router;
"
  const EnvHead: string := @"PORT=3000
MONGODB_URI=mongodb://localhost:27017/"
  const EnvTail: string := @"
JWT_SECRET=your_jwt_secret_here
"
  const ReadmeHead: string := @"# "
  const ReadmeFeatures: string := @"

## Generated Website

This website was automatically generated with the following features:
"
  const ReadmePages: string := @"

## Setup Instructions

1. Install dependencies:
```bash
npm install
```

2. Configure environment variables:
   - Copy `.env.example` to `.env`
   - Update MongoDB URI and other settings

3. Start the server:
```bash
npm start
```

4. Open your browser:
   - Navigate to `http://localhost:3000`

## Pages
"
  const ReadmeBackend: string := @"

## Backend Features
"
  const ReadmeTail: string := @"

## Technology Stack
- Frontend: HTML, CSS, JavaScript
- Backend: Node.js, Express
- Database: MongoDB
"
  const DocHead: string := @"<!DOCTYPE html>
<html lang=""en"">
<head>
  <meta charset=""UTF-8"">
  <meta name=""viewport"" content=""width=device-width, initial-scale=1.0"">
  <title>"
  const DocTitleEnd: string := "</title>\n  "
  const CssLinkHead: string := "<link rel=\"stylesheet\" href=\"/css/"
  const CssLinkTail: string := ".css\">"
  const DocTail: string := "\n</head>\n<body>\n"
  const PageClose: string := @"
      </body>
      </html>
    "
}
