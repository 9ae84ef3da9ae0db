/**
 * The preview routes (`routes/preview.js`): a stored site's page is served with its
 * stylesheet inlined, its script's API calls redirected to the preview's echo endpoint
 * and injected before `</body>`, and its links rewritten to stay inside the preview.
 * The database lookup is a parameter: `None` is a site that was not found.
 */
module Preview {
  import opened Wrappers
  import opened Strings
  import opened Template
  import opened Generator
  import opened Content

  /** A stored site as the preview reads it: its files and the page names of its specification. */
  datatype Website = Website(files: seq<VirtualFile>, pageNames: seq<string>)

  /** What a handler sends: the status, the content type and the body. */
  datatype Response = Response(status: nat, contentType: string, body: string)

  function HtmlResponse(status: nat, body: string): Response { Response(status, "text/html", body) }

  predicate IsHexDigit(c: char)
  {
    '0' <= c <= '9' || 'a' <= c <= 'f' || 'A' <= c <= 'F'
  }

  /** `/^[0-9a-fA-F]{24}$/`, the shape of a database id. */
  predicate IsObjectId(id: string)
  {
    |id| == 24 && forall i :: 0 <= i < |id| ==> IsHexDigit(id[i])
  }

  /** `files.find(f => f.path === path)`. */
  function FindFile(files: seq<VirtualFile>, path: string): (r: Option<VirtualFile>)
    ensures r.None? <==> forall i :: 0 <= i < |files| ==> files[i].path != path
    ensures r.Some? ==> r.value in files && r.value.path == path
  {
    if files == [] then None
    else if files[0].path == path then Some(files[0])
    else FindFile(files[1..], path)
  }

  /** The file found is the first with that path. */
  lemma {:induction false} FindFileFirst(files: seq<VirtualFile>, path: string)
    requires FindFile(files, path).Some?
    ensures exists i :: 0 <= i < |files| && files[i] == FindFile(files, path).value &&
                        (forall j :: 0 <= j < i ==> files[j].path != path)
  {
    if files[0].path != path {
      FindFileFirst(files[1..], path);
      var i :| 0 <= i < |files[1..]| && files[1..][i] == FindFile(files[1..], path).value &&
        forall j :: 0 <= j < i ==> files[1..][j].path != path;
      assert files[i + 1] == files[1..][i];
      forall j | 0 <= j < i + 1 ensures files[j].path != path {
        if j > 0 {
          assert files[j] == files[1..][j - 1];
        }
      }
    } else {
      assert files[0] == FindFile(files, path).value;
    }
  }

  // ---------------------------------------------------------------- the rewriting steps

  /** The stylesheet link replaced, its first occurrence only, by the inlined stylesheet. */
  function InlineCss(html: string, name: string, css: Option<VirtualFile>): string
  {
    if css.Some? then ReplaceFirst(html, CssLink(name), "<style>" + css.value.content + "</style>") else html
  }

  const ApiFetch: string := "fetch('/api/"

  function PreviewFetch(id: string): string { "fetch('/preview/" + id + "/api/" }

  /** Every API call of the script redirected to the preview's endpoints. */
  function RewriteFetch(js: string, id: string): string
  {
    ReplaceAll(js, ApiFetch, PreviewFetch(id))
  }

  /** The script placed before the first `</body>`. */
  function InjectScript(html: string, js: string): string
  {
    ReplaceFirst(html, "</body>", "<script>" + js + "</script></body>")
  }

  function PageHref(name: string): string { "href=\"/" + name + "\"" }
  /** A link into the preview, `href="/preview/<id>/<name>"`. */
  function PreviewHref(id: string, name: string): string { HrefRoot + PreviewPath(id, name) }
  function PreviewPath(id: string, name: string): string { "preview/" + id + "/" + name + "\"" }

  /** The `forEach` over the specification's pages: every link to a page is sent into the preview. */
  function PageLinks(html: string, names: seq<string>, id: string): string
    decreases |names|
  {
    if names == [] then html
    else PageLinks(ReplaceAll(html, PageHref(names[0]), PreviewHref(id, names[0])), names[1..], id)
  }

  const HrefRoot: string := "href=\"/"

  /** `href="/preview/<id>/`. */
  function RootPrefix(id: string): string { HrefRoot + "preview/" + id + "/" }

  /**
   * `html.replace(/href="\/(?!")/g, ...)`: every `href="/` whose next character is not a
   * quote (or that ends the text) gets the preview prefix.
   */
  function RootLinks(s: string, id: string): string
    decreases |s|
  {
    if |s| < |HrefRoot| then s
    else if StartsWith(s, HrefRoot) && !(|s| > |HrefRoot| && s[|HrefRoot|] == '"') then
      RootPrefix(id) + RootLinks(s[|HrefRoot|..], id)
    else [s[0]] + RootLinks(s[1..], id)
  }

  /** The steps both page handlers apply, in order, to a page they found. */
  function RewritePage(html: string, name: string, css: Option<VirtualFile>, js: Option<VirtualFile>,
                       names: seq<string>, id: string): string
  {
    var inlined := InlineCss(html, name, css);
    var scripted := if js.Some? then InjectScript(inlined, RewriteFetch(js.value.content, id)) else inlined;
    RootLinks(PageLinks(scripted, names, id), id)
  }

  /** The page route's answer, for a page named `name` and the site the lookup returned. */
  function ServePage(id: string, name: string, site: Option<Website>): Response
  {
    match site
    case None => HtmlResponse(404, "<h1>Website not found</h1>")
    case Some(w) =>
      match FindFile(w.files, HtmlPath(name))
      case None => HtmlResponse(404, "<h1>Page not found</h1>")
      case Some(f) =>
        HtmlResponse(200, RewritePage(f.content, name, FindFile(w.files, CssPath(name)), FindFile(w.files, JsPath(name)), w.pageNames, id))
  }

  /** The index route's answer: the id is checked first, then the index page is served like any page. */
  function ServeIndex(id: string, site: Option<Website>): Response
  {
    if !IsObjectId(id) then HtmlResponse(400, "<h1>Invalid website ID: " + id + "</h1>")
    else
      match site
      case None => HtmlResponse(404, "<h1>Website not found</h1>")
      case Some(w) =>
        match FindFile(w.files, HtmlPath("index"))
        case None => HtmlResponse(404, "<h1>Index page not found</h1>")
        case Some(f) =>
          HtmlResponse(200, RewritePage(f.content, "index", FindFile(w.files, CssPath("index")), FindFile(w.files, JsPath("index")), w.pageNames, id))
  }

  // ---------------------------------------------------------------- the handlers

  /** The rewriting as the handlers run it: `html` (and the script) reassigned step by step. */
  method Rewrite(page: VirtualFile, name: string, css: Option<VirtualFile>, js: Option<VirtualFile>,
                 names: seq<string>, id: string) returns (html: string)
    ensures html == RewritePage(page.content, name, css, js, names, id)
  {
    html := page.content;
    if css.Some? {
      html := ReplaceFirst(html, CssLink(name), "<style>" + css.value.content + "</style>");
    }
    if js.Some? {
      var jsContent := js.value.content;
      jsContent := ReplaceAll(jsContent, ApiFetch, PreviewFetch(id));
      html := ReplaceFirst(html, "</body>", "<script>" + jsContent + "</script></body>");
    }
    ghost var scripted := html;
    var i := 0;
    while i < |names|
      invariant 0 <= i <= |names|
      invariant PageLinks(html, names[i..], id) == PageLinks(scripted, names, id)
    {
      assert names[i..][1..] == names[i + 1..];
      html := ReplaceAll(html, PageHref(names[i]), PreviewHref(id, names[i]));
      i := i + 1;
    }
    assert names[i..] == [];
    html := RootLinks(html, id);
  }

  /** `GET /:id`. */
  method PreviewIndex(id: string, site: Option<Website>) returns (res: Response)
    ensures res == ServeIndex(id, site)
  {
    if !IsObjectId(id) {
      return HtmlResponse(400, "<h1>Invalid website ID: " + id + "</h1>");
    }
    if site.None? {
      return HtmlResponse(404, "<h1>Website not found</h1>");
    }
    var files := site.value.files;
    var indexFile := FindFile(files, HtmlPath("index"));
    if indexFile.None? {
      return HtmlResponse(404, "<h1>Index page not found</h1>");
    }
    var cssFile := FindFile(files, CssPath("index"));
    var jsFile := FindFile(files, JsPath("index"));
    var html := Rewrite(indexFile.value, "index", cssFile, jsFile, site.value.pageNames, id);
    res := HtmlResponse(200, html);
  }

  /** `GET /:id/:page`: no check of the id's shape. */
  method PreviewPage(id: string, name: string, site: Option<Website>) returns (res: Response)
    ensures res == ServePage(id, name, site)
  {
    if site.None? {
      return HtmlResponse(404, "<h1>Website not found</h1>");
    }
    var files := site.value.files;
    var htmlFile := FindFile(files, HtmlPath(name));
    if htmlFile.None? {
      return HtmlResponse(404, "<h1>Page not found</h1>");
    }
    var cssFile := FindFile(files, CssPath(name));
    var jsFile := FindFile(files, JsPath(name));
    var html := Rewrite(htmlFile.value, name, cssFile, jsFile, site.value.pageNames, id);
    res := HtmlResponse(200, html);
  }

  /** `GET /:id/css/:file` and `GET /:id/js/:file`: the stored file under `public/css/` or `public/js/`. */
  function ServeAsset(site: Option<Website>, dir: string, file: string, missing: string, contentType: string): Response
  {
    match site
    case None => Response(404, "text/html", "Not found")
    case Some(w) =>
      match FindFile(w.files, "public/" + dir + "/" + file)
      case None => Response(404, "text/html", missing)
      case Some(f) => Response(200, contentType, f.content)
  }

  function ServeCss(site: Option<Website>, file: string): Response
  {
    ServeAsset(site, "css", file, "CSS file not found", "text/css")
  }

  function ServeJs(site: Option<Website>, file: string): Response
  {
    ServeAsset(site, "js", file, "JS file not found", "application/javascript")
  }

  /** `POST /:id/api/contact`: the submission echoed back, nothing stored. */
  function ContactEcho(body: Value): (r: Record)
    ensures Lookup(r.entries, "data") == Some(body) && Lookup(r.entries, "success") == Some(Bool(true))
  {
    var es := [Entry("success", Bool(true)), Entry("message", Str("Preview mode: Form submission received (not saved)")), Entry("data", body)];
    assert es[1..][1..] == [es[2]];
    Record(es)
  }

  // ---------------------------------------------------------------- properties

  /**
   * The asset routes answer 200 with the stored file, under its own content type, exactly
   * when the site exists and holds `public/css/<file>` (or `public/js/<file>`); otherwise 404.
   */
  lemma {:induction false} AssetLookup(site: Option<Website>, file: string)
    ensures var r := ServeCss(site, file);
      (r.status == 200 <==> site.Some? && FindFile(site.value.files, "public/css/" + file).Some?) &&
      (r.status != 200 ==> r.status == 404) &&
      (r.status == 200 ==> r.contentType == "text/css" && r.body == FindFile(site.value.files, "public/css/" + file).value.content)
    ensures var r := ServeJs(site, file);
      (r.status == 200 <==> site.Some? && FindFile(site.value.files, "public/js/" + file).Some?) &&
      (r.status != 200 ==> r.status == 404) &&
      (r.status == 200 ==> r.contentType == "application/javascript" && r.body == FindFile(site.value.files, "public/js/" + file).value.content)
  {
    assert "public/" + "css" + "/" + file == "public/css/" + file;
    assert "public/" + "js" + "/" + file == "public/js/" + file;
  }

  /** The index route rejects a malformed id with 400 before the site is looked at. */
  lemma {:induction false} IndexChecksId(id: string, s1: Option<Website>, s2: Option<Website>)
    ensures ServeIndex(id, s1).status == 400 <==> !IsObjectId(id)
    ensures !IsObjectId(id) ==> ServeIndex(id, s1) == ServeIndex(id, s2)
  {
  }

  /** A missing site or page is a 404 answer, never anything else; a found page is a 200. */
  lemma {:induction false} PageNotFound(id: string, name: string, site: Option<Website>)
    ensures ServePage(id, name, site).status == 404 <==> site.None? || FindFile(site.value.files, HtmlPath(name)).None?
    ensures ServePage(id, name, site).status != 404 ==> ServePage(id, name, site).status == 200
  {
  }

  /** The index route is the page route for `index`, once the id is well formed, up to the wording of the not-found page. */
  lemma {:induction false} IndexIsPage(id: string, site: Option<Website>)
    requires IsObjectId(id)
    ensures ServeIndex(id, site).status == ServePage(id, "index", site).status
    ensures ServeIndex(id, site).status == 200 ==> ServeIndex(id, site) == ServePage(id, "index", site)
  {
  }

  /** Text without `href="/` is left alone by the root pass. */
  lemma {:induction false} RootLinksAbsent(s: string, id: string)
    requires !Contains(s, HrefRoot)
    ensures RootLinks(s, id) == s
    decreases |s|
  {
    if |s| >= |HrefRoot| {
      assert s[0..] == s;
      assert !OccursAt(s, HrefRoot, 0);
      assert !Contains(s[1..], HrefRoot) by {
        forall i: nat ensures !OccursAt(s[1..], HrefRoot, i) {
          if i <= |s[1..]| {
            assert s[1..][i..] == s[i + 1..];
            assert !OccursAt(s, HrefRoot, i + 1);
          }
        }
      }
      RootLinksAbsent(s[1..], id);
    }
  }

  /** A root link followed by anything but a quote gets the prefix; the rest is scanned on. */
  lemma {:induction false} RootLinksHead(t: string, id: string)
    requires t == [] || t[0] != '"'
    ensures RootLinks(HrefRoot + t, id) == RootPrefix(id) + RootLinks(t, id)
  {
    var s := HrefRoot + t;
    assert s[..|HrefRoot|] == HrefRoot;
    assert s[|HrefRoot|..] == t;
  }

  /** The root pass rewrites the occurrence at `k`. */
  predicate Rewritten(s: string, k: nat)
  {
    OccursAt(s, HrefRoot, k) && !(k + |HrefRoot| < |s| && s[k + |HrefRoot|] == '"')
  }

  /** Text too short for `href="/` is copied. */
  lemma {:induction false} RootLinksShort(s: string, id: string)
    requires |s| < |HrefRoot|
    ensures RootLinks(s, id) == s
  {
  }

  /** Where no rewriting begins, the first character is copied. */
  lemma {:induction false} RootLinksStep(s: string, id: string)
    requires |s| >= |HrefRoot| && !Rewritten(s, 0)
    ensures RootLinks(s, id) == [s[0]] + RootLinks(s[1..], id)
  {
    assert s[0..] == s;
  }

  /** Whether the occurrence at `k + 1` is rewritten does not depend on the first character. */
  lemma {:induction false} RewrittenTail(s: string, k: nat)
    requires k + 1 <= |s|
    ensures Rewritten(s, k + 1) <==> Rewritten(s[1..], k)
  {
    assert s[k + 1..] == s[1..][k..];
  }

  /** No rewritten occurrence begins inside `x`, hence none inside its tail either. */
  lemma {:induction false} SkipTail(x: string, y: string)
    requires x != []
    requires forall k :: 0 <= k < |x| ==> !Rewritten(x + y, k)
    ensures forall k :: 0 <= k < |x| - 1 ==> !Rewritten(x[1..] + y, k)
  {
    var s := x + y;
    assert s[1..] == x[1..] + y;
    forall k | 0 <= k < |x| - 1 ensures !Rewritten(x[1..] + y, k) {
      RewrittenTail(s, k);
    }
  }

  /** One step of the skip: the first character of `x` is copied when no rewriting begins there. */
  lemma {:induction false} SkipStep(x: string, y: string, id: string)
    requires x != [] && |x + y| >= |HrefRoot| && !Rewritten(x + y, 0)
    requires RootLinks(x[1..] + y, id) == x[1..] + RootLinks(y, id)
    ensures RootLinks(x + y, id) == x + RootLinks(y, id)
  {
    var s := x + y;
    RootLinksStep(s, id);
    assert s[1..] == x[1..] + y;
    assert s[0] == x[0];
    assert [x[0]] + x[1..] == x;
  }

  /** No rewritten occurrence begins inside `x`: it is copied, and the pass goes on in `y`. */
  lemma {:induction false} RootLinksSkip(x: string, y: string, id: string)
    requires forall k :: 0 <= k < |x| ==> !Rewritten(x + y, k)
    ensures RootLinks(x + y, id) == x + RootLinks(y, id)
    decreases |x|
  {
    if x != [] {
      if |x + y| < |HrefRoot| {
        RootLinksShort(x + y, id);
        RootLinksShort(y, id);
      } else {
        SkipTail(x, y);
        RootLinksSkip(x[1..], y, id);
        assert !Rewritten(x + y, 0);
        SkipStep(x, y, id);
      }
    } else {
      assert x + y == y;
      assert x + RootLinks(y, id) == RootLinks(y, id);
    }
  }

  /** `href="/"` itself, the index page's link, is never rewritten. */
  lemma {:induction false} RootLinkKept(t: string, id: string)
    ensures RootLinks("href=\"/\"" + t, id) == "href=\"/\"" + RootLinks(t, id)
  {
    var x := "href=\"/\"";
    var s := x + t;
    forall k | 0 <= k < |x| ensures !Rewritten(s, k) {
      if k > 0 {
        assert s[k..][0] == x[k] != 'h';
      } else {
        assert s[7] == '"';
      }
    }
    RootLinksSkip(x, t, id);
  }

  /** A script call `fetch('/api/...` is redirected to the preview's own API route. */
  lemma {:induction false} FetchRewritten(t: string, id: string)
    requires !Contains(t, ApiFetch)
    ensures RewriteFetch(ApiFetch + t, id) == PreviewFetch(id) + t
  {
    ReplaceAllHead(ApiFetch, t, PreviewFetch(id));
    ReplaceAbsent(t, ApiFetch, PreviewFetch(id));
  }

  /**
   * The `/g` flag: every API call is redirected, not just the first. Text where no call
   * begins is copied, the next call is redirected, and the rewriting goes on after it.
   */
  lemma {:induction false} FetchEvery(x: string, y: string, id: string)
    requires NoneStartIn(x, ApiFetch + y, ApiFetch)
    ensures RewriteFetch(x + ApiFetch + y, id) == x + PreviewFetch(id) + RewriteFetch(y, id)
  {
    assert x + ApiFetch + y == x + (ApiFetch + y);
    ReplaceAllSkip(x, ApiFetch + y, ApiFetch, PreviewFetch(id));
    ReplaceAllHead(ApiFetch, y, PreviewFetch(id));
  }

  /** The same for the links to one page: each `href="/<name>"` in turn is sent into the preview. */
  lemma {:induction false} PageLinkEvery(x: string, y: string, name: string, id: string)
    requires NoneStartIn(x, PageHref(name) + y, PageHref(name))
    ensures PageLinks(x + PageHref(name) + y, [name], id) == x + PreviewHref(id, name) + PageLinks(y, [name], id)
  {
    assert x + PageHref(name) + y == x + (PageHref(name) + y);
    ReplaceAllSkip(x, PageHref(name) + y, PageHref(name), PreviewHref(id, name));
    ReplaceAllHead(PageHref(name), y, PreviewHref(id, name));
    assert [name][1..] == [];
  }

  /** An absolute `href="https://` link is left alone by the root pass. */
  lemma {:induction false} ExternalLinkKept(t: string, id: string)
    ensures RootLinks("href=\"https://" + t, id) == "href=\"https://" + RootLinks(t, id)
  {
    var x := "href=\"https://";
    var s := x + t;
    forall k | 0 <= k < |x| ensures !Rewritten(s, k) {
      if k == 0 {
        assert s[k..][6] == 'h' != HrefRoot[6];
      } else if k == 6 {
        assert s[k..][1] == 't' != HrefRoot[1];
      } else {
        assert s[k..][0] == x[k] != 'h';
      }
    }
    RootLinksSkip(x, t, id);
  }

  /** A link the page pass already sent into the preview is prefixed a second time. */
  lemma {:induction false} RootLinksDoublePrefix(id: string, name: string)
    requires '"' !in id && '"' !in name
    ensures RootLinks(PreviewHref(id, name), id) == RootPrefix(id) + PreviewPath(id, name)
  {
    var u := "preview/" + id + "/" + name;
    RootLinksHead(PreviewPath(id, name), id);
    QuoteOnlyAtEnd(u);
    RootLinksAbsent(u + "\"", id);
  }

  /** Text whose only quote is its last character holds no `href="/`. */
  lemma {:induction false} QuoteOnlyAtEnd(u: string)
    requires '"' !in u
    ensures !Contains(u + "\"", HrefRoot)
  {
    var t := u + "\"";
    forall i: nat ensures !OccursAt(t, HrefRoot, i) {
      if i + |HrefRoot| <= |t| {
        assert t[i + 5] == u[i + 5];
        assert u[i + 5] in u;
        assert t[i..][..|HrefRoot|][5] != HrefRoot[5];
      }
    }
  }

  /** A quote followed by `>` does not begin a root link. */
  lemma {:induction false} QuoteThenGt(u: string)
    requires '"' !in u
    ensures !Contains(u + "\">", HrefRoot)
  {
    var t := u + "\">";
    forall i: nat ensures !OccursAt(t, HrefRoot, i) {
      if i + |HrefRoot| <= |t| {
        if i + 5 < |u| {
          assert t[i + 5] == u[i + 5];
          assert u[i + 5] in u;
          assert t[i..][..|HrefRoot|][5] != HrefRoot[5];
        } else {
          assert t[i + 6] == '>';
          assert t[i..][..|HrefRoot|][6] != HrefRoot[6];
        }
      }
    }
  }

  const LinkRel: string := "<link rel=\"stylesheet\" "

  /** The text before a stylesheet link's `href` holds no root link. */
  lemma {:induction false} LinkRelSkip(t: string, id: string)
    ensures RootLinks(LinkRel + t, id) == LinkRel + RootLinks(t, id)
  {
    var s := LinkRel + t;
    forall k | 0 <= k < |LinkRel| ensures !Rewritten(s, k) {
      if k == 17 {
        assert s[k..][1] == 'e' != HrefRoot[1];
      } else {
        assert s[k..][0] == LinkRel[k] != 'h';
      }
    }
    RootLinksSkip(LinkRel, t, id);
  }

  /** A link tag whose `href` is a root link followed by quote-free text. */
  lemma {:induction false} RootLinksLinkTag(u: string, id: string)
    requires u != [] && '"' !in u
    ensures RootLinks(LinkRel + (HrefRoot + (u + "\">")), id) == LinkRel + (RootPrefix(id) + (u + "\">"))
  {
    var rest := u + "\">";
    assert rest[0] == u[0] && u[0] in u;
    LinkRelSkip(HrefRoot + rest, id);
    RootLinksHead(rest, id);
    QuoteThenGt(u);
    RootLinksAbsent(rest, id);
  }

  /**
   * A stylesheet link left in the page (no CSS file was found) is itself a root link:
   * it comes out pointing into the preview, at `/preview/<id>/css/<name>.css`.
   */
  lemma {:induction false} LeftoverCssLink(name: string, id: string)
    requires '"' !in name
    ensures RootLinks(CssLink(name), id) == LinkRel + (RootPrefix(id) + ("css/" + name + ".css\">"))
  {
    var u := "css/" + name + ".css";
    CssLinkParts(name);
    assert u[0] == 'c' && '"' !in u;
    RootLinksLinkTag(u, id);
    assert u + "\">" == "css/" + name + ".css\">";
  }

  lemma {:induction false} CssLinkParts(name: string)
    ensures CssLink(name) == LinkRel + (HrefRoot + (("css/" + name + ".css") + "\">"))
  {
    assert CssLinkHead == LinkRel + HrefRoot + "css/";
  }

  /** With no empty page name, the page pass leaves `href="/"` alone. */
  lemma {:induction false} PageLinksKeepRoot(t: string, names: seq<string>, id: string)
    requires forall i :: 0 <= i < |names| ==> names[i] != ""
    ensures PageLinks("href=\"/\"", names, id) == "href=\"/\""
    decreases |names|
  {
    if names != [] {
      assert |PageHref(names[0])| > 8;
      PageLinksKeepRoot(t, names[1..], id);
    }
  }

  /**
   * The preview's link rewriting end to end, for the index page's link: with no empty
   * page name, `href="/"` survives both passes untouched.
   */
  lemma {:induction false} IndexLinkKept(id: string, names: seq<string>)
    requires forall i :: 0 <= i < |names| ==> names[i] != ""
    ensures RootLinks(PageLinks("href=\"/\"", names, id), id) == "href=\"/\""
  {
    PageLinksKeepRoot([], names, id);
    RootLinkKept([], id);
    assert "href=\"/\"" + [] == "href=\"/\"";
  }

  /**
   * The preview's link rewriting end to end, for a link to another page: `href="/<name>"`,
   * as the navigation writes it, comes out with the preview prefix twice.
   */
  lemma {:induction false} LinkRewriting(id: string, name: string)
    requires '"' !in id && '"' !in name && name != "index"
    ensures PageHref(name) == "href=\"" + LinkHref(name) + "\""
    ensures RootLinks(PageLinks(PageHref(name), [name], id), id) ==
      RootPrefix(id) + PreviewPath(id, name)
  {
    ReplaceAllHead(PageHref(name), [], PreviewHref(id, name));
    assert PageHref(name) + [] == PageHref(name);
    assert PreviewHref(id, name) + [] == PreviewHref(id, name);
    assert PageLinks(PageHref(name), [name], id) == PageLinks(PreviewHref(id, name), [], id);
    RootLinksDoublePrefix(id, name);
  }

  // ---------------------------------------------------------------- the preview of a generated site

  lemma {:induction false} FindFileAppend(a: seq<VirtualFile>, b: seq<VirtualFile>, path: string)
    ensures FindFile(a + b, path) == if FindFile(a, path).Some? then FindFile(a, path) else FindFile(b, path)
    decreases |a|
  {
    if a != [] {
      assert (a + b)[1..] == a[1..] + b;
      FindFileAppend(a[1..], b, path);
    } else {
      assert a + b == b;
    }
  }

  /** A lookup of a `public/` path never reaches the files after the pages. */
  lemma {:induction false} BackendFilesNotPublic(code: WebsiteCode, closing: seq<VirtualFile>, path: string)
    requires forall j :: 0 <= j < |closing| ==> !StartsWith(closing[j].path, "public/")
    requires StartsWith(path, "public/")
    ensures FindFile(BackendFiles(code, closing), path).None?
  {
    PublicFiles(code, closing);
  }

  /**
   * Whatever the closing files are, as long as they sit outside `public/`, a lookup of a
   * page's markup or script in the generated list finds the generator's own.
   */
  lemma {:induction false} PageLookup(code: WebsiteCode, closing: seq<VirtualFile>, n: string)
    requires forall j :: 0 <= j < |closing| ==> !StartsWith(closing[j].path, "public/")
    ensures var fs := FrontendFiles(code.frontend) + BackendFiles(code, closing);
      FindFile(fs, HtmlPath(n)).Some? <==> exists k :: 0 <= k < |code.frontend| && code.frontend[k].name == n
    ensures var fs := FrontendFiles(code.frontend) + BackendFiles(code, closing);
      FindFile(fs, JsPath(n)).Some? <==>
        exists k :: 0 <= k < |code.frontend| && code.frontend[k].name == n && code.frontend[k].code.js != ""
  {
    var front, rest := FrontendFiles(code.frontend), BackendFiles(code, closing);
    PagePathsPublic(n);
    FindFileAppend(front, rest, HtmlPath(n));
    FindFileAppend(front, rest, JsPath(n));
    BackendFilesNotPublic(code, closing, HtmlPath(n));
    BackendFilesNotPublic(code, closing, JsPath(n));
    if FindFile(front, HtmlPath(n)).Some? {
      FrontendHtmlFiles(code.frontend, n, FindFile(front, HtmlPath(n)).value.content);
    }
    if exists k :: 0 <= k < |code.frontend| && code.frontend[k].name == n {
      var k :| 0 <= k < |code.frontend| && code.frontend[k].name == n;
      FrontendHtmlFiles(code.frontend, n, code.frontend[k].code.html);
    }
    if FindFile(front, JsPath(n)).Some? {
      FrontendJsFiles(code.frontend, n, FindFile(front, JsPath(n)).value.content);
    }
    if exists k :: 0 <= k < |code.frontend| && code.frontend[k].name == n && code.frontend[k].code.js != "" {
      var k :| 0 <= k < |code.frontend| && code.frontend[k].name == n && code.frontend[k].code.js != "";
      FrontendJsFiles(code.frontend, n, code.frontend[k].code.js);
    }
  }

  /**
   * On a stored generated site the preview finds a page's markup exactly when the
   * generator produced a page of that name, and its script exactly when that page has a
   * non-empty one.
   */
  lemma {:induction false} PreviewFindsGeneratedPages(code: WebsiteCode, specs: Specs, n: string)
    ensures FindFile(FileStructure(code, specs), HtmlPath(n)).Some? <==>
      exists k :: 0 <= k < |code.frontend| && code.frontend[k].name == n
    ensures FindFile(FileStructure(code, specs), JsPath(n)).Some? <==>
      exists k :: 0 <= k < |code.frontend| && code.frontend[k].name == n && code.frontend[k].code.js != ""
  {
    ClosingNotPublic(code, specs);
    PageLookup(code, ClosingFiles(code, specs), n);
  }

  /** The page route serves a stored generated site's page exactly when the generator made it. */
  lemma {:induction false} ServeGeneratedPage(id: string, n: string, code: WebsiteCode, specs: Specs, names: seq<string>)
    ensures ServePage(id, n, Some(Website(FileStructure(code, specs), names))).status == 200 <==>
      exists k :: 0 <= k < |code.frontend| && code.frontend[k].name == n
  {
    PreviewFindsGeneratedPages(code, specs, n);
  }
}
