/**
 * The website routes of the generator's API (`/api/website`): the check of the user's
 * description before anything is generated, the stored site's page preview (the CSS and
 * the script inlined, nothing else rewritten), and saving a stored site under a
 * sanitised project directory.
 */
module GenerateRoute {
  import opened Wrappers
  import opened Strings
  import opened Template
  import opened Generator
  import opened Content
  import opened Preview

  /** What a route sends: a JSON object with a status, or markup with status 200. */
  datatype Reply =
    | Json(status: nat, body: Record)
    | Sent(html: string)

  function ErrorReply(status: nat, message: string): Reply
  {
    Json(status, Record([Entry("error", Str(message))]))
  }

  // ---------------------------------------------------------------- POST /generate

  /**
   * The guard of `POST /generate`: a missing description, or one that is empty or only
   * white space, is answered with 400 before anything is generated.
   */
  function ValidateInput(userInput: Option<string>): (r: Option<Reply>)
    ensures r.Some? <==> userInput.None? || IsBlank(userInput.value)
    ensures r.Some? ==> r.value == ErrorReply(400, "Please provide a website description")
  {
    if userInput.None? || userInput.value == "" then Some(ErrorReply(400, "Please provide a website description"))
    else
      TrimEmptyIff(userInput.value);
      if |Trim(userInput.value)| == 0 then Some(ErrorReply(400, "Please provide a website description")) else None
  }

  // ---------------------------------------------------------------- GET /:id/preview/:page

  /** The stored page with its CSS file inlined and its script placed before `</body>`, verbatim. */
  function InlinedPage(html: string, name: string, css: Option<VirtualFile>, js: Option<VirtualFile>): string
  {
    var inlined := InlineCss(html, name, css);
    if js.Some? then InjectScript(inlined, js.value.content) else inlined
  }

  /** The answer of `GET /:id/preview/:page` for the stored files the lookup returned. */
  function ServeStoredPage(name: string, files: Option<seq<VirtualFile>>): Reply
  {
    match files
    case None => ErrorReply(404, "Website not found")
    case Some(fs) =>
      match FindFile(fs, HtmlPath(name))
      case None => ErrorReply(404, "Page not found")
      case Some(f) => Sent(InlinedPage(f.content, name, FindFile(fs, CssPath(name)), FindFile(fs, JsPath(name))))
  }

  /** The handler: the page's markup reassigned once per asset found. */
  method PreviewStoredPage(name: string, files: Option<seq<VirtualFile>>) returns (reply: Reply)
    ensures reply == ServeStoredPage(name, files)
  {
    if files.None? {
      return ErrorReply(404, "Website not found");
    }
    var htmlFile := FindFile(files.value, HtmlPath(name));
    var cssFile := FindFile(files.value, CssPath(name));
    var jsFile := FindFile(files.value, JsPath(name));
    if htmlFile.None? {
      return ErrorReply(404, "Page not found");
    }
    var html := htmlFile.value.content;
    if cssFile.Some? {
      html := ReplaceFirst(html, CssLink(name), "<style>" + cssFile.value.content + "</style>");
    }
    if jsFile.Some? {
      html := ReplaceFirst(html, "</body>", "<script>" + jsFile.value.content + "</script></body>");
    }
    reply := Sent(html);
  }

  /** The route answers with markup exactly when the site and its page exist, and with 404 otherwise. */
  lemma {:induction false} StoredPageNotFound(name: string, files: Option<seq<VirtualFile>>)
    ensures ServeStoredPage(name, files).Sent? <==> files.Some? && FindFile(files.value, HtmlPath(name)).Some?
    ensures ServeStoredPage(name, files).Json? ==> ServeStoredPage(name, files).status == 404
  {
  }

  /** The CSS file's style element takes the place of the first exact link tag. */
  lemma {:induction false} InlinedStyle(html: string, name: string, css: VirtualFile)
    requires IndexOf(html, CssLink(name)).Some?
    ensures var i := IndexOf(html, CssLink(name)).value;
      InlineCss(html, name, Some(css)) == html[..i] + ("<style>" + css.content + "</style>") + html[i + |CssLink(name)|..]
  {
    ReplaceFirstSplit(html, CssLink(name), "<style>" + css.content + "</style>");
  }

  /** The script element goes in front of the first `</body>` of the markup with its style inlined. */
  lemma {:induction false} InlinedScript(html: string, name: string, css: Option<VirtualFile>, js: VirtualFile)
    requires IndexOf(InlineCss(html, name, css), "</body>").Some?
    ensures var t := InlineCss(html, name, css); var j := IndexOf(t, "</body>").value;
      InlinedPage(html, name, css, Some(js)) == t[..j] + ("<script>" + js.content + "</script></body>") + t[j + 7..]
  {
    ReplaceFirstSplit(InlineCss(html, name, css), "</body>", "<script>" + js.content + "</script></body>");
  }

  /** Text without `href="/` holds no page link either, so the page pass leaves it alone. */
  lemma {:induction false} PageLinksAbsent(s: string, names: seq<string>, id: string)
    requires !Contains(s, HrefRoot)
    ensures PageLinks(s, names, id) == s
    decreases |names|
  {
    if names != [] {
      assert StartsWith(PageHref(names[0]), HrefRoot) by {
        assert PageHref(names[0]) == HrefRoot + (names[0] + "\"");
        StartsSelf(HrefRoot);
        StartsConcat(HrefRoot, names[0] + "\"", HrefRoot);
      }
      if Contains(s, PageHref(names[0])) {
        ContainsPrefix(s, PageHref(names[0]), HrefRoot);
      }
      ReplaceAbsent(s, PageHref(names[0]), PreviewHref(id, names[0]));
      PageLinksAbsent(s, names[1..], id);
    }
  }

  /**
   * This route differs from the preview router only by what it does not rewrite: on a
   * page whose script makes no API call and whose inlined markup has no root-relative
   * link, both serve the same markup.
   */
  lemma {:induction false} StoredPreviewAgrees(html: string, name: string, css: Option<VirtualFile>, js: Option<VirtualFile>,
                                               names: seq<string>, id: string)
    requires js.Some? ==> !Contains(js.value.content, ApiFetch)
    requires !Contains(InlinedPage(html, name, css, js), HrefRoot)
    ensures RewritePage(html, name, css, js, names, id) == InlinedPage(html, name, css, js)
  {
    if js.Some? {
      ReplaceAbsent(js.value.content, ApiFetch, PreviewFetch(id));
    }
    var out := InlinedPage(html, name, css, js);
    PageLinksAbsent(out, names, id);
    RootLinksAbsent(out, id);
  }

  // ---------------------------------------------------------------- POST /:id/save

  predicate IsAsciiAlnum(c: char)
  {
    'a' <= c <= 'z' || 'A' <= c <= 'Z' || '0' <= c <= '9'
  }

  /** The UTF-16 code units JavaScript stores for `c`: two (a surrogate pair) above U+FFFF. */
  function Utf16Units(c: char): nat
  {
    if c as int > 0xFFFF then 2 else 1
  }

  /** The `length` JavaScript reports for `s`. */
  function Utf16Length(s: string): nat
    decreases |s|
  {
    if s == [] then 0 else Utf16Units(s[0]) + Utf16Length(s[1..])
  }

  /** No character of `s` lies above U+FFFF, so code points and code units coincide. */
  predicate InBmp(s: string)
  {
    forall i :: 0 <= i < |s| ==> s[i] as int <= 0xFFFF
  }

  /** What the pattern leaves of one character: itself, or one `_` per code unit. */
  function UnderscoreChar(c: char): string
  {
    if IsAsciiAlnum(c) then [c] else if Utf16Units(c) == 2 then "__" else "_"
  }

  /**
   * `replace(/[^a-z0-9]/gi, '_')`. Without the `u` flag the pattern runs over code units,
   * so each half of a surrogate pair is replaced on its own.
   */
  function Underscored(s: string): (t: string)
    ensures |t| == Utf16Length(s)
    ensures forall i :: 0 <= i < |t| ==> IsAsciiAlnum(t[i]) || t[i] == '_'
    ensures InBmp(s) ==> |t| == |s| && forall i :: 0 <= i < |s| ==> t[i] == if IsAsciiAlnum(s[i]) then s[i] else '_'
    decreases |s|
  {
    if s == [] then [] else UnderscoreChar(s[0]) + Underscored(s[1..])
  }

  /**
   * The project directory's name: the site name with every non-alphanumeric code unit
   * replaced by `_`, lower-cased.
   */
  function ProjectName(siteName: string): (r: string)
    ensures |r| == Utf16Length(siteName)
    ensures forall i :: 0 <= i < |r| ==> 'a' <= r[i] <= 'z' || '0' <= r[i] <= '9' || r[i] == '_'
    ensures InBmp(siteName) ==> |r| == |siteName| && forall i :: 0 <= i < |r| ==>
      (r[i] == '_' <==> !IsAsciiAlnum(siteName[i])) && (IsAsciiAlnum(siteName[i]) ==> r[i] == LowerChar(siteName[i]))
  {
    ToLower(Underscored(siteName))
  }

  lemma {:induction false} ProjectNameCons(c: char, rest: string)
    ensures ProjectName([c] + rest) == ToLower(UnderscoreChar(c)) + ProjectName(rest)
  {
    assert ([c] + rest)[1..] == rest;
    ToLowerConcat(UnderscoreChar(c), Underscored(rest));
  }

  /** A character above U+FFFF turns into two underscores, one below it into one. */
  lemma {:induction false} SupplementaryTwoUnits(c: char, d: char)
    requires c as int > 0xFFFF && d as int <= 0xFFFF && !IsAsciiAlnum(d)
    ensures ProjectName([c]) == "__" && ProjectName([d]) == "_"
  {
    ProjectNameCons(c, "");
    ProjectNameCons(d, "");
    assert [c] + "" == [c] && [d] + "" == [d];
  }

  /** So `"a🚀"` and `"a!"` get different directories, `a__` and `a_`. */
  lemma {:induction false} EmojiKeepsItsDirectory()
    ensures ProjectName("a\U{1F680}") == "a__" && ProjectName("a!") == "a_"
  {
    SupplementaryTwoUnits('\U{1F680}', '!');
    ProjectNameCons('a', "\U{1F680}");
    ProjectNameCons('a', "!");
    assert ['a'] + "\U{1F680}" == "a\U{1F680}" && ['a'] + "!" == "a!";
  }

  /** A sanitised name sanitises to itself. */
  lemma {:induction false} ProjectNameIdempotent(siteName: string)
    ensures ProjectName(ProjectName(siteName)) == ProjectName(siteName)
  {
    var p := ProjectName(siteName);
    assert InBmp(p);
    assert Underscored(p) == p;
    ToLowerIdempotent(Underscored(siteName));
  }

  /**
   * Names that differ only in letter case, or in which non-alphanumerics they hold where
   * those take as many code units, share a directory.
   */
  lemma {:induction false} ProjectNameCollides(a: string, b: string)
    requires |a| == |b|
    requires forall i :: 0 <= i < |a| ==> (IsAsciiAlnum(a[i]) <==> IsAsciiAlnum(b[i]))
    requires forall i :: 0 <= i < |a| && IsAsciiAlnum(a[i]) ==> LowerChar(a[i]) == LowerChar(b[i])
    requires forall i :: 0 <= i < |a| && !IsAsciiAlnum(a[i]) ==> Utf16Units(a[i]) == Utf16Units(b[i])
    ensures ProjectName(a) == ProjectName(b)
    decreases |a|
  {
    if a != [] {
      ProjectNameCollides(a[1..], b[1..]);
      assert a == [a[0]] + a[1..] && b == [b[0]] + b[1..];
      ProjectNameCons(a[0], a[1..]);
      ProjectNameCons(b[0], b[1..]);
      assert ToLower(UnderscoreChar(a[0])) == ToLower(UnderscoreChar(b[0]));
    }
  }

  /**
   * The project name holds no separator and no dot, so a non-empty one names a direct child
   * of the projects directory; an empty site name gives the empty project name, and then
   * `path.join` gives the projects directory itself.
   */
  lemma {:induction false} ProjectNameSafe(siteName: string)
    ensures '/' !in ProjectName(siteName) && '.' !in ProjectName(siteName)
    ensures ProjectName(siteName) == "" <==> siteName == ""
  {
  }

  /**
   * A relative path that `path.join` leaves as it is: non-empty, not absolute, and with no
   * empty, `.` or `..` segment. Only for such a name is `path.join(dir, name)` the text
   * `dir/name`.
   */
  ghost predicate PlainPath(p: string)
  {
    var q := "/" + p + "/";
    p != "" && !Contains(q, "//") && !Contains(q, "/./") && !Contains(q, "/../")
  }

  /**
   * Page names come from the language model unchecked, so a page named `../../x` is stored
   * as `public/../../x.html`, which is not plain: `path.join` resolves it two levels up,
   * outside the project directory.
   */
  lemma {:induction false} TraversalPagePath()
    ensures HtmlPath("../../x") == "public/../../x.html"
    ensures !PlainPath(HtmlPath("../../x"))
  {
    var q := "/" + HtmlPath("../../x") + "/";
    assert q[7..][..4] == "/../";
    assert OccursAt(q, "/../", 7);
  }

  /** `path.join(dir, name)`, read as `dir/name`: the reading that holds for a plain `name`. */
  function JoinPath(dir: string, name: string): (p: string)
    ensures name != "" ==> |p| == |dir| + 1 + |name| && p[..|dir|] == dir && p[|dir|] == '/' && p[|dir| + 1..] == name
    ensures name == "" ==> p == dir
  {
    if name == "" then dir else dir + "/" + name
  }

  /** Plain names joined to one directory give one path only when they are one name. */
  lemma {:induction false} JoinPathInjective(dir: string, a: string, b: string)
    requires PlainPath(a) && PlainPath(b)
    ensures JoinPath(dir, a) == JoinPath(dir, b) <==> a == b
  {
    if JoinPath(dir, a) == JoinPath(dir, b) {
      assert a == JoinPath(dir, a)[|dir| + 1..];
    }
  }

  /** The directories made before any file is written, in order. */
  function SaveDirs(root: string): (ds: seq<string>)
    ensures |ds| == 6 && ds[0] == root
    ensures forall i :: 1 <= i < 6 ==> StartsWith(ds[i], root + "/")
  {
    [root, JoinPath(root, "public"), JoinPath(root, "public/css"), JoinPath(root, "public/js"),
     JoinPath(root, "routes"), JoinPath(root, "models")]
  }

  /** The files as they land on disk, in the stored order. */
  function Written(root: string, files: seq<VirtualFile>): (w: seq<VirtualFile>)
    ensures |w| == |files|
    ensures forall i :: 0 <= i < |files| ==> w[i].content == files[i].content
    ensures forall i :: 0 <= i < |files| && PlainPath(files[i].path) ==> StartsWith(w[i].path, root + "/")
    decreases |files|
  {
    if files == [] then []
    else Written(root, files[..|files| - 1]) + [VirtualFile(JoinPath(root, files[|files| - 1].path), files[|files| - 1].content)]
  }

  lemma {:induction false} WrittenPath(root: string, files: seq<VirtualFile>, i: nat)
    requires i < |files|
    ensures Written(root, files)[i].path == JoinPath(root, files[i].path)
    decreases |files|
  {
    if i < |files| - 1 {
      WrittenPath(root, files[..|files| - 1], i);
    }
  }

  /** Stored files with distinct plain paths land in distinct places: no write overwrites another. */
  lemma {:induction false} WrittenDistinct(root: string, files: seq<VirtualFile>)
    requires forall i :: 0 <= i < |files| ==> PlainPath(files[i].path)
    requires forall i, j :: 0 <= i < j < |files| ==> files[i].path != files[j].path
    ensures forall i, j :: 0 <= i < j < |files| ==> Written(root, files)[i].path != Written(root, files)[j].path
  {
    forall i, j | 0 <= i < j < |files| ensures Written(root, files)[i].path != Written(root, files)[j].path {
      WrittenPath(root, files, i);
      WrittenPath(root, files, j);
      JoinPathInjective(root, files[i].path, files[j].path);
    }
  }

  /** A stored generated website: its files, its site name, and the fields saving updates. */
  class StoredWebsite {
    var files: seq<VirtualFile>
    var siteName: string
    var projectPath: Option<string>
    var status: string

    /** A freshly generated website, not yet saved. */
    constructor (files: seq<VirtualFile>, siteName: string)
      ensures this.files == files && this.siteName == siteName
      ensures projectPath.None? && status == "generated"
    {
      this.files := files;
      this.siteName := siteName;
      projectPath := None;
      status := "generated";
    }

    /** The directory the site is saved in, under `projectsDir`. */
    function ProjectPath(projectsDir: string): string
      reads this
    {
      JoinPath(projectsDir, ProjectName(siteName))
    }

    /**
     * The body of `POST /:id/save` for a site that was found: the directories made,
     * every file written at `path.join(projectPath, file.path)`, then the path and the
     * status recorded.
     */
    method Save(projectsDir: string) returns (dirs: seq<string>, writes: seq<VirtualFile>)
      modifies this
      ensures files == old(files) && siteName == old(siteName)
      ensures dirs == SaveDirs(old(ProjectPath(projectsDir)))
      ensures writes == Written(old(ProjectPath(projectsDir)), files)
      ensures projectPath == Some(old(ProjectPath(projectsDir))) && status == "saved"
    {
      var projectName := ProjectName(siteName);
      var path := JoinPath(projectsDir, projectName);
      dirs := [path];
      dirs := dirs + [JoinPath(path, "public")];
      dirs := dirs + [JoinPath(path, "public/css")];
      dirs := dirs + [JoinPath(path, "public/js")];
      dirs := dirs + [JoinPath(path, "routes")];
      dirs := dirs + [JoinPath(path, "models")];
      writes := [];
      var i := 0;
      while i < |files|
        invariant 0 <= i <= |files|
        invariant writes == Written(path, files[..i])
      {
        assert files[..i + 1][..i] == files[..i];
        writes := writes + [VirtualFile(JoinPath(path, files[i].path), files[i].content)];
        i := i + 1;
      }
      assert files[..i] == files;
      projectPath := Some(path);
      status := "saved";
    }
  }

  function SavedReply(projectPath: string): Reply
  {
    Json(200, Record([Entry("success", Bool(true)), Entry("message", Str("Website saved to filesystem")),
                      Entry("projectPath", Str(projectPath))]))
  }

  /** `POST /:id/save`: 404 for a site the lookup did not find, otherwise the save and its path. */
  method SaveRoute(site: StoredWebsite?, projectsDir: string) returns (reply: Reply, dirs: seq<string>, writes: seq<VirtualFile>)
    modifies site
    ensures site == null ==> reply == ErrorReply(404, "Website not found") && dirs == [] && writes == []
    ensures site != null ==> site.projectPath == Some(old(site.ProjectPath(projectsDir))) && site.status == "saved"
    ensures site != null ==> site.files == old(site.files) && site.siteName == old(site.siteName)
    ensures site != null ==> dirs == SaveDirs(old(site.ProjectPath(projectsDir)))
    ensures site != null ==> writes == Written(old(site.ProjectPath(projectsDir)), site.files)
    ensures site != null ==> reply == SavedReply(old(site.ProjectPath(projectsDir)))
  {
    if site == null {
      return ErrorReply(404, "Website not found"), [], [];
    }
    dirs, writes := site.Save(projectsDir);
    reply := SavedReply(site.projectPath.value);
  }
}
