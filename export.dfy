/**
 * The front end's export helpers: the stand-alone document a generated page is
 * downloaded as, with its file name, and the document the preview frame shows, which
 * keeps only what lies inside the page's own `<head>` and `<body>` tags.
 */
module Export {
  import opened Wrappers
  import opened Strings
  import Generator

  // ---------------------------------------------------------------- tag extraction

  function OpenTag(name: string): string { "<" + name }
  function CloseTag(name: string): string { "</" + name + ">" }

  /** A tag name: the extraction patterns are `<name[^>]*>` and `</name>`. */
  predicate TagName(name: string)
  {
    '<' !in name && '>' !in name && ToLower(name) == name
  }

  /** `s.lastIndexOf(p)`, with `None` for -1. */
  function LastIndexOf(s: string, p: string): (r: Option<nat>)
    ensures r.Some? ==> r.value + |p| <= |s|
    decreases |s|
  {
    if |s| < |p| then None
    else if s == [] then Some(0)
    else
      match LastIndexOf(s[1..], p)
      case Some(k) => Some(k + 1)
      case None => if StartsWith(s, p) then Some(0) else None
  }

  /** `LastIndexOf` finds the last occurrence, and finds nothing only when there is none. */
  lemma {:induction false} LastIndexOfLast(s: string, p: string)
    ensures LastIndexOf(s, p).Some? ==> OccursAt(s, p, LastIndexOf(s, p).value)
    ensures LastIndexOf(s, p).Some? ==> forall j: nat :: LastIndexOf(s, p).value < j ==> !OccursAt(s, p, j)
    ensures LastIndexOf(s, p).None? <==> !Contains(s, p)
    decreases |s|
  {
    if |s| < |p| {
      forall j: nat ensures !OccursAt(s, p, j) {
      }
    } else if s == [] {
      assert OccursAt(s, p, 0);
    } else {
      LastIndexOfLast(s[1..], p);
      forall j: nat | 1 <= j <= |s| ensures OccursAt(s, p, j) <==> OccursAt(s[1..], p, j - 1) {
        assert s[j..] == s[1..][j - 1..];
      }
      assert s[0..] == s;
      match LastIndexOf(s[1..], p)
      case Some(k) =>
        assert OccursAt(s, p, k + 1);
        forall j: nat | k + 1 < j ensures !OccursAt(s, p, j) {
          if j <= |s| {
            assert !OccursAt(s[1..], p, j - 1);
          }
        }
      case None =>
        forall j: nat | 1 <= j ensures !OccursAt(s, p, j) {
          if j <= |s| {
            assert !OccursAt(s[1..], p, j - 1);
          }
        }
        if StartsWith(s, p) {
          assert OccursAt(s, p, 0);
        }
    }
  }

  /** An occurrence with none after it is the one `LastIndexOf` finds. */
  lemma {:induction false} LastIndexOfAt(s: string, p: string, k: nat)
    requires OccursAt(s, p, k)
    requires forall j: nat :: k < j ==> !OccursAt(s, p, j)
    ensures LastIndexOf(s, p) == Some(k)
  {
    LastIndexOfLast(s, p);
  }

  /** The captured part of a match: `text[start..end]`. */
  datatype Span = Span(start: nat, end: nat)

  /**
   * A match of `<name[^>]*>([\s\S]*)</name>` starting at `i` of the lower-cased text:
   * the open tag, the first `>` after it, and then, the capture being greedy, the last
   * close tag after that.
   */
  function MatchAt(l: string, i: nat, name: string): (r: Option<Span>)
    requires i <= |l|
    ensures r.Some? ==> i + |OpenTag(name)| < r.value.start <= r.value.end && r.value.end + |CloseTag(name)| <= |l|
  {
    if !OccursAt(l, OpenTag(name), i) then None
    else
      var from := i + |OpenTag(name)|;
      match IndexOf(l[from..], ">")
      case None => None
      case Some(g) =>
        var a := from + g + 1;
        match LastIndexOf(l[a..], CloseTag(name))
        case None => None
        case Some(k) => Some(Span(a, a + k))
  }

  /** The character `IndexOf` finds for a one-character pattern is that character. */
  lemma {:induction false} IndexOfChar(t: string, c: char)
    ensures IndexOf(t, [c]).Some? ==> IndexOf(t, [c]).value < |t| && t[IndexOf(t, [c]).value] == c
  {
    IndexOfFirst(t, [c]);
    if IndexOf(t, [c]).Some? {
      var g := IndexOf(t, [c]).value;
      assert t[g..][0] == t[g];
    }
  }

  /** The occurrence `LastIndexOf` finds, seen from further left in the text. */
  lemma {:induction false} LastIndexOfShifted(l: string, a: nat, p: string)
    requires a <= |l|
    ensures LastIndexOf(l[a..], p).Some? ==> OccursAt(l, p, a + LastIndexOf(l[a..], p).value)
  {
    LastIndexOfLast(l[a..], p);
    if LastIndexOf(l[a..], p).Some? {
      var k := LastIndexOf(l[a..], p).value;
      assert l[a..][k..] == l[a + k..];
    }
  }

  /** A match is made of its parts: the open tag at `i`, a `>` just before the capture, a close tag right after it. */
  lemma {:induction false} MatchAtTags(l: string, i: nat, name: string)
    requires i <= |l|
    ensures var r := MatchAt(l, i, name);
      r.Some? ==> OccursAt(l, OpenTag(name), i) && l[r.value.start - 1] == '>' && OccursAt(l, CloseTag(name), r.value.end)
  {
    var o := OpenTag(name);
    if OccursAt(l, o, i) {
      var from := i + |o|;
      IndexOfChar(l[from..], '>');
      assert ['>'] == ">";
      if IndexOf(l[from..], ">").Some? {
        var a := from + IndexOf(l[from..], ">").value + 1;
        LastIndexOfShifted(l, a, CloseTag(name));
      }
    }
  }



  /** The regular expression's search: the leftmost position at which a match exists. */
  function SearchFrom(l: string, name: string, i: nat): (r: Option<Span>)
    requires i <= |l|
    ensures r.Some? ==> r.value.start <= r.value.end <= |l|
    decreases |l| - i
  {
    var m := MatchAt(l, i, name);
    if m.Some? then m
    else if i == |l| then None
    else SearchFrom(l, name, i + 1)
  }

  /** `html.match(/<name[^>]*>([\s\S]*)<\/name>/i)[1]`, the match being case-insensitive on ASCII. */
  function Capture(html: string, name: string): (r: Option<string>)
  {
    match SearchFrom(ToLower(html), name, 0)
    case None => None
    case Some(sp) => Some(html[sp.start..sp.end])
  }

  /** Positions without a match are passed over by the search. */
  lemma {:induction false} SearchSkip(l: string, name: string, i: nat, m: nat)
    requires i <= m <= |l|
    requires forall j :: i <= j < m ==> MatchAt(l, j, name).None?
    ensures SearchFrom(l, name, i) == SearchFrom(l, name, m)
    decreases m - i
  {
    if i < m {
      SearchSkip(l, name, i + 1, m);
    }
  }

  /** A pattern whose first character does not recur cannot start in `x` and end in `y` when `y` starts with that character. */
  lemma {:induction false} NoStraddle(x: string, y: string, p: string)
    requires |p| > 0 && p[0] !in p[1..] && !Contains(x, p)
    requires y != [] && y[0] == p[0]
    ensures forall j: nat :: j < |x| ==> !OccursAt(x + y, p, j)
  {
    forall j: nat | j < |x| ensures !OccursAt(x + y, p, j) {
      if j + |p| <= |x| {
        assert (x + y)[j..][..|p|] == x[j..][..|p|];
        assert !OccursAt(x, p, j);
      } else if j + |p| <= |x + y| {
        var d := |x| - j;
        assert (x + y)[j..][..|p|][d] == y[0];
        assert p[1..][d - 1] == p[d];
      }
    }
  }

  lemma {:induction false} LowerGt(s: string)
    requires '>' !in s
    ensures '>' !in ToLower(s)
  {
    forall i | 0 <= i < |s| ensures ToLower(s)[i] != '>' {
      assert s[i] in s;
    }
  }

  /**
   * The close tag of `text` at `k`, with no further close tag in the rest, is the last one:
   * no occurrence overlaps it, since its `<` does not recur.
   */
  lemma {:induction false} CloseIsLast(b: string, name: string, c: string)
    requires '<' !in name && !Contains(c, CloseTag(name))
    ensures LastIndexOf(b + CloseTag(name) + c, CloseTag(name)) == Some(|b|)
  {
    var p := CloseTag(name);
    var s := b + p + c;
    StartsSelf(p);
    OccursInMiddle(b, p, c, p);
    assert '<' !in p[1..] by {
      assert p[1..] == "/" + name + ">";
    }
    forall j: nat | |b| < j ensures !OccursAt(s, p, j) {
      if j < |b| + |p| {
        if j + |p| <= |s| {
          var d := j - |b|;
          assert s[j..][..|p|][0] == p[d];
          assert p[1..][d - 1] == p[d];
        }
      } else if j <= |s| {
        assert s[j..] == c[j - |b| - |p|..];
        assert !OccursAt(c, p, j - |b| - |p|);
      }
    }
    LastIndexOfAt(s, p, |b|);
  }

  /** Lower-casing the parts of a tagged text one by one. */
  lemma {:induction false} LowerParts(a: string, t: string, attrs: string, b: string, u: string, c: string)
    ensures ToLower(a + (t + (attrs + (">" + (b + (u + c)))))) ==
      ToLower(a) + (ToLower(t) + (ToLower(attrs) + (">" + (ToLower(b) + (ToLower(u) + ToLower(c))))))
  {
    var r4 := b + (u + c);
    var r3 := ">" + r4;
    var r2 := attrs + r3;
    var r1 := t + r2;
    ToLowerConcat(a, r1);
    ToLowerConcat(t, r2);
    ToLowerConcat(attrs, r3);
    ToLowerConcat(">", r4);
    assert ToLower(">") == ">";
    ToLowerConcat(b, u + c);
    ToLowerConcat(u, c);
  }

  lemma {:induction false} Nest(a: string, t: string, attrs: string, g: string, b: string, u: string, c: string)
    ensures a + t + attrs + g + b + u + c == a + (t + (attrs + (g + (b + (u + c)))))
  {
  }

  /** Before the first open tag no match can start. */
  lemma {:induction false} NoEarlyMatch(x: string, y: string, name: string)
    requires '<' !in name && !Contains(x, OpenTag(name))
    requires StartsWith(y, OpenTag(name))
    ensures SearchFrom(x + y, name, 0) == SearchFrom(x + y, name, |x|)
  {
    var o := OpenTag(name);
    assert o[1..] == name;
    assert y[0] == o[0];
    NoStraddle(x, y, o);
    forall j | 0 <= j < |x| ensures MatchAt(x + y, j, name).None? {
      assert !OccursAt(x + y, o, j);
    }
    SearchSkip(x + y, name, 0, |x|);
  }

  /** The first `>` of a text whose leading part holds none is the one after that part. */
  lemma {:induction false} FirstGt(attrs: string, tail: string)
    requires '>' !in attrs
    ensures IndexOf(attrs + (">" + tail), ">") == Some(|attrs|)
  {
    forall k | 0 <= k < |attrs| ensures !StartsWith((attrs + (">" + tail))[k..], ">") {
      assert (attrs + (">" + tail))[k..][0] == attrs[k];
      assert attrs[k] in attrs;
    }
    IndexOfSkip(attrs, ">" + tail, ">");
    assert IndexOf(">" + tail, ">") == Some(0);
  }

  /** At an open tag whose attributes hold no `>`, the capture starts right after that `>`. */
  lemma {:induction false} MatchAtTag(x: string, attrs: string, tail: string, name: string)
    requires '>' !in attrs
    ensures var s := x + (OpenTag(name) + (attrs + (">" + tail)));
      var start := |x| + |OpenTag(name)| + |attrs| + 1;
      MatchAt(s, |x|, name) ==
        if LastIndexOf(tail, CloseTag(name)).Some? then Some(Span(start, start + LastIndexOf(tail, CloseTag(name)).value)) else None
  {
    var o := OpenTag(name);
    var r := attrs + (">" + tail);
    var s := x + (o + r);
    StartsSelf(o);
    StartsConcat(o, r, o);
    assert s[|x|..] == o + r;
    assert OccursAt(s, o, |x|);
    assert s[|x| + |o|..] == r;
    FirstGt(attrs, tail);
    assert r[|attrs| + 1..] == tail;
  }

  lemma {:induction false} SliceMiddle(x: string, y: string, u: string, c: string)
    ensures (x + y + u + c)[|x|..|x| + |y|] == y
  {
    assert x + y + u + c == x + (y + (u + c));
  }

  /** The search on lower-cased text: the first open tag, its `>`, and the last close tag after it. */
  lemma {:induction false} SearchTagged(la: string, lat: string, lb: string, lc: string, name: string)
    requires '<' !in name && '>' !in lat
    requires !Contains(la, OpenTag(name)) && !Contains(lc, CloseTag(name))
    ensures var start := |la| + |OpenTag(name)| + |lat| + 1;
      SearchFrom(la + (OpenTag(name) + (lat + (">" + (lb + (CloseTag(name) + lc))))), name, 0) ==
        Some(Span(start, start + |lb|))
  {
    var o, cl := OpenTag(name), CloseTag(name);
    var tail := lb + (cl + lc);
    var l := la + (o + (lat + (">" + tail)));
    StartsSelf(o);
    StartsConcat(o, lat + (">" + tail), o);
    NoEarlyMatch(la, o + (lat + (">" + tail)), name);
    MatchAtTag(la, lat, tail, name);
    CloseIsLast(lb, name, lc);
    assert lb + cl + lc == tail;
  }

  /**
   * The capture is greedy and anchored at the first open tag: in
   * `A <name attrs> B </name> C`, where `A` holds no open tag and `C` no close tag, it is
   * all of `B`, whatever open and close tags `B` itself holds, and whatever the letter
   * case of the two tags.
   */
  lemma {:induction false} CaptureGreedy(a: string, t: string, attrs: string, b: string, u: string, c: string, name: string)
    requires TagName(name)
    requires ToLower(t) == OpenTag(name) && ToLower(u) == CloseTag(name)
    requires !Contains(ToLower(a), OpenTag(name))
    requires '>' !in attrs
    requires !Contains(ToLower(c), CloseTag(name))
    ensures Capture(a + t + attrs + ">" + b + u + c, name) == Some(b)
  {
    var html := a + t + attrs + ">" + b + u + c;
    Nest(a, t, attrs, ">", b, u, c);
    LowerParts(a, t, attrs, b, u, c);
    LowerGt(attrs);
    SearchTagged(ToLower(a), ToLower(attrs), ToLower(b), ToLower(c), name);
    var start := |a| + |t| + |attrs| + 1;
    assert SearchFrom(ToLower(html), name, 0) == Some(Span(start, start + |b|));
    SliceMiddle(a + t + attrs + ">", b, u, c);
  }

  /** Text without an open tag has no match. */
  lemma {:induction false} CaptureAbsent(html: string, name: string)
    requires !Contains(ToLower(html), OpenTag(name))
    ensures Capture(html, name).None?
  {
    var l := ToLower(html);
    forall j | 0 <= j <= |l| ensures MatchAt(l, j, name).None? {
      assert !OccursAt(l, OpenTag(name), j);
    }
    SearchSkip(l, name, 0, |l|);
  }

  // ---------------------------------------------------------------- the preview frame

  /** The body the preview shows: the captured body, or the whole markup when it has none. */
  function BodyContent(html: string): string
  {
    match Capture(html, "body")
    case Some(b) => b
    case None => html
  }

  /** The head the preview keeps: the captured head, or nothing. */
  function HeadContent(html: string): string
  {
    match Capture(html, "head")
    case Some(h) => h
    case None => ""
  }

  /** `javascript || ''`: a missing script and an empty one both give an empty script element. */
  function ScriptText(js: Option<string>): (t: string)
    ensures js.None? ==> t == ""
    ensures js.Some? ==> t == js.value
  {
    if js.None? || js.value == "" then "" else js.value
  }

  const DocMeta: string := "<!DOCTYPE html>\n<html lang=\"en\">\n<head>\n  <meta charset=\"UTF-8\">\n" +
    "  <meta name=\"viewport\" content=\"width=device-width, initial-scale=1.0\">\n  "
  const ResetStyle: string := "\n  <style>\n    * {\n      margin: 0;\n      padding: 0;\n      box-sizing: border-box;\n    }\n" +
    "    body {\n      font-family: -apple-system, BlinkMacSystemFont, 'Segoe UI', Roboto, Oxygen, Ubuntu, Cantarell, sans-serif;\n    }\n"
  const HeadToBody: string := "\n  </style>\n</head>\n<body>\n"
  const ScriptOpen: string := "\n  <script>\n"
  const DocClose: string := "\n  </script>\n</body>\n</html>"

  /** The document `generatePreviewURL` wraps in a blob. */
  function PreviewDocument(html: string, css: string, js: Option<string>): string
  {
    DocMeta + HeadContent(html) + ResetStyle + css + HeadToBody + BodyContent(html) + ScriptOpen + ScriptText(js) + DocClose
  }

  /** `generatePreviewURL` up to the blob: the parts reassigned when a match is found. */
  method GeneratePreview(html: string, css: string, js: Option<string>) returns (doc: string)
    ensures doc == PreviewDocument(html, css, js)
  {
    var bodyContent := html;
    var bodyMatch := Capture(html, "body");
    if bodyMatch.Some? {
      bodyContent := bodyMatch.value;
    }
    var headContent := "";
    var headMatch := Capture(html, "head");
    if headMatch.Some? {
      headContent := headMatch.value;
    }
    var script := if js.Some? then js.value else "";
    doc := DocMeta + headContent + ResetStyle + css + HeadToBody + bodyContent + ScriptOpen + script + DocClose;
  }

  /** A fragment without head and body tags is shown whole, with an empty head. */
  lemma {:induction false} PreviewFragment(html: string)
    requires !Contains(ToLower(html), "<body") && !Contains(ToLower(html), "<head")
    ensures BodyContent(html) == html && HeadContent(html) == ""
  {
    assert OpenTag("body") == "<body" && OpenTag("head") == "<head";
    CaptureAbsent(html, "body");
    CaptureAbsent(html, "head");
  }

  /** A full document is shown with exactly what its outermost body tags enclose. */
  lemma {:induction false} PreviewFullDocument(a: string, attrs: string, b: string, c: string)
    requires !Contains(ToLower(a), "<body") && '>' !in attrs && !Contains(ToLower(c), "</body>")
    ensures BodyContent(a + "<body" + attrs + ">" + b + "</body>" + c) == b
  {
    assert OpenTag("body") == "<body" && CloseTag("body") == "</body>";
    assert ToLower("<body") == "<body" && ToLower("</body>") == "</body>";
    assert TagName("body");
    CaptureGreedy(a, "<body", attrs, b, "</body>", c, "body");
  }

  // ---------------------------------------------------------------- the download

  /** What `exportWebsite` hands to the browser: a file name and the HTML document. */
  datatype Download = Download(fileName: string, document: string)

  /** `projectName`, with its default for an omitted argument. */
  function ProjectTitle(projectName: Option<string>): (t: string)
    ensures projectName.None? ==> t == "website"
    ensures projectName.Some? ==> t == projectName.value
  {
    if projectName.Some? then projectName.value else "website"
  }

  const TitleToStyle: string := "</title>\n  <style>\n"

  /** The complete file: the page's markup, CSS and script embedded verbatim in a fixed shell. */
  function ExportDocument(html: string, css: string, js: Option<string>, projectName: Option<string>): string
  {
    DocMeta + "<title>" + ProjectTitle(projectName) + TitleToStyle + css + HeadToBody + html + ScriptOpen + ScriptText(js) + DocClose
  }

  /** `${projectName.replace(/\s+/g, '-').toLowerCase()}.html`. */
  function DownloadName(projectName: Option<string>): string
  {
    ToLower(CollapseSpaces(ProjectTitle(projectName), "-")) + ".html"
  }

  /** `exportWebsite`, up to the browser's download. */
  function ExportWebsite(html: string, css: string, js: Option<string>, projectName: Option<string>): (d: Download)
    ensures d.fileName == DownloadName(projectName)
    ensures d.document == ExportDocument(html, css, js, projectName)
  {
    Download(DownloadName(projectName), ExportDocument(html, css, js, projectName))
  }

  /** `exportAsFiles`: the same single-file download. */
  function ExportAsFiles(html: string, css: string, js: Option<string>, projectName: Option<string>): (d: Download)
    ensures d == ExportWebsite(html, css, js, projectName)
  {
    ExportWebsite(html, css, js, projectName)
  }

  /** `formatCode`: the code unchanged, whatever the language. */
  function FormatCode(code: string, language: Option<string>): (r: string)
    ensures r == code
  {
    code
  }

  /** An omitted project name downloads as `website.html`. */
  lemma {:induction false} DefaultDownloadName()
    ensures DownloadName(None) == "website.html"
  {
    assert ProjectTitle(None) == "website";
    CollapseSpacesIdentity("website", "-");
    assert ToLower("website") == "website";
  }

  /**
   * The download's name is the generator's package name for the same project name,
   * with `.html`, and it has no white space.
   */
  lemma {:induction false} DownloadNameRules(projectName: string)
    ensures DownloadName(Some(projectName)) == Generator.PackageName(projectName) + ".html"
    ensures NoSpace(DownloadName(Some(projectName)))
  {
    LowerCollapse(projectName, "-");
    CollapseSpacesNoSpace(projectName, "-");
    LowerNoSpace(CollapseSpaces(projectName, "-"));
    var d := DownloadName(Some(projectName));
    var n := ToLower(CollapseSpaces(projectName, "-"));
    assert d == n + ".html";
    forall i | 0 <= i < |d| ensures !IsJsSpace(d[i]) {
      if i >= |n| {
        assert d[i] == ".html"[i - |n|];
      }
    }
  }

  /** `javascript || ''`: an omitted script and an empty one give the same documents. */
  lemma {:induction false} ScriptDefault(html: string, css: string, projectName: Option<string>)
    ensures PreviewDocument(html, css, None) == PreviewDocument(html, css, Some(""))
    ensures ExportDocument(html, css, None, projectName) == ExportDocument(html, css, Some(""), projectName)
  {
  }

  /** The download holds the page's markup verbatim, right after the opening of its body. */
  lemma {:induction false} ExportEmbedsMarkup(html: string, css: string, js: Option<string>, projectName: Option<string>)
    ensures var before := DocMeta + "<title>" + ProjectTitle(projectName) + TitleToStyle + css + HeadToBody;
      OccursAt(ExportDocument(html, css, js, projectName), html, |before|)
  {
    var before := DocMeta + "<title>" + ProjectTitle(projectName) + TitleToStyle + css + HeadToBody;
    OccursAtEnd(before, html);
    OccursExtend(before + html, ScriptOpen, html, |before|);
    OccursExtend(before + html + ScriptOpen, ScriptText(js), html, |before|);
    OccursExtend(before + html + ScriptOpen + ScriptText(js), DocClose, html, |before|);
  }

  /** The preview of a fragment holds it verbatim, right after the opening of its body. */
  lemma {:induction false} PreviewEmbedsFragment(html: string, css: string, js: Option<string>)
    requires !Contains(ToLower(html), "<body") && !Contains(ToLower(html), "<head")
    ensures OccursAt(PreviewDocument(html, css, js), html, |DocMeta| + |ResetStyle| + |css| + |HeadToBody|)
  {
    PreviewFragment(html);
    var before := DocMeta + "" + ResetStyle + css + HeadToBody;
    OccursAtEnd(before, html);
    OccursExtend(before + html, ScriptOpen, html, |before|);
    OccursExtend(before + html + ScriptOpen, ScriptText(js), html, |before|);
    OccursExtend(before + html + ScriptOpen + ScriptText(js), DocClose, html, |before|);
  }
}
