# Site generator core: templates, file list, preview rewriting, export

This project models the deterministic core of an AI website builder in Dafny. The language model turns a prose request into a site specification. Everything from that point on is deterministic, and that is what is modelled here:

- **`Template`** and **`Pieces`**: the Mustache-like placeholder engine `replaceTemplateVars`. A scalar pass replaces `{{key}}`, then a non-greedy block pass expands `{{#key}}…{{/key}}` once per array element. `Template` states the engine on strings. It has loop methods proved against spec functions. `Pieces` restates the engine over markup cut into literal text and markers. Its main theorem (`RenderPieces`) says the two readings agree, so fragment-level facts can be proved without reasoning about long literals.
- **`Library`**: the constant fragment table `componentLibrary`. Each entry is a (type, variant) pair with its markup, CSS, optional script and optional backend code.
- **`Generator`**: `codeGenerator`. It covers:
  - component selection and rendering;
  - page assembly from a document shell;
  - the frontend map keyed by page name;
  - the flag-driven backend routes, models and schemas;
  - the `package.json`, `.env` and README helpers.
- **`Content`**: the pure helpers of `aiService`:
  - the nav and footer links, the gallery data and the hero/features fallbacks;
  - the per-page selection rules of `enrichSpecifications`, an in-place loop over an array of pages;
  - `generateFileStructure`, an ordered file list built by pushes;
  - the summary and the keyword-driven default specification.
- **`Preview`**: the two preview handlers of `routes/preview.js`. Each threads `html` through four stages:
  - inline the CSS link;
  - rewrite `fetch('/api/` in the script and inject it before `</body>`;
  - rewrite `href="/<page>"` links;
  - apply the root pass `href="\/(?!")`.

  The module also holds the id check, the asset routes and the contact echo.
- **`GenerateRoute`**: `routes/generateWebsite.js`. It covers:
  - input validation;
  - the inlining-only `/:id/preview/:page` route;
  - the save route, where a `StoredWebsite` object has its `projectPath` and `status` updated in place after its files are written at `path.join(projectPath, file.path)`; the project directory's name is sanitised, the stored paths are not.
- **`Export`**: `frontend/src/utils/export.js`. It covers the greedy, case-insensitive `<body>`/`<head>` capture, the preview and download documents, and the download file name.

Replacements are literal substring matches, which is what every pattern in the core amounts to once regex metacharacters are set aside. `ReplaceAll` is a global `replace(/p/g, …)` and `ReplaceFirst` is a `replace` with a string pattern. Side effects are not performed: file-system writes are returned as logs (`dirs`, `writes`), and the footer year is a parameter.

Three consequences of the link rewriting in `backend/routes/preview.js`:

- **`href="/"` is kept.** The comment at line 74 announces `href="/" -> href="/preview/id/"`. The regex at line 76 is `href="\/(?!")`, and its lookahead `(?!")` excludes exactly that link, so `href="/"` is never rewritten (`Preview.IndexLinkKept`, `Preview.RootLinkKept`).
- **Double prefix.** One run of the handler already prefixes a page link twice. The page pass makes `href="/preview/<id>/<name>"`, and the root pass then prefixes that again, giving `href="/preview/<id>/preview/<id>/<name>"` (`Preview.LinkRewriting`, `Preview.RootLinksDoublePrefix`).
- **Leftover CSS link.** When there is no CSS file, the stylesheet link stays in the page. The root pass then redirects it to `/preview/<id>/css/<name>.css` (`Preview.LeftoverCssLink`).

## Model

| member | source | states |
|---|---|---|
| Template.Shown | backend/services/codeGenerator.js:123 | a falsy value (`''`, `0`, `false`, `null`) becomes `''`; any other value becomes its `String(…)` text, and a string stays itself |
| Template.Lookup | backend/services/codeGenerator.js:121-124 | `data[key]` is absent exactly when no entry has the key; when present it is the value of an entry with that key |
| Template.Render | backend/services/codeGenerator.js:115-116 | with no data record the template comes back unchanged |
| Template.ReplaceTemplateVars | backend/services/codeGenerator.js:115-144 | the method, with its two key loops, the replace-all loop and the block expansion loop, computes exactly `Render(template, data)` |
| Template.ScalarPassLoop | backend/services/codeGenerator.js:121-124 | the loop over the keys replaces every `{{key}}`, key by key in order, and equals the scalar pass |
| Template.ExpandBlocksLoop | backend/services/codeGenerator.js:129-139 | the left-to-right scan that replaces each block equals `ExpandBlocks` with the records' renderer |
| Template.RenderItemsLoop | backend/services/codeGenerator.js:131-138 | the `map(...).join('')` loop equals the body rendered once per element, in order, concatenated |
| Template.ScalarPassAbsent | backend/services/codeGenerator.js:121-124 | a template with no `{{k}}` for any key is left alone by the scalar pass |
| Template.ExpandBlocksAbsent | backend/services/codeGenerator.js:129-130 | text without an open marker `{{#k}}` is left alone by the block expansion of `k` |
| Template.BlockPassAbsent | backend/services/codeGenerator.js:127-141 | with no open marker for any key, the block pass changes nothing |
| Template.RenderUntouched | backend/services/codeGenerator.js:115-144 | a template that mentions none of the record's keys, as a token or as a block, is returned unchanged |
| Template.ExpandBlocksAtBlock | backend/services/codeGenerator.js:129-130 | the match is lazy: at an open marker, the body handed to the callback ends at the first close marker and holds no close marker itself; the output is that rendering followed by the scan of what follows the marker |
| Pieces.LookupText | backend/services/codeGenerator.js:123 | a key's replacement text in the piece reading is its shown value |
| Pieces.Subst | backend/services/codeGenerator.js:121-124 | a slot whose key the record has becomes that key's text; every other piece, including a slot of an unknown key, is kept |
| Pieces.PScalar | backend/services/codeGenerator.js:121-124 | the scalar pass keeps the length and substitutes every piece pointwise |
| Pieces.PFind | backend/services/codeGenerator.js:129 | finds the first occurrence of a marker, or reports that there is none |
| Pieces.RenderPieces | backend/services/codeGenerator.js:115-144 | for markup whose keys are plain and whose values hold no braces, rendering the text equals rendering the pieces and then flattening them |
| Pieces.PExpandNoOpen | backend/services/codeGenerator.js:129-139 | markup without the open marker of `k` is not changed by block expansion |
| Pieces.PExpandBlock | backend/services/codeGenerator.js:129-139 | `pre {{#k}} body {{/k}} post` expands to `pre`, then `body` rendered per item, then the expansion of `post`, when the body holds no close marker |
| Pieces.PBlockPassNoMarkers | backend/services/codeGenerator.js:127-141 | markup with no markers at all passes the block pass unchanged |
| Pieces.PBlockPassOne | backend/services/codeGenerator.js:127-141 | a single block is expanded when its key holds an array, and left untouched with its markers when the key is absent or not an array |
| Pieces.RenderOneBlock | backend/services/codeGenerator.js:115-144 | rendering one-block markup is the scalar pass of head, body and tail, with the body then repeated per item only when the key holds an array |
| Pieces.PItemsLength | backend/services/codeGenerator.js:131-138 | the repeated block has exactly `items × body` pieces |
| Pieces.PItemsConcat | backend/services/codeGenerator.js:131-138 | repetition distributes over concatenating the items |
| Pieces.PItemsSplit | backend/services/codeGenerator.js:131-138 | the `n`-th repetition sits between the earlier and later ones and is the body rendered with item `n` |
| Pieces.RenderOneBlockEnds | backend/services/codeGenerator.js:115-144 | the rendered markup ends with the scalar-rendered tail |
| Pieces.ScalarTwice | backend/services/codeGenerator.js:121-141 | a slot known to the top-level record gets the record's value in every repetition; only unknown slots take the item's value |
| Pieces.MissingKeyStays | backend/services/codeGenerator.js:121-124 | a token whose key the record lacks stays in the output as a token |
| Library.Find | backend/services/componentLibrary.js:5-659 | a fragment exists exactly for navbar/modern, hero/centered, hero/withImage, features/grid, contactForm/standard, gallery/grid and footer/standard; only the navbar and the contact form carry a script, and only the contact form carries backend code |
| Library.ScriptNonEmpty | backend/services/componentLibrary.js:93-407 | every script the table carries is non-empty |
| Library.BlockLayout | backend/services/componentLibrary.js:12-537 | the block keys are `navLinks`, `buttons` (both heroes), `items`, `images` and `links`, one block per fragment and none nested; the contact form has no block |
| Library.LibraryGood | backend/services/componentLibrary.js:5-659 | every placeholder key of every fragment is a plain key |
| Library.FeaturesCards | backend/services/componentLibrary.js:220-236 | features/grid renders as heading, one card per item, then tail; each card's `{{title}}` shows the section's title whenever the record has one |
| Library.FooterDottedTokens | backend/services/componentLibrary.js:542-543 | `{{contact.email}}` and `{{contact.phone}}` survive rendering as tokens when the record has no such dotted keys |
| Library.ContactScriptFetch | backend/services/componentLibrary.js:387 | the contact script contains `fetch('/api/contact'`, the call the preview rewrites |
| Generator.RenderComponent | backend/services/codeGenerator.js:103-112 | the method returns exactly the component's rendering |
| Generator.ComponentUnknown | backend/services/codeGenerator.js:104-105 | an unknown (type, variant) renders as empty html, css and js |
| Generator.ComponentKnown | backend/services/codeGenerator.js:107-111 | a known fragment has its css copied, its html rendered with the data, and the html unrendered without data |
| Generator.StandardTable | backend/services/componentLibrary.js:408-450 | the library table has the script rule and carries the contact route and model as the contact form's backend code |
| Generator.ComponentScript | backend/services/codeGenerator.js:110 | a rendered component has non-empty js exactly for navbar/modern and contactForm/standard |
| Generator.Choose | backend/services/codeGenerator.js:76-96 | a component name is chosen exactly when it is one of the seven recognised names |
| Generator.ChooseAliases | backend/services/codeGenerator.js:80-92 | `features` and `services` both give features/grid; `contact` gives contactForm/standard; the hero variant is `heroStyle`, defaulting to `centered` |
| Generator.SelectComponentsForPage | backend/services/codeGenerator.js:72-100 | the push loop equals the selection function |
| Generator.SelectedAppend | backend/services/codeGenerator.js:75-97 | selection distributes over concatenation of the request list, so request order is kept |
| Generator.SelectedLength | backend/services/codeGenerator.js:75-97 | the output is no longer than the request; equal length exactly when every name is recognised; no recognised name gives no components |
| Generator.HtmlStructureLayout | backend/services/codeGenerator.js:58-69 | the shell starts with the head up to the title `page.title \|\| siteName`, followed at once by the stylesheet link `/css/<name>.css` |
| Generator.PageTitle | backend/services/codeGenerator.js:64 | definition: the page's title, or the site name when the title is empty |
| Generator.HtmlStructure | backend/services/codeGenerator.js:58-69 | definition: the document head with the title and the page's stylesheet link, up to `<body>`; stated by `Generator.HtmlStructureLayout` |
| Generator.PageOf | backend/services/codeGenerator.js:36-55 | definition: the shell, the components' markup and the closing tags; the two stylesheets and each component's CSS on a new line; each component's script on a new line. `Generator.GeneratePage` is proved equal to it and `Generator.PageScriptIff` states when the script is empty |
| Generator.GeneratePage | backend/services/codeGenerator.js:36-55 | the accumulating loop equals the page: shell plus component html in order plus closing tags; css starts with global and buttons css; js and css joined by newlines |
| Generator.LinesEmptyIff | backend/services/codeGenerator.js:45 | the joined js is empty exactly when every component's js is empty |
| Generator.LinesSelectedStep | backend/services/codeGenerator.js:42-46 | one more requested name appends its own contribution to the joined parts |
| Generator.ContributionScript | backend/services/codeGenerator.js:42-46 | a name contributes js exactly when it is `navbar` or `contact` |
| Generator.SelectedScriptIff | backend/services/codeGenerator.js:42-46 | the selected components have no js exactly when no requested name is `navbar` or `contact` |
| Generator.PageScriptIff | backend/services/codeGenerator.js:36-55 | a generated page's js is empty exactly when its site requests neither `navbar` nor `contact` |
| Generator.Keys | backend/services/codeGenerator.js:29 | the keys of the page map, one per entry, in order |
| Generator.PutGet | backend/services/codeGenerator.js:29 | after `frontendCode[k] = v`, key `k` holds `v` and other keys are unchanged |
| Generator.PutKeys | backend/services/codeGenerator.js:29 | assigning an existing key keeps the key order; a new key is appended |
| Generator.Put | backend/services/codeGenerator.js:29 | definition: an existing key keeps its place and takes the new value, a new key goes last; stated by `Generator.PutGet` and `Generator.PutKeys` |
| Generator.Get | backend/services/codeGenerator.js:29 | definition: the value of the entry with the key, if any; stated by `Generator.PutGet` |
| Generator.FrontendOf | backend/services/codeGenerator.js:23-33 | definition: each page's code put under its name, in page order; stated by `Generator.FrontendKeys` and `Generator.FrontendGet`, and `Generator.GenerateFrontend` is proved equal to it |
| Generator.GenerateFrontend | backend/services/codeGenerator.js:23-33 | the page loop equals the frontend map built page by page with the site-level component list |
| Generator.PutDistinct | backend/services/codeGenerator.js:29 | assignment keeps the keys distinct and adds exactly the assigned key |
| Generator.FrontendKeys | backend/services/codeGenerator.js:23-33 | the frontend keys are distinct and are exactly the page names |
| Generator.FrontendGet | backend/services/codeGenerator.js:23-33 | a name's code is that of the last page with that name, so a later duplicate replaces an earlier one |
| Generator.SiteNames | backend/services/codeGenerator.js:356-386 | the database name is the site name lowercased with space runs turned into `_`; it and the package name contain no whitespace and no capitals |
| Generator.PackageOf | backend/services/codeGenerator.js:356-378 | the package name is the lowercased site name with space runs turned into `-`; the description embeds the site name; the dependencies are fixed |
| Generator.ServerCodeLayout | backend/services/codeGenerator.js:176-226 | the server code holds the database name where the connection string is built, followed by `require('./routes/contact')` unconditionally |
| Generator.EnvTemplateLayout | backend/services/codeGenerator.js:381-386 | the env template starts with the port and the connection prefix, followed by the database name |
| Generator.PackageName | backend/services/codeGenerator.js:358 | definition: the site name lower-cased, then white-space runs turned into `-`; stated by `Generator.SiteNames` |
| Generator.DbName | backend/services/codeGenerator.js:196 | definition: white-space runs of the site name turned into `_`, then lower-cased; stated by `Generator.SiteNames` |
| Generator.ServerCode | backend/services/codeGenerator.js:176-226 | definition: the fixed server text with the database name spliced in; stated by `Generator.ServerCodeLayout` |
| Generator.EnvTemplate | backend/services/codeGenerator.js:381-386 | definition: the port line, the connection string ending in the database name, and the secret line; stated by `Generator.EnvTemplateLayout` |
| Generator.GenerateBackend | backend/services/codeGenerator.js:147-173 | the backend is the server code, the flag-selected routes and models, and the package record |
| Generator.BackendFlags | backend/services/codeGenerator.js:157-170 | the contact route and model iff `contactForm`, the auth route and user model iff `authentication`, the admin route iff `admin`, and nothing else |
| Generator.FlagLastWins | backend/services/codeGenerator.js:157-170 | of two entries for one flag the later decides, as in a parsed JSON object; other flags are not affected |
| Generator.FlagOn | backend/services/codeGenerator.js:158 | definition: false without a backend record, otherwise `LastFlag`; stated by `Generator.FlagLastWins` and `Generator.BackendFlags` |
| Generator.LastFlag | backend/services/codeGenerator.js:158 | definition: the last entry with the key decides, false when there is none; stated by `Generator.FlagLastWins` |
| Generator.GenerateDatabaseSchema | backend/services/codeGenerator.js:335-353 | Contact schema iff `contactForm`, User schema iff `authentication`, nothing else, Contact before User |
| Generator.Bullets | backend/services/codeGenerator.js:395 | a bullet list is empty exactly for no items and otherwise starts with `- ` |
| Generator.BackendSection | backend/services/codeGenerator.js:420 | the backend section reads `No backend features` exactly when there is no backend record; otherwise it lists each key once, as `Object.keys` does, and is empty exactly when the record has no keys |
| Generator.ObjectKeys | backend/services/codeGenerator.js:420 | `Object.keys` of a parsed record: exactly the keys that occur, each once, none for an empty record |
| Generator.ObjectKeysPrefix | backend/services/codeGenerator.js:420 | keys come in first-occurrence order: the keys of a prefix of the record are a prefix of its keys |
| Generator.Readme | backend/services/codeGenerator.js:389-427 | the README starts with `# <siteName>` |
| Generator.GenerateWebsite | backend/services/codeGenerator.js:10-20 | the generated code is the frontend map and the flag-chosen backend; its schemas are Contact iff `contactForm` and User iff `authentication`, nothing else, Contact before User |
| Content.LinkHref | backend/services/aiService.js:220 | every link starts with `/`; it is `/<name>` for any name but `index`, and exactly `/` for `index` or an empty name |
| Content.Links | backend/services/aiService.js:218-221 | one link record per page |
| Content.NavFooterLinks | backend/services/aiService.js:215-233 | the nav and footer carry the same links: one per page, in page order, with the title as text and `LinkHref(name)` as href |
| Content.FooterNoDottedKeys | backend/services/aiService.js:226-240 | the footer record has a nested `contact` object but no `contact.email` or `contact.phone` key |
| Content.NavFooterKeysDistinct | backend/services/aiService.js:215-240 | the nav and footer records have distinct keys |
| Content.NavData | backend/services/aiService.js:215-223 | definition: the site name and one link per page; stated by `Content.NavFooterLinks` and `Content.NavFooterKeysDistinct` |
| Content.FooterData | backend/services/aiService.js:226-240 | definition: the site name, the description, the links, the nested contact record and the year; stated by `Content.NavFooterLinks`, `Content.FooterNoDottedKeys` and `Content.NavFooterKeysDistinct` |
| Content.GalleryImages | backend/services/aiService.js:255-261 | `n` image records are built |
| Content.GenerateGalleryData | backend/services/aiService.js:251-267 | the counted push loop equals the gallery record |
| Content.GalleryNumbered | backend/services/aiService.js:251-267 | the gallery holds six images; image `k` (1..6) has the numbered url, alt `Gallery image k` and caption `<industry> showcase k` |
| Content.GalleryDistinct | backend/services/aiService.js:255-261 | the six images are pairwise different |
| Content.GalleryData | backend/services/aiService.js:251-267 | definition: the title `Our Gallery` and six images; `Content.GenerateGalleryData` is proved equal to it, and `Content.GalleryNumbered` and `Content.GalleryDistinct` state its images |
| Content.HeroFallback | backend/services/aiService.js:151-161 | definition: the page title, `Welcome to <siteName>` and the two fixed buttons; used by `Content.HeroContent` |
| Content.HeroContent | backend/services/aiService.js:127-162 | the model's reply is used when there is one; otherwise the fallback has the page title |
| Content.FeaturesContent | backend/services/aiService.js:165-212 | features content is absent exactly when the page does not want it, and is the reply when there is one |
| Content.FeaturesNoCall | backend/services/aiService.js:166-171 | for a page that does not want features, the result does not depend on the reply, so no call is needed |
| Content.EnrichRules | backend/services/aiService.js:98-121 | `centered` hero exactly on `index`, `withImage` elsewhere; contact data set on `contact` only; gallery data set exactly on gallery pages; features data touched only when the site asks for features |
| Content.EnrichKeepsLinks | backend/services/aiService.js:98-121 | enrichment keeps each page's name, title and description, so every page sees the same links |
| Content.EnrichPage | backend/services/aiService.js:98-121 | definition: the fields one turn of the loop assigns on a page; stated by `Content.EnrichRules` and `Content.EnrichKeepsLinks` |
| Content.EnrichSpecifications | backend/services/aiService.js:94-124 | the in-place loop leaves every page of the array enriched from its old value |
| Content.SourceFiles | backend/services/aiService.js:301-313 | one file per route or model |
| Content.SourceFilePaths | backend/services/aiService.js:301-313 | file `i` is `<dir><name>.js` |
| Content.GenerateFileStructure | backend/services/aiService.js:270-331 | the push sequence equals the file list: page files, then `server.js`, routes, models, `package.json`, `.env.example`, `README.md` |
| Content.ClosingNotPublic | backend/services/aiService.js:315-328 | the three closing files are not under `public/` |
| Content.PagePathsPublic | backend/services/aiService.js:277-291 | every page file is under `public/` |
| Content.PublicFiles | backend/services/aiService.js:296-328 | no backend file is under `public/` |
| Content.PagePathsDiffer | backend/services/aiService.js:277-291 | html, css and js paths never collide, and each determines its page name |
| Content.FrontendJsFiles | backend/services/aiService.js:287-292 | a page js file is listed exactly for a page with that name and that non-empty js |
| Content.FrontendHtmlFiles | backend/services/aiService.js:277-280 | a page html file is listed exactly for a page with that name and that html |
| Content.FrontendCount | backend/services/aiService.js:274-293 | the page files number two per page plus one per page with js |
| Content.FileCount | backend/services/aiService.js:270-331 | the whole list numbers the page files plus server, routes, models and three closing files |
| Content.FileOrder | backend/services/aiService.js:296-328 | `server.js` follows the page files, and the last three are `package.json`, `.env.example` with the env template, and `README.md` with the readme |
| Content.FileStructure | backend/services/aiService.js:270-331 | definition: the page files, the server, the routes, the models and the closing files, in push order; `Content.GenerateFileStructure` is proved equal to it, and `Content.FileOrder`, `Content.FileCount` and `Content.FrontendJsFiles` state its shape |
| Content.PackageText | backend/services/aiService.js:315-318 | definition: the package record's fields in `JSON.stringify` order with two-space indentation; no further property is proved |
| Content.GenerateSummary | backend/services/aiService.js:334-347 | the page count is the number of pages, and the summary lists their titles in order |
| Content.SummaryBackend | backend/services/aiService.js:341-344 | `hasBackend` iff some model is generated; `hasForms` iff the contact route is; `hasAdmin` iff the admin route is |
| Content.WebsiteKindRules | backend/services/aiService.js:351-357 | `portfolio` iff the lowercased input mentions portfolio or photographer; `business` iff not and it mentions business or company; otherwise `general`; case does not matter |
| Content.WebsiteKind | backend/services/aiService.js:350-357 | definition: the keyword test on the lower-cased input, portfolio first; stated by `Content.WebsiteKindRules` |
| Content.DefaultSpecifications | backend/services/aiService.js:350-377 | the default specification's type is the keyword classification of the input |
| Content.DefaultShape | backend/services/aiService.js:360-373 | the default pages are index, about, services and contact; features are requested; only the contact form is on |
| Preview.FindFile | backend/routes/preview.js:24 | no file is found exactly when no file has the path; a found file is in the list with that path |
| Preview.FindFileFirst | backend/routes/preview.js:24 | the found file is the first with that path |
| Preview.Rewrite | backend/routes/preview.js:33-76 | the step-by-step reassignment of `html` equals `RewritePage`: inline CSS, rewritten and injected script, page-link pass, root pass |
| Preview.PreviewIndex | backend/routes/preview.js:9-84 | the index handler answers as `ServeIndex` |
| Preview.PreviewPage | backend/routes/preview.js:87-141 | the page handler answers as `ServePage` |
| Preview.IndexChecksId | backend/routes/preview.js:12-15 | the index route answers 400 exactly for an id that is not 24 hex digits, whatever is stored |
| Preview.PageNotFound | backend/routes/preview.js:89-100 | the page route answers 404 exactly for a missing site or page, and otherwise 200 |
| Preview.IndexIsPage | backend/routes/preview.js:17-27 | for a valid id the index route is the page route for `index`, apart from the not-found wording |
| Preview.ContactEcho | backend/routes/preview.js:144-155 | the echo reports success and hands back the submitted body |
| Preview.AssetLookup | backend/routes/preview.js:158-184 | the css and js routes answer 200 with the stored content and their content type exactly when `public/css/<file>` or `public/js/<file>` exists, and 404 otherwise |
| Preview.FetchRewritten | backend/routes/preview.js:59 | `fetch('/api/…`, with no further such call after it, becomes `fetch('/preview/<id>/api/…` |
| Preview.FetchEvery | backend/routes/preview.js:59 | every API call is redirected: text where no call begins is copied, the next `fetch('/api/` becomes `fetch('/preview/<id>/api/`, and the rewriting goes on after it |
| Preview.RootLinksAbsent | backend/routes/preview.js:76 | text without `href="/` passes the root pass unchanged |
| Preview.RootLinksHead | backend/routes/preview.js:76 | `href="/` followed by anything but a quote gets the preview prefix |
| Preview.RootLinksSkip | backend/routes/preview.js:76 | text where no rewrite begins is copied and the pass continues after it |
| Preview.RootLinkKept | backend/routes/preview.js:76 | `href="/"` itself is never rewritten by the root pass |
| Preview.ExternalLinkKept | backend/routes/preview.js:74-76 | an `href="https://` link is left alone by the root pass |
| Preview.RootLinksDoublePrefix | backend/routes/preview.js:127-133 | a link already rewritten by the page pass gets the prefix a second time |
| Preview.PageLinksKeepRoot | backend/routes/preview.js:68-72 | with no empty page name, the page pass leaves `href="/"` alone |
| Preview.PageLinkEvery | backend/routes/preview.js:68-72 | every `href="/<name>"` link of a page is sent into the preview, one after another, with the text between them copied |
| Preview.IndexLinkKept | backend/routes/preview.js:68-76 | both passes together leave the index link `href="/"` as it is |
| Preview.LinkRewriting | backend/routes/preview.js:68-76 | a nav link `href="/<name>"` comes out as `href="/preview/<id>/preview/<id>/<name>"` |
| Preview.LeftoverCssLink | backend/routes/preview.js:48-76 | a stylesheet link left in the page points at `/preview/<id>/css/<name>.css` after the root pass |
| Preview.PageLookup | backend/routes/preview.js:96-103 | over a generated file list, a page's html is found exactly for a generated page name, and its js exactly when that page has js |
| Preview.PreviewFindsGeneratedPages | backend/routes/preview.js:96-103 | the same two lookups over the full `generateFileStructure` output |
| Preview.ServeGeneratedPage | backend/routes/preview.js:89-100 | the page route answers 200 for a generated site exactly for its page names |
| Preview.InlineCss | backend/routes/preview.js:48-53 | definition: with a CSS file, the first exact stylesheet link becomes a `<style>` element holding it; without one the page is unchanged. Its effect is stated by `GenerateRoute.InlinedStyle` and `Preview.LeftoverCssLink` |
| Preview.RewriteFetch | backend/routes/preview.js:58-59 | definition: every `fetch('/api/` of the script becomes `fetch('/preview/<id>/api/`; stated by `Preview.FetchRewritten` and `Preview.FetchEvery` |
| Preview.InjectScript | backend/routes/preview.js:61-64 | definition: the script element goes in before the first `</body>`; stated by `GenerateRoute.InlinedScript` |
| Preview.PageLinks | backend/routes/preview.js:68-72 | definition: the page names in order, each replacing every `href="/<name>"` by its preview link; stated by `Preview.PageLinkEvery` and `Preview.PageLinksKeepRoot` |
| Preview.RootLinks | backend/routes/preview.js:76 | definition: a left-to-right scan where each `href="/` not followed by a quote gets the prefix `href="/preview/<id>/`; stated by `Preview.RootLinksAbsent`, `Preview.RootLinksHead`, `Preview.RootLinksSkip`, `Preview.RootLinkKept` and `Preview.ExternalLinkKept` |
| Preview.RewritePage | backend/routes/preview.js:47-76 | definition: the four stages in the handlers' order (stylesheet, script, page links, root links); `Preview.Rewrite` is proved equal to it, and `Preview.LinkRewriting` and `Preview.IndexLinkKept` state its effect on links |
| Preview.ServePage | backend/routes/preview.js:87-141 | definition: 404 `Website not found`, then 404 `Page not found`, else 200 with the rewritten page; stated by `Preview.PageNotFound` and `Preview.ServeGeneratedPage` |
| Preview.ServeIndex | backend/routes/preview.js:9-84 | definition: 400 for an id that is not 24 hex digits, then the 404s, else 200 with the rewritten index page; stated by `Preview.IndexChecksId` and `Preview.IndexIsPage` |
| Preview.ServeAsset | backend/routes/preview.js:158-184 | definition: 404 `Not found` without a site, 404 with the route's message without the file, else 200 with the stored content and the route's content type; stated by `Preview.AssetLookup` |
| GenerateRoute.ValidateInput | backend/routes/generateWebsite.js:13-15 | a missing or whitespace-only input is rejected with 400 `Please provide a website description`; anything else passes |
| GenerateRoute.PreviewStoredPage | backend/routes/generateWebsite.js:174-214 | the handler answers as `ServeStoredPage` |
| GenerateRoute.StoredPageNotFound | backend/routes/generateWebsite.js:176-189 | html is sent exactly when the site and its page file exist; every JSON answer is a 404 |
| GenerateRoute.InlinedStyle | backend/routes/generateWebsite.js:194-199 | when the page holds the exact stylesheet link of the page, its first occurrence is replaced by a `<style>` element with the css file's content, and the rest is kept |
| GenerateRoute.InlinedScript | backend/routes/generateWebsite.js:201-206 | when the page has a `</body>`, a `<script>` element with the js file's content is inserted before the first one, and the rest is kept |
| GenerateRoute.PageLinksAbsent | backend/routes/preview.js:68-72 | text without `href="/` passes the page pass unchanged |
| GenerateRoute.StoredPreviewAgrees | backend/routes/generateWebsite.js:192-208 | when the script has no `fetch('/api/` call and the inlined page has no `href="/` link, this route's page equals the preview route's page |
| GenerateRoute.InlinedPage | backend/routes/generateWebsite.js:191-206 | definition: the stylesheet inlined, then the unchanged script placed before the first `</body>`; stated by `GenerateRoute.InlinedStyle` and `GenerateRoute.InlinedScript` |
| GenerateRoute.ServeStoredPage | backend/routes/generateWebsite.js:174-214 | definition: JSON 404 `Website not found`, then JSON 404 `Page not found`, else the inlined page; stated by `GenerateRoute.StoredPageNotFound` |
| GenerateRoute.Underscored | backend/routes/generateWebsite.js:98 | the result has the JavaScript length of the input (two UTF-16 units for a character above U+FFFF) and holds only ASCII letters, digits and `_`; when every character is in the BMP, each alphanumeric is kept in place and every other character becomes `_` |
| GenerateRoute.UnderscoreChar | backend/routes/generateWebsite.js:98 | definition: an ASCII letter or digit is kept, any other character becomes one `_` per UTF-16 code unit; stated through `GenerateRoute.Underscored` and `GenerateRoute.SupplementaryTwoUnits` |
| GenerateRoute.ProjectName | backend/routes/generateWebsite.js:98 | the name has the JavaScript length of the site name and contains only `[a-z0-9_]`; on a BMP-only site name it has `_` exactly where the site name is not alphanumeric, and otherwise the lower-cased letter or digit |
| GenerateRoute.ProjectNameIdempotent | backend/routes/generateWebsite.js:98 | sanitising twice is sanitising once |
| GenerateRoute.ProjectNameCollides | backend/routes/generateWebsite.js:98 | names alike up to letter case and up to which non-alphanumerics they use, where those take as many UTF-16 units, share a directory |
| GenerateRoute.SupplementaryTwoUnits | backend/routes/generateWebsite.js:98 | a character above U+FFFF becomes `__` and a non-alphanumeric BMP character becomes `_` |
| GenerateRoute.EmojiKeepsItsDirectory | backend/routes/generateWebsite.js:98 | `"a🚀"` gives `a__` and `"a!"` gives `a_`, so the two sites get different directories |
| GenerateRoute.ProjectNameSafe | backend/routes/generateWebsite.js:98-99 | the project name contains no `/` and no `.`, so it cannot leave the projects directory; it is empty exactly for an empty site name, which makes the project path the projects directory itself |
| GenerateRoute.JoinPath | backend/routes/generateWebsite.js:99 | joining gives `dir/name`, or `dir` for an empty name |
| GenerateRoute.JoinPathInjective | backend/routes/generateWebsite.js:115 | distinct plain names (non-empty, relative, with no empty, `.` or `..` segment) give distinct paths |
| GenerateRoute.SaveDirs | backend/routes/generateWebsite.js:104-109 | six directories: the project directory first, then five inside it |
| GenerateRoute.StoredWebsite.ProjectPath | backend/routes/generateWebsite.js:97-99 | definition: the project name joined to the projects directory; stated by `GenerateRoute.ProjectNameSafe` |
| GenerateRoute.Written | backend/routes/generateWebsite.js:114-117 | one write per file, in order, with its content; a file with a plain path is written under the project directory |
| GenerateRoute.WrittenPath | backend/routes/generateWebsite.js:115 | write `i` goes to `projectPath/<path i>` |
| GenerateRoute.WrittenDistinct | backend/routes/generateWebsite.js:114-117 | distinct plain file paths are written to distinct places |
| GenerateRoute.TraversalPagePath | backend/routes/generateWebsite.js:114-117 | a page named `../../x` is stored as `public/../../x.html`, a path that is not plain, so the write leaves the project directory |
| GenerateRoute.StoredWebsite.constructor | backend/routes/generateWebsite.js:23-30 | a new website holds its files and site name, no project path, status `generated` |
| GenerateRoute.StoredWebsite.Save | backend/routes/generateWebsite.js:97-124 | makes the six directories, writes every file, sets `projectPath` to the project directory and `status` to `saved`, and changes nothing else |
| GenerateRoute.SaveRoute | backend/routes/generateWebsite.js:83-133 | a missing site is a 404 with no writes; otherwise the save happens and the reply carries the project path |
| Export.LastIndexOfLast | frontend/src/utils/export.js:71 | the found close tag occurs there and nowhere later; none is found exactly when there is none |
| Export.MatchAt | frontend/src/utils/export.js:71 | a match at `i` captures inside the text, after the open tag, leaving room for a close tag after it |
| Export.MatchAtTags | frontend/src/utils/export.js:71 | a match at `i` has the open tag at `i`, a `>` just before the capture and a close tag right after it |
| Export.SearchFrom | frontend/src/utils/export.js:71 | a capture found from `i` lies within the text |
| Export.CaptureGreedy | frontend/src/utils/export.js:71-74 | in `A <name attrs> B </name> C`, where neither tag occurs earlier or later, the capture is all of `B` whatever tags `B` holds and whatever the tags' case |
| Export.CaptureAbsent | frontend/src/utils/export.js:71-74 | no open tag means no capture |
| Export.PreviewFragment | frontend/src/utils/export.js:70-81 | a fragment without `<body` or `<head` is used whole as the body, with an empty head |
| Export.PreviewFullDocument | frontend/src/utils/export.js:70-74 | a full document contributes exactly what lies between its body tags |
| Export.ScriptText | frontend/src/utils/export.js:104 | `javascript \|\| ''`: no script gives `''` |
| Export.GeneratePreview | frontend/src/utils/export.js:68-107 | the conditional reassignments compute the preview document |
| Export.PreviewEmbedsFragment | frontend/src/utils/export.js:83-107 | for a fragment, the preview document holds it right after the meta, reset style, css and body tag |
| Export.ProjectTitle | frontend/src/utils/export.js:4 | the project name defaults to `website` |
| Export.ExportWebsite | frontend/src/utils/export.js:4-29 | the download has the derived file name and the export document |
| Export.ExportEmbedsMarkup | frontend/src/utils/export.js:6-22 | the export document holds the html verbatim right after the meta, title, style with the css, and body tag |
| Export.DefaultDownloadName | frontend/src/utils/export.js:4-29 | with no project name the file is `website.html` |
| Export.DownloadNameRules | frontend/src/utils/export.js:29 | the file name is the package-style name of the project name plus `.html` and contains no whitespace |
| Export.ScriptDefault | frontend/src/utils/export.js:19-104 | a missing script and an empty script give the same documents |
| Export.ExportAsFiles | frontend/src/utils/export.js:40-42 | delegates to `exportWebsite` |
| Export.FormatCode | frontend/src/utils/export.js:60-63 | returns its input unchanged |
| Export.Capture | frontend/src/utils/export.js:71 | definition: on the lower-cased text, the leftmost position where the open tag, a `>` after it and a close tag after that are found, the capture running to the last close tag; stated by `Export.CaptureGreedy` and `Export.CaptureAbsent` |
| Export.BodyContent | frontend/src/utils/export.js:70-74 | definition: the body capture, or the whole markup when there is none; stated by `Export.PreviewFragment` and `Export.PreviewFullDocument` |
| Export.HeadContent | frontend/src/utils/export.js:77-81 | definition: the head capture, or `''` when there is none; stated by `Export.PreviewFragment` |
| Export.PreviewDocument | frontend/src/utils/export.js:83-107 | definition: the preview shell around the head, the CSS, the body and the script; `Export.GeneratePreview` is proved equal to it, and `Export.PreviewEmbedsFragment` states where a fragment lands |
| Export.ExportDocument | frontend/src/utils/export.js:6-22 | definition: the download shell around the title, the CSS, the markup and the script; stated by `Export.ExportEmbedsMarkup` and `Export.ScriptDefault` |
| Export.DownloadName | frontend/src/utils/export.js:29 | definition: white-space runs of the project name turned into `-`, lower-cased, then `.html`; stated by `Export.DownloadNameRules` and `Export.DefaultDownloadName` |

## Left out

- Language-model calls (`extractSpecifications`, the remote part of `generateHeroContent` and `generateFeaturesContent`): their replies are parameters (`Option<Record>`, `None` for a failed call).
- The network, the database (`findById`, `save`, the list, get and delete routes of `generateWebsite.js`) and Express plumbing: a stored site is an input value, and an answer is a status with a body.
- File-system effects in `/:id/save`: `mkdir` and `writeFile` are returned as the lists `dirs` and `writes`, not performed; failures and the 500 paths of every route are not modelled.
- GenerateRoute.JoinPath, GenerateRoute.Written, GenerateRoute.WrittenDistinct, GenerateRoute.JoinPathInjective: `JoinPath` is `dir/name` without the normalisation of `path.join`, so the containment and distinctness are promised only for plain paths. Page names come from the language model unchecked, and a name such as `../../x` gives `public/../../x.html`, which `path.join` resolves outside the project directory (`GenerateRoute.TraversalPagePath`); likewise `a` and `./a` name one file.
- Blob, URL, DOM and `copyToClipboard` in `export.js`: `ExportWebsite` returns the file name and document instead of clicking a link, and `GeneratePreview` returns the document instead of an object URL.
- The clock: the footer year is a parameter.
- `backend/components/templates.js` is not part of this model. The server, auth-route, user-model and admin-route code strings are opaque constants apart from their `siteName`-derived parts. The debug `console` calls are not modelled either.
- Regex semantics: keys and page names are matched literally (metacharacters in them are not interpreted), and `$&`/`$1` in replacement values are not expanded.
- Export.DownloadNameRules, Generator.SiteNames, Preview.RootLinks, Export.Capture: `toLowerCase` and the `i` flag are ASCII-only, `\s` is the ASCII and common JS whitespace set, and no Unicode case folding is modelled.
- Template.Shown: numbers are integers only (no floating-point formatting), array values are arrays of records, and `String(…)` of a nested object is `[object Object]`.
- Template.Lookup: a data record is taken to have distinct keys, as a JavaScript object does, and the first entry with a key is read. The records the generator builds have distinct keys (`Content.NavFooterKeysDistinct`). A reply parsed from the language model with a repeated key would keep its last value in JavaScript; that case is not modelled. Backend flags are read from the last entry (`Generator.LastFlag`), because there a repeated key decides which files are generated.
- Generator.Keys: object key order is insertion order; JS places integer-like keys first, and prototype properties such as `constructor` are not looked up.
- Generator.Readme: the contract only fixes the heading; the feature, page and backend sections are stated through `Bullets` and `BackendSection`.
- Generator.FlagOn: flags are booleans; non-boolean truthy values in `backend` are not modelled. The summary's `hasBackend`, `hasForms` and `hasAdmin` are booleans rather than the raw flag values.
- GenerateRoute.ValidateInput: a non-string `userInput` is not modelled; the input is an optional string.
- GenerateRoute.Underscored, GenerateRoute.ProjectName: a site name holding an unpaired surrogate is not modelled, since a Dafny character is a Unicode scalar value; characters above U+FFFF are counted as the two code units JavaScript stores.
- Export.ProjectTitle: only an omitted project name takes the default; an explicit `undefined` is the same case, and `null` (which would throw) is not modelled.
- Generator.PageTitle: an absent page title is modelled as the empty string. This is right for `page.title || siteName` (codeGenerator.js:64), which falls back to the site name. It is not right for the readme's `${p.title}` (codeGenerator.js:417), which prints `undefined`, or for the summary's `pages` (aiService.js:339), which holds `undefined`; the model has `""` in both places.
