# abbzug static-site builder, modelled in Dafny

abbzug turns a site directory into rendered HTML. The directory holds a `site.conf`, Jinja2
templates, Markdown posts with front matter, and static assets. This project models the build
pipeline of its `Site` class (`abbzug/ssgsite.py`) and the older top-level variant of the same
class (`ssgsite.py`). Each is modelled twice:

- as pure specification functions;
- as an imperative `class Site` whose methods are proved against those functions.

The disk is not a real file system. It is an ordered log of effects: make a directory, write a
file, copy a tree. `FileSystem.Files(log)`, `FileSystem.Dirs(log)` and `FileSystem.Written(log)`
replay that log, so the order of writes, overwrites and "nothing written" can all be stated.

Several inputs are given to the model rather than computed by it:

- the glob results per pattern;
- the set of template names the loader can resolve;
- the template engine (`render`);
- `slugify`.

These are fields of a `World` value.

Modules:

- `Wrappers`, `Sequences`: `Option`/`Outcome`/`Result`, and order-preserving helpers on
  sequences. `Dedup` is the key order of a Python dict.
- `Paths`: `os.path.join`, the last path component (`split("/")[-1]`) and
  `str.replace(".md", ".html")`.
- `SiteConfig`: the parsed config as an ordered list of named sections, Python truthiness of
  `conf.get(key)`, and location sections.
- `FileSystem`: the effect log, and the content files as parsed documents.
- `ReadingTime`: the reading-time estimate in exact integers.
- `AbbzugModel`, `AbbzugPreload`, `AbbzugTags`, `AbbzugRender`, `AbbzugBuild`: the
  specification of `abbzug/ssgsite.py`.
  - Posts with their derived fields.
  - The per-location tag index: an association list, in dict insertion order.
  - Tag pages.
  - Section rendering.
  - The two passes of `build`.
- `AbbzugSite`: `class Site` for `abbzug/ssgsite.py`. Its fields are `cache`, `tags` and `log`.
- `LegacyModel`, `LegacyBuild`: the specification of `ssgsite.py`. Its per-location cache is
  keyed by file name.
- `LegacySite`: `class Site` for `ssgsite.py`. Its fields are `cache` and `log`.

How the two builds behave, as modelled:

- **Location sections.** Only sections whose name starts with `/` are processed. They are handled
  in config order, and the location is the name without that `/`.
- **The abbzug build** runs in three steps.
  1. A first pass preloads every location: posts, derived fields and tag index. The same pass
     renders that location's tag pages.
  2. A second pass renders post pages and `index.html`. It stops at the first section that
     raises `ValueError`.
  3. Finally the static tree is copied. This happens only if no section raised.
- **The legacy build** has the same shape, without tags.
  - Its cache is keyed by base name, so files with equal base names collapse: the later
    document wins and the first position is kept.
  - A section with `content` renders one page per cache entry with `template`. It renders
    `index.html` only when `index` is set.
  - A section without `content` renders `template` itself as `index.html`.

Three behaviours of the code worth knowing, all kept by the model:

- **When an error stops the build.** A missing template key raises during the render pass. By
  then the first pass has preloaded every section and written all tag pages, and the sections
  rendered before the faulty one are written too. `AbbzugBuild.BuildOutcome` states what the log
  then holds.
- **When tag pages are rendered.** Tag pages are written in the first pass, right after each
  location's preload (abbzug/ssgsite.py:69-70), not in the render pass.
- **Extra keys.** A section without `post_subdir` may still set `post_template` or other keys.
  They are not rejected; they are ignored.

## Model

| member | source | states |
|---|---|---|
| SiteConfig.FindSection | abbzug/ssgsite.py:69 | `config[name]` is absent exactly when no section has that name; when present it is the keys of a section of that name |
| SiteConfig.LocationOf | abbzug/ssgsite.py:68-69 | the location of a `/`-section is its name without the leading `/` ("/" + location is the name) |
| Paths.Basename | abbzug/ssgsite.py:176 | the base name has no `/`, is a suffix of the path, and is preceded by `/` when shorter than the path |
| Paths.JoinRelative | abbzug/ssgsite.py:29-32 | joining a relative part keeps both sides and inserts a `/` exactly when the left side is non-empty and does not already end in one |
| Paths.JoinEmptyRight | abbzug/ssgsite.py:249-250 | joining an empty right side yields a trailing `/` (or the empty string for an empty left side) |
| Paths.ReplaceMdIdentity | abbzug/ssgsite.py:177 | a name without ".md" is not changed by the rewrite |
| Paths.ReplaceMdConcat | abbzug/ssgsite.py:177 | when the right part starts with '.', no ".md" straddles the split, so both halves are rewritten independently |
| Paths.OutNameOfMdFile | abbzug/ssgsite.py:177 | `<stem>.md` with no other ".md" becomes `<stem>.html` |
| Paths.ReplaceMdComplete | abbzug/ssgsite.py:177 | no ".md" is left after the rewrite: every occurrence is replaced |
| ReadingTime.RoundHalfEvenIsNearestEven | abbzug/ssgsite.py:183 | the integer formula yields a nearest integer to n/270, the even one on a tie, and is the only such integer (Python's `round`) |
| ReadingTime.CountSpacesIsMultiplicity | abbzug/ssgsite.py:183 | the space count is the multiplicity of `' '` in the body |
| ReadingTime.MinutesBounds | abbzug/ssgsite.py:183 | at most 134 spaces (an empty body included) give 0 minutes, the tie 135/270 rounding to the even 0; 135 to 403 spaces give 1 minute; 270 × minutes is within 135 of spaces + 1 |
| FileSystem.LastWriteWins | abbzug/ssgsite.py:219-227 | a file holds what the last write to its path put there (`open(path, "w+")` overwrites) |
| FileSystem.FilesAreWritten | abbzug/ssgsite.py:144-155 | the files on disk are exactly the paths written |
| FileSystem.DirsConcat | abbzug/ssgsite.py:73-79 | the directories made by consecutive steps are those made by each |
| FileSystem.DirsMade | abbzug/ssgsite.py:115 | a directory exists exactly when some step made it (`os.makedirs`) |
| FileSystem.MadeBeforeLast | abbzug/ssgsite.py:114-124 | a directory made just before the final step exists when that step runs |
| FileSystem.WrittenConcat | abbzug/ssgsite.py:73-79 | the writes of consecutive steps are the writes of each, in order |
| AbbzugModel.LoadConfig | abbzug/ssgsite.py:44-51 | loading passes exactly when some section is named `ABBZUG`, and fails with the "Needs ABBZUG section" message otherwise |
| AbbzugModel.Configure | abbzug/ssgsite.py:23-33 | construction fails exactly when `load_config` fails, with its message |
| AbbzugModel.ConfigureDefaults | abbzug/ssgsite.py:25-33 | absent keys give `templates/`, `output/`, `static/`, `posts/` under the content root and base URL `/` |
| AbbzugModel.ConfigureEmptyOverrides | abbzug/ssgsite.py:25-33 | a key that is present but empty overrides its default (`get` falls back only on absence) |
| AbbzugPreload.Names | abbzug/ssgsite.py:188 | the keys of a tag index, one per entry, in order |
| AbbzugPreload.TagPosition | abbzug/ssgsite.py:188-191 | the first position of a key, or -1 exactly when it is absent |
| AbbzugPreload.LoadPostsSnoc | abbzug/ssgsite.py:175-186 | loading one more enumerated file appends exactly its post to the cache |
| AbbzugPreload.AddTagEffect | abbzug/ssgsite.py:188-191 | adding one tag occurrence adds the key only if it is new (at the end) and appends the post to that key's list only |
| AbbzugPreload.AddTagsEffect | abbzug/ssgsite.py:187-191 | adding a post's tag list grows the keys like an ordered dedup and gives each key the post once per occurrence |
| AbbzugPreload.IndexPostsContents | abbzug/ssgsite.py:175-191 | the index keys are the distinct tags in order of first use, and each key's posts are its reference members |
| AbbzugPreload.IndexPostsGrouped | abbzug/ssgsite.py:184-191 | loading establishes the grouping invariant between the cache and the tag index |
| AbbzugPreload.EntryIsLookup | abbzug/ssgsite.py:191 | with distinct keys the entry at a position is what a lookup of its key finds |
| AbbzugPreload.AllTagsCarried | abbzug/ssgsite.py:187 | a tag occurs in the union of tag lists exactly when some post carries it |
| AbbzugPreload.TagKeyIff | abbzug/ssgsite.py:187-191 | a tag key exists exactly when some loaded post carries that tag (both directions) |
| AbbzugPreload.MembersAreCarrying | abbzug/ssgsite.py:187-191 | when no post lists a tag twice, the tag's posts are exactly the subsequence of the cache carrying it |
| AbbzugPreload.UntaggedJoinsNothing | abbzug/ssgsite.py:184-185 | a post without `tags` gets an empty tag list and leaves every index unchanged |
| AbbzugPreload.PostLocation | abbzug/ssgsite.py:176-182 | `<stem>.md` is written to `join(join(output, loc), <stem>.html)` and its URL is `base_url + loc + <stem>.html` with no separator |
| AbbzugPreload.OutNameOfStem | abbzug/ssgsite.py:176-177 | the output name of `<dir>/<stem>.md` is `<stem>.html` |
| AbbzugPreload.OutNameHasNoMd | abbzug/ssgsite.py:177 | no output name keeps a ".md" |
| AbbzugTags.TagPagesSnoc | abbzug/ssgsite.py:207-227 | one more tag of the loop appends that tag's directory and page |
| AbbzugTags.FinalizeAllSnoc | abbzug/ssgsite.py:207-216 | finalizing one more tag appends it with its page fields |
| AbbzugTags.TagOutfiles | abbzug/ssgsite.py:215 | one outfile per tag, in index order, each `join(..., slug, 'index.html')` |
| AbbzugTags.TagPagesWritten | abbzug/ssgsite.py:207-227 | the tag loop writes one page per tag, at the tags' outfiles, in index order |
| AbbzugTags.TagPagesIff | abbzug/ssgsite.py:200-218 | `_build_tags` only appends to the log; it writes something exactly when the index is non-empty, both keys are set and the template resolves, and then exactly the tags' outfiles |
| AbbzugTags.LaterTagWins | abbzug/ssgsite.py:209-227 | tags whose slugs collide share an outfile, and it holds the page of the later tag |
| AbbzugTags.GroupedPointwise | abbzug/ssgsite.py:207-216 | the grouping invariant depends only on keys and post lists |
| AbbzugTags.BuildTagsShape | abbzug/ssgsite.py:194-216 | `_build_tags` replaces only its location's index, keeping its keys and post lists in order, and leaves the cache alone |
| AbbzugTags.BuildTagsKeepsGrouping | abbzug/ssgsite.py:194-216 | `_build_tags` keeps the grouping invariant and touches no other location |
| AbbzugRender.OutPaths | abbzug/ssgsite.py:144 | the posts' outpaths, in cache order |
| AbbzugRender.PostWritesPaths | abbzug/ssgsite.py:140-155 | one page per cached post, at that post's outpath, in cache order |
| AbbzugRender.PostWritesAt | abbzug/ssgsite.py:140-155 | post `k` of the cache is written at its own outpath, rendered with the post template and that post's environment |
| AbbzugRender.ContentSectionPages | abbzug/ssgsite.py:140-155 | a content section's first effects are its post pages, post `k` at its outpath, rendered with an environment whose `post` is that post and whose `CONTENT` is its body |
| AbbzugRender.IndexEnvironments | abbzug/ssgsite.py:100-134 | a resolved index is the section's last write, into a directory that already exists; its environment has `posts` (the cached posts) exactly for a content section, and `section_name` and `tags` of the location |
| AbbzugRender.SectionFailsIff | abbzug/ssgsite.py:89-97 | a section raises exactly when `index_template` is unset, or `post_subdir` is set without `post_template`; raising writes nothing |
| AbbzugRender.IndexWritten | abbzug/ssgsite.py:111-134 | the index step makes the output directory first and writes `index.html` exactly when the template resolves |
| AbbzugRender.SectionWrites | abbzug/ssgsite.py:86-108 | a passing section makes its directory and writes the posts (if it has content and the post template resolves) then the index (if its template resolves), and nothing else |
| AbbzugRender.ContentSectionWrites | abbzug/ssgsite.py:94-104 | a content section writes its posts' outpaths (or none when the post template does not resolve) followed by the index |
| AbbzugRender.AppendWrites | abbzug/ssgsite.py:100-104 | posts followed by the index step write the posts' paths then the index's |
| AbbzugBuild.ReloadKeepsGrouping | abbzug/ssgsite.py:163-191 | replacing one location's posts and index keeps every location grouped and caches that location |
| AbbzugBuild.PreloadStepKeeps | abbzug/ssgsite.py:161-191 | `_preload_section` keeps the grouping invariant and caches its location; without `post_subdir` the location's posts and tags are reset to empty and nothing is done to the disk |
| AbbzugBuild.BuildTagsKeeps | abbzug/ssgsite.py:194-216 | `_build_tags` keeps the grouping of every location and leaves the cache alone |
| AbbzugBuild.PreloadSectionStepKeeps | abbzug/ssgsite.py:67-70 | one section of the first pass keeps the invariant and caches its location |
| AbbzugBuild.PreloadPassEstablishes | abbzug/ssgsite.py:65-70 | after the first pass every location section is cached and every cached location's index is grouped with its posts |
| AbbzugBuild.FirstFaulty | abbzug/ssgsite.py:73-77 | the first section that raises, or the number of sections when none does |
| AbbzugBuild.RenderPassFirstError | abbzug/ssgsite.py:73-77 | the render pass raises exactly when some section is faulty, with the first faulty section's error, after all effects of the sections before it |
| AbbzugBuild.RenderPassSnoc | abbzug/ssgsite.py:73-77 | one more section of the render pass appends that section's effects (none for a non-location) |
| AbbzugBuild.RenderPassStaysFailed | abbzug/ssgsite.py:73-77 | once a section has raised, later sections add nothing |
| AbbzugBuild.BuildOutcome | abbzug/ssgsite.py:56-79 | the build passes exactly when no section is faulty and then ends with the static copy; otherwise it fails with the first faulty section's error, the log holding the whole first pass (all tag pages) and the earlier sections, and no static copy |
| AbbzugBuild.StaticDefault | abbzug/ssgsite.py:246-252 | without `static_dir` the static tree is copied into the output directory itself |
| AbbzugSite.Site.Open | abbzug/ssgsite.py:23-53 | construction fails exactly when there is no `ABBZUG` section, with its message; otherwise a fresh site with the configured settings and an empty log |
| AbbzugSite.Site.RecordTags | abbzug/ssgsite.py:187-191 | the loop over a post's tags is the specified `AddTags` |
| AbbzugSite.Site.LoadAll | abbzug/ssgsite.py:175-191 | the file loop yields the specified posts and their tag index |
| AbbzugSite.Site.PreloadSection | abbzug/ssgsite.py:161-191 | `_preload_section` moves the state to the specified `PreloadStep` |
| AbbzugSite.Site.RenderTag | abbzug/ssgsite.py:207-227 | one tag iteration sets the page fields and makes the directory; it writes the page exactly when the template resolves |
| AbbzugSite.Site.RenderTags | abbzug/ssgsite.py:207-227 | the tag loop finalizes and renders every tag when the template resolves, and stops after the first tag's fields and directory otherwise |
| AbbzugSite.Site.BuildTags | abbzug/ssgsite.py:194-227 | `_build_tags` moves the state to the specified `BuildTagsStep` |
| AbbzugSite.Site.WritePost | abbzug/ssgsite.py:144-155 | a post page is written at its outpath with the specified post environment |
| AbbzugSite.Site.BuildContent | abbzug/ssgsite.py:137-155 | `_build_content` appends the specified content effects |
| AbbzugSite.Site.BuildNoContent | abbzug/ssgsite.py:111-134 | `_build_nocontent` appends the specified index effects |
| AbbzugSite.Site.BuildSection | abbzug/ssgsite.py:86-108 | `_build_section` raises as specified and appends the specified section effects |
| AbbzugSite.Site.CopyStatic | abbzug/ssgsite.py:246-252 | the static copy goes to the specified destination |
| AbbzugSite.Site.PreloadAll | abbzug/ssgsite.py:65-71 | the first loop starts from an empty cache and index and ends in the specified first-pass state |
| AbbzugSite.Site.RenderSection | abbzug/ssgsite.py:73-77 | one render iteration extends the specified render pass by one section |
| AbbzugSite.Site.RenderAll | abbzug/ssgsite.py:73-77 | the render loop yields the specified render pass, stopping at the first error |
| AbbzugSite.Site.Build | abbzug/ssgsite.py:56-79 | `build` yields exactly the specified outcome, cache, tag index and log |
| LegacyModel.Configure | ssgsite.py:22-31 | construction fails exactly when no section is named `ABBZUG`, with its message; otherwise the settings keep that section |
| LegacyModel.ConfigureDefaults | ssgsite.py:24-31 | absent keys give directories `content`, `templates`, `output` and `static` under the content root |
| LegacyModel.Keys | ssgsite.py:151 | the keys of a cache, one per entry, in order |
| LegacyModel.IndexOf | ssgsite.py:138 | the first position of a key, or -1 exactly when it is absent |
| LegacyModel.PutEntryKeys | ssgsite.py:138 | storing under a name adds it at the end only if it is new |
| LegacyModel.PutEntryFind | ssgsite.py:138 | after storing, the name finds the new document and every other name finds what it found before |
| LegacyModel.PutNewOther | ssgsite.py:138 | appending a new name leaves the other names' documents alone |
| LegacyModel.IndexOfAppend | ssgsite.py:138 | appending a different name does not move a key |
| LegacyModel.LoadCacheKeys | ssgsite.py:134-138 | the keys of a location's cache are the distinct base names in order of first enumeration |
| LegacyModel.BasenamesSnoc | ssgsite.py:135-138 | the key order after one more file is the ordered dedup of one more base name |
| LegacyModel.LoadCacheDistinct | ssgsite.py:134-138 | the keys are distinct and are exactly the base names enumerated: files with equal base names collapse into one entry |
| LegacyModel.LoadCacheLastWins | ssgsite.py:135-138 | a base name maps to the document of the last enumerated file with that name |
| LegacyBuild.PreloadPassKeys | ssgsite.py:125-134 | the first pass caches a location exactly when some location section for it has `content` |
| LegacyBuild.PreloadPassValue | ssgsite.py:125-138 | a cached location holds what the last content section for that location loaded |
| LegacyBuild.PagePaths | ssgsite.py:162-163 | the page path of each cache key, in order: `join(join(output, loc), key with ".md" made ".html")` |
| LegacyBuild.PostWritesAt | ssgsite.py:151-172 | the post loop writes one page per cache entry, in order, at its page path, rendered with exactly `CONTENT`, `post`, `section` and `config` |
| LegacyBuild.PostWritesPaths | ssgsite.py:151-163 | the post pages are written at the page paths of the cache keys, in cache order |
| LegacyBuild.PagePathsSnoc | ssgsite.py:162-163 | one more cache entry appends its page path |
| LegacyBuild.PagesPerBasename | ssgsite.py:134-163 | rendering a loaded location writes one page per distinct base name, in order of first enumeration |
| LegacyBuild.SectionFailsIff | ssgsite.py:83-85 | a section raises exactly when `template` is unset, and then writes nothing |
| LegacyBuild.IndexWritten | ssgsite.py:103-122 | the index step makes the output directory first and writes `index.html` exactly when the template resolves |
| LegacyBuild.ContentWritten | ssgsite.py:140-163 | the content step makes the output directory first and writes the post pages exactly when the template resolves |
| LegacyBuild.SectionWrites | ssgsite.py:80-100 | a passing section makes its directory first; with content it writes the post pages (template resolves) then `index.html` (only when `index` is set and resolves); without content only `index.html` rendered from `template` |
| LegacyBuild.SectionDirBeforeWrites | ssgsite.py:80-100 | a section makes its output directory before anything else, so every page it writes goes into a directory that already exists |
| LegacyBuild.IndexEnvironments | ssgsite.py:93-121 | a content section's index is rendered with exactly `posts`, `section` and `config`; a section without content writes exactly its directory and an index rendered with `section` and `config` |
| LegacyBuild.ContentSectionsCached | ssgsite.py:61-64 | after the first pass every location section with `content` is cached, so the render pass never looks up a missing location |
| LegacyBuild.FirstFaulty | ssgsite.py:67-71 | the first location section without `template`, or the number of sections when there is none |
| LegacyBuild.RenderPassFirstError | ssgsite.py:67-71 | the render pass raises exactly when some location section has no template, with that section's error, after the effects of the sections before it |
| LegacyBuild.RenderPassSnoc | ssgsite.py:67-71 | one more section of the render pass appends that section's effects (none for a non-location) |
| LegacyBuild.RenderPassStaysFailed | ssgsite.py:67-71 | once a section has raised, later sections add nothing |
| LegacyBuild.BuildOutcome | ssgsite.py:52-73 | the build passes exactly when every location section has a template and then ends with the static copy; otherwise it fails with the first faulty section's error, the log holding the earlier sections, and no static copy |
| LegacyBuild.StaticDefault | ssgsite.py:187-193 | without `static_directory` the static tree is copied into the output directory itself |
| LegacySite.Site.Open | ssgsite.py:22-49 | construction fails exactly when there is no `ABBZUG` section, with its message; otherwise a fresh site with the configured settings, an empty cache and an empty log |
| LegacySite.Site.Store | ssgsite.py:138 | `cache[n] = d` is the specified `PutEntry`: the name is added only if new and finds `d` |
| LegacySite.Site.LoadAll | ssgsite.py:135-138 | the file loop yields the specified `LoadCache` |
| LegacySite.Site.PreloadSection | ssgsite.py:125-138 | `_preload_section` moves the cache to the specified `PreloadStep` |
| LegacySite.Site.WritePost | ssgsite.py:162-172 | a post page is written at its page path with the specified post environment |
| LegacySite.Site.WritePosts | ssgsite.py:151-172 | the post loop writes every entry when the template resolves, and nothing otherwise |
| LegacySite.Site.BuildContent | ssgsite.py:140-172 | `_build_content` appends the specified content effects |
| LegacySite.Site.BuildNoContent | ssgsite.py:103-122 | `_build_nocontent` appends the specified index effects |
| LegacySite.Site.BuildSection | ssgsite.py:80-100 | `_build_section` raises as specified and appends the specified section effects |
| LegacySite.Site.CopyStatic | ssgsite.py:187-193 | the static copy goes to the specified destination |
| LegacySite.Site.PreloadAll | ssgsite.py:61-64 | the first loop starts from an empty cache and ends in the specified first-pass cache |
| LegacySite.Site.RenderSection | ssgsite.py:67-71 | one render iteration extends the specified render pass by one section |
| LegacySite.Site.RenderAll | ssgsite.py:67-71 | the render loop yields the specified render pass, stopping at the first error |
| LegacySite.Site.Build | ssgsite.py:52-73 | `build` yields exactly the specified outcome, cache and log |

## Left out

- I/O: reading `site.conf` and the content files, writing files and copying trees. The disk is an effect log, and files and directories are derived from it.
- `print` logging and the `debug` flag. Because of `CONFIG_DEFAULTS`, `debug` is the string `"False"` (which is truthy), and it only gates `print`. Also left out: the `sitename` hint and the `datetime` elapsed-time report.
- Jinja2: building the `Environment`, its extensions, loading and compiling templates, and rendering.
  - A template is its name.
  - Lookup is membership in the set of resolvable names. A resolved template passed back in resolves to itself.
  - `render` is an uninterpreted function of the template and its environment.
  - Render errors (for example an undefined variable) are not modelled. In the source they propagate out of `build`.
- `_get_template` (abbzug/ssgsite.py:230-235, ssgsite.py:156-160) is the Jinja2 lookup itself. Both `Site` classes keep it as `GetTemplate`, a stand-in that resolves a name exactly when it is in the set of resolvable names. It states nothing about the source beyond that assumption.
- The legacy `_build_content` creates a fresh `Environment` for every entry. It is modelled with the same set of resolvable names.
- python-frontmatter parsing: every content file is given as a parsed `Document` (header and body).
  - The abbzug reading time uses `str(post)`, which is the body.
  - `tags` is taken to be a list. A `tags` header given as a plain string would be iterated character by character in the source.
- Derived post fields. The source stores `inpath`, `outpath`, `url`, `readingtime` and the default `tags` in the header dictionary itself, so a header key of the same name is overwritten. The model keeps the header and the derived fields apart.
- `slugify` is an uninterpreted function.
- Glob order and recursion: the enumeration result per pattern is given. A pattern not listed matches nothing.
- `copy_tree`: only its source and destination are modelled, not the files it copies.
- configparser syntax, its `DEFAULT` section and value typing. The config is an ordered list of sections with string values. Duplicate section names, which configparser rejects, are allowed, and a later section for the same location replaces the earlier one's cache entry.
- `os.makedirs` also creates parent directories. The log records only the directory named.
- Floating point: `round(n / 270.0)` is the integer half-to-even formula. This is exact for the non-negative integers involved.
- The shared mutable default `env={}` of `_build_content` and `_build_nocontent`. Every call writes the same fixed keys into it, so each call is modelled with a fresh environment holding exactly those keys.
- The text of a section's `ValueError`. The model's error records which template key is missing and for which location, not the message string.
- Exceptions other than the `ValueError`s of a section: I/O errors, template syntax errors, and the `KeyError` of `self.cache[location]`. `LegacyBuild.ContentSectionsCached` shows that this `KeyError` cannot occur.
- The click CLI, the pyinotify watch/rebuild loop and `newsite` scaffolding (abbzug/__init__.py, abbzug.py). These are event handling and I/O.
- mdcontent.py is a Markdown extension that calls a foreign library. setup.py is packaging metadata. Neither is part of this model.
