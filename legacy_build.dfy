/** The build of ssgsite.py (`build`, `_preload_section`, `_build_section`,
    `_build_content`, `_build_nocontent`, `_copy_static`): what each step does to
    the cache and to the disk. */
module LegacyBuild {
  import opened Wrappers
  import opened Sequences
  import opened Paths
  import opened SiteConfig
  import opened FileSystem
  import opened LegacyModel

  /** `_preload_section`: a section with `content` caches the files found under the content
      directory; any other section leaves the cache as it is. */
  function PreloadStep(w: World, s: Settings, cache: map<string, PostCache>, loc: string, conf: KeyValues)
    : map<string, PostCache>
  {
    if !IsSet(conf, "content") then cache
    else cache[loc := LoadCache(Glob(w.glob, Join(s.dirContent, conf["content"])))]
  }

  /** The first loop of `build` over `secs`, in order, for location sections only. */
  function PreloadPass(w: World, s: Settings, secs: seq<Section>, cache: map<string, PostCache>)
    : map<string, PostCache>
  {
    if secs == [] then cache
    else
      var before := PreloadPass(w, s, secs[..|secs| - 1], cache);
      var sec := secs[|secs| - 1];
      if IsLocation(sec.name) then PreloadStep(w, s, before, LocationOf(sec.name), sec.keys) else before
  }

  /** `self.cache[location]` (empty for a location never preloaded). */
  function CacheOf(cache: map<string, PostCache>, loc: string): PostCache
  {
    if loc in cache then cache[loc] else []
  }

  /** Where a location's pages go. */
  function OutDir(s: Settings, loc: string): string
  {
    Join(s.dirOutput, loc)
  }

  /** Where the page of the cache entry named `name` goes. */
  function PostPath(s: Settings, loc: string, name: string): string
  {
    Join(OutDir(s, loc), ReplaceMd(name))
  }

  /** Where a location's index page goes. */
  function IndexPath(s: Settings, loc: string): string
  {
    Join(OutDir(s, loc), "index.html")
  }

  /** The environment of one post page. */
  function PostEnv(cfg: Config, conf: KeyValues, e: CacheEntry): Env
  {
    map[
      "CONTENT" := Text(e.doc.body),
      "post" := PostMeta(e.doc.meta),
      "section" := SectionConf(conf),
      "config" := WholeConfig(cfg)]
  }

  /** One page per cache entry, in cache order. */
  function PostWrites(w: World, s: Settings, cfg: Config, loc: string, conf: KeyValues,
                      template: string, c: PostCache): seq<Effect>
  {
    if c == [] then []
    else
      var e := c[|c| - 1];
      PostWrites(w, s, cfg, loc, conf, template, c[..|c| - 1])
      + [Write(PostPath(s, loc, e.name), w.render(template, PostEnv(cfg, conf, e)))]
  }

  /** `_build_content`: make the output directory; then, if the template resolves, write every
      post. An unresolvable template is noticed at the first entry, before any write. */
  function ContentEffects(w: World, s: Settings, cfg: Config, loc: string, conf: KeyValues,
                          template: string, c: PostCache): seq<Effect>
  {
    [MakeDirs(OutDir(s, loc))] + (if template in w.templates then PostWrites(w, s, cfg, loc, conf, template, c) else [])
  }

  /** The environment of an index page: the caller's entries plus the section and the config. */
  function IndexEnv(cfg: Config, conf: KeyValues, extra: Env): Env
  {
    extra + map["section" := SectionConf(conf), "config" := WholeConfig(cfg)]
  }

  /** `_build_nocontent`: make the output directory, then write the index if the template resolves. */
  function IndexEffects(w: World, s: Settings, cfg: Config, loc: string, conf: KeyValues,
                        template: string, extra: Env): seq<Effect>
  {
    [MakeDirs(OutDir(s, loc))] +
    (if template in w.templates then [Write(IndexPath(s, loc), w.render(template, IndexEnv(cfg, conf, extra)))] else [])
  }

  /** `cache[location].values()`, in order. */
  function Docs(c: PostCache): (r: seq<Document>)
    ensures |r| == |c| && forall i :: 0 <= i < |c| ==> r[i] == c[i].doc
  {
    seq(|c|, i requires 0 <= i < |c| => c[i].doc)
  }

  /** The `ValueError` a section raises before it writes anything, if any. */
  function SectionCheck(loc: string, conf: KeyValues): Option<BuildError>
  {
    if !IsSet(conf, "template") then Some(NoTemplate(loc)) else None
  }

  /** `_build_section`: raise without a template; with content render the posts and, when
      `index` is set, the index with the posts; without content render the template itself as
      the index. */
  function SectionEffects(w: World, s: Settings, cfg: Config, cache: map<string, PostCache>,
                          loc: string, conf: KeyValues): (Outcome<BuildError>, seq<Effect>)
  {
    match SectionCheck(loc, conf)
    case Some(e) => (Fail(e), [])
    case None =>
      var template := conf["template"];
      if IsSet(conf, "content") then
        var c := CacheOf(cache, loc);
        (Pass, ContentEffects(w, s, cfg, loc, conf, template, c)
               + (if IsSet(conf, "index")
                  then IndexEffects(w, s, cfg, loc, conf, conf["index"], map["posts" := PostDocs(Docs(c))])
                  else []))
      else
        (Pass, IndexEffects(w, s, cfg, loc, conf, template, map[]))
  }

  /** The second loop of `build` over `secs`, in order; it stops at the first section that raises. */
  function RenderPass(w: World, s: Settings, cfg: Config, cache: map<string, PostCache>, secs: seq<Section>)
    : (Outcome<BuildError>, seq<Effect>)
  {
    if secs == [] then (Pass, [])
    else
      var before := RenderPass(w, s, cfg, cache, secs[..|secs| - 1]);
      var sec := secs[|secs| - 1];
      if before.0.Fail? || !IsLocation(sec.name) then before
      else
        var here := SectionEffects(w, s, cfg, cache, LocationOf(sec.name), sec.keys);
        (here.0, before.1 + here.1)
  }

  /** `_copy_static`: the static tree goes to the output directory joined with
      `static_directory` (the empty string when unset). */
  function StaticCopy(s: Settings): Effect
  {
    CopyTree(s.dirStatic, Join(s.dirOutput, GetOr(s.site, "static_directory", "")))
  }

  /** `build`: a fresh cache, both passes, then the static copy if nothing raised. */
  function BuildSpec(w: World, s: Settings, cfg: Config, log0: seq<Effect>): (Outcome<BuildError>, State)
  {
    var cache := PreloadPass(w, s, cfg, map[]);
    var rendered := RenderPass(w, s, cfg, cache, cfg);
    (rendered.0, State(cache, log0 + rendered.1 + (if rendered.0.Pass? then [StaticCopy(s)] else [])))
  }

  /** Section `sec` raises in the render pass. */
  predicate Faulty(sec: Section)
  {
    IsLocation(sec.name) && !IsSet(sec.keys, "template")
  }

  /** Section `sec` describes location `loc` and has content. */
  predicate HasContent(sec: Section, loc: string)
  {
    IsLocation(sec.name) && LocationOf(sec.name) == loc && IsSet(sec.keys, "content")
  }

  // ---------------------------------------------------------------- lemmas

  /** The first pass caches exactly the locations of the sections with content. */
  lemma {:induction false} PreloadPassKeys(w: World, s: Settings, secs: seq<Section>, loc: string)
    ensures loc in PreloadPass(w, s, secs, map[]) <==> exists i :: 0 <= i < |secs| && HasContent(secs[i], loc)
  {
    if secs != [] {
      var init := secs[..|secs| - 1];
      PreloadPassKeys(w, s, init, loc);
      assert forall i :: 0 <= i < |init| ==> init[i] == secs[i];
    }
  }

  /** A cached location holds what the last section with content for it loaded. */
  lemma {:induction false} PreloadPassValue(w: World, s: Settings, secs: seq<Section>, k: nat)
    requires k < |secs| && IsLocation(secs[k].name) && IsSet(secs[k].keys, "content")
    requires forall j :: k < j < |secs| ==> !HasContent(secs[j], LocationOf(secs[k].name))
    ensures var loc := LocationOf(secs[k].name);
      loc in PreloadPass(w, s, secs, map[]) &&
      PreloadPass(w, s, secs, map[])[loc] == LoadCache(Glob(w.glob, Join(s.dirContent, secs[k].keys["content"])))
  {
    var init := secs[..|secs| - 1];
    if k < |secs| - 1 {
      PreloadPassValue(w, s, init, k);
    }
  }

  /** The page paths of the cache keys `names`, in order. */
  function PagePaths(s: Settings, loc: string, names: seq<string>): (r: seq<string>)
    ensures |r| == |names| && forall i :: 0 <= i < |names| ==> r[i] == PostPath(s, loc, names[i])
  {
    if names == [] then [] else PagePaths(s, loc, names[..|names| - 1]) + [PostPath(s, loc, names[|names| - 1])]
  }

  /** The post writes are one per cache entry, in order, each at the entry's page path and
      rendered with that entry's body and metadata plus the section and the config. */
  lemma {:induction false} PostWritesAt(w: World, s: Settings, cfg: Config, loc: string, conf: KeyValues,
                                        template: string, c: PostCache)
    ensures var pw := PostWrites(w, s, cfg, loc, conf, template, c);
      |pw| == |c| &&
      forall k :: 0 <= k < |c| ==> pw[k] == Write(PostPath(s, loc, c[k].name), w.render(template, PostEnv(cfg, conf, c[k])))
  {
    if c != [] {
      PostWritesAt(w, s, cfg, loc, conf, template, c[..|c| - 1]);
    }
  }

  /** The post pages are written at the page paths of the cache keys, in cache order. */
  lemma {:induction false} PostWritesPaths(w: World, s: Settings, cfg: Config, loc: string, conf: KeyValues,
                                           template: string, c: PostCache)
    ensures Written(PostWrites(w, s, cfg, loc, conf, template, c)) == PagePaths(s, loc, Keys(c))
  {
    if c != [] {
      var init := c[..|c| - 1];
      PostWritesPaths(w, s, cfg, loc, conf, template, init);
      var a := PostWrites(w, s, cfg, loc, conf, template, init);
      var e := Write(PostPath(s, loc, c[|c| - 1].name), w.render(template, PostEnv(cfg, conf, c[|c| - 1])));
      assert (a + [e])[..|a|] == a;
      PagePathsSnoc(s, loc, c);
    }
  }

  /** The page paths of one more cache entry. */
  lemma PagePathsSnoc(s: Settings, loc: string, c: PostCache)
    requires c != []
    ensures PagePaths(s, loc, Keys(c)) == PagePaths(s, loc, Keys(c[..|c| - 1])) + [PostPath(s, loc, c[|c| - 1].name)]
  {
    assert Keys(c)[..|c| - 1] == Keys(c[..|c| - 1]);
  }

  /** Loading `found` and rendering it writes one page per distinct base name, in order of
      first enumeration: same-named files in different subdirectories share one page. */
  lemma PagesPerBasename(w: World, s: Settings, cfg: Config, loc: string, conf: KeyValues,
                         template: string, found: seq<SourceFile>)
    ensures Written(PostWrites(w, s, cfg, loc, conf, template, LoadCache(found)))
         == PagePaths(s, loc, Dedup(Basenames(found)))
  {
    PostWritesPaths(w, s, cfg, loc, conf, template, LoadCache(found));
    LoadCacheKeys(found);
  }

  /** A section raises exactly when `template` is unset, and then writes nothing. */
  lemma SectionFailsIff(w: World, s: Settings, cfg: Config, cache: map<string, PostCache>, loc: string, conf: KeyValues)
    ensures SectionEffects(w, s, cfg, cache, loc, conf).0.Fail? <==> !IsSet(conf, "template")
    ensures SectionEffects(w, s, cfg, cache, loc, conf).0.Fail? ==>
      SectionEffects(w, s, cfg, cache, loc, conf) == (Fail(NoTemplate(loc)), [])
  {
  }

  /** The index step makes the output directory first and writes at most the index page. */
  lemma IndexWritten(w: World, s: Settings, cfg: Config, loc: string, conf: KeyValues, template: string, extra: Env)
    ensures var ie := IndexEffects(w, s, cfg, loc, conf, template, extra);
      |ie| > 0 && ie[0] == MakeDirs(OutDir(s, loc)) &&
      Written(ie) == if template in w.templates then [IndexPath(s, loc)] else []
  {
    if template in w.templates {
      var t := w.render(template, IndexEnv(cfg, conf, extra));
      DirThenFile([], OutDir(s, loc), IndexPath(s, loc), t);
      assert IndexEffects(w, s, cfg, loc, conf, template, extra) == [] + [MakeDirs(OutDir(s, loc)), Write(IndexPath(s, loc), t)];
    }
  }

  /** The content step makes the output directory first and writes the posts only when the
      template resolves. */
  lemma ContentWritten(w: World, s: Settings, cfg: Config, loc: string, conf: KeyValues, template: string, c: PostCache)
    ensures var ce := ContentEffects(w, s, cfg, loc, conf, template, c);
      |ce| > 0 && ce[0] == MakeDirs(OutDir(s, loc)) &&
      Written(ce) == if template in w.templates then PagePaths(s, loc, Keys(c)) else []
  {
    var pw := if template in w.templates then PostWrites(w, s, cfg, loc, conf, template, c) else [];
    PostWritesPaths(w, s, cfg, loc, conf, template, c);
    WrittenConcat([MakeDirs(OutDir(s, loc))], pw);
    assert Written([MakeDirs(OutDir(s, loc))]) == [];
  }

  /** What a section that does not raise writes, in order. With content: one page per cache
      entry if `template` resolves, then the index if `index` is set and resolves. Without
      content: the index, rendered with `template`, if it resolves. The output directory is
      made first in every case. */
  lemma SectionWrites(w: World, s: Settings, cfg: Config, cache: map<string, PostCache>, loc: string, conf: KeyValues)
    requires IsSet(conf, "template")
    ensures var eff := SectionEffects(w, s, cfg, cache, loc, conf).1;
      var template := conf["template"];
      |eff| > 0 && eff[0] == MakeDirs(OutDir(s, loc)) &&
      if IsSet(conf, "content") then
        Written(eff) ==
          (if template in w.templates then PagePaths(s, loc, Keys(CacheOf(cache, loc))) else [])
          + (if IsSet(conf, "index") && conf["index"] in w.templates then [IndexPath(s, loc)] else [])
      else
        Written(eff) == if template in w.templates then [IndexPath(s, loc)] else []
  {
    var template := conf["template"];
    if IsSet(conf, "content") {
      var c := CacheOf(cache, loc);
      var ce := ContentEffects(w, s, cfg, loc, conf, template, c);
      ContentWritten(w, s, cfg, loc, conf, template, c);
      var ie := if IsSet(conf, "index")
                then IndexEffects(w, s, cfg, loc, conf, conf["index"], map["posts" := PostDocs(Docs(c))])
                else [];
      if IsSet(conf, "index") {
        IndexWritten(w, s, cfg, loc, conf, conf["index"], map["posts" := PostDocs(Docs(c))]);
      }
      assert SectionEffects(w, s, cfg, cache, loc, conf).1 == ce + ie;
      WrittenConcat(ce, ie);
    } else {
      IndexWritten(w, s, cfg, loc, conf, template, map[]);
    }
  }

  /** The index of a content section is rendered with exactly `posts`, `section` and `config`;
      the index of a section without content with exactly `section` and `config`. */
  /** A section makes its output directory before anything else, so every page it writes
      goes into a directory that already exists. */
  lemma SectionDirBeforeWrites(w: World, s: Settings, cfg: Config, cache: map<string, PostCache>,
                               loc: string, conf: KeyValues, base: seq<Effect>)
    requires IsSet(conf, "template")
    ensures var eff := SectionEffects(w, s, cfg, cache, loc, conf).1;
      forall k :: 0 <= k < |eff| && eff[k].Write? ==> 0 < k && OutDir(s, loc) in Dirs(base + eff[..k])
  {
    var eff := SectionEffects(w, s, cfg, cache, loc, conf).1;
    SectionWrites(w, s, cfg, cache, loc, conf);
    forall k | 0 <= k < |eff| && eff[k].Write?
      ensures 0 < k && OutDir(s, loc) in Dirs(base + eff[..k])
    {
      assert (base + eff[..k])[|base|] == MakeDirs(OutDir(s, loc));
      DirsMade(base + eff[..k], OutDir(s, loc));
    }
  }

  lemma IndexEnvironments(w: World, s: Settings, cfg: Config, cache: map<string, PostCache>, loc: string, conf: KeyValues)
    requires IsSet(conf, "template")
    ensures var eff := SectionEffects(w, s, cfg, cache, loc, conf).1;
      var env := map["section" := SectionConf(conf), "config" := WholeConfig(cfg)];
      && (IsSet(conf, "content") && IsSet(conf, "index") && conf["index"] in w.templates ==>
           eff[|eff| - 1] == Write(IndexPath(s, loc),
             w.render(conf["index"], env["posts" := PostDocs(Docs(CacheOf(cache, loc)))])))
      && (!IsSet(conf, "content") && conf["template"] in w.templates ==>
           eff == [MakeDirs(OutDir(s, loc)), Write(IndexPath(s, loc), w.render(conf["template"], env))])
  {
    var env := map["section" := SectionConf(conf), "config" := WholeConfig(cfg)];
    var c := CacheOf(cache, loc);
    if IsSet(conf, "content") && IsSet(conf, "index") {
      var extra := map["posts" := PostDocs(Docs(c))];
      assert IndexEnv(cfg, conf, extra) == env["posts" := PostDocs(Docs(c))];
    } else if !IsSet(conf, "content") {
      assert IndexEnv(cfg, conf, map[]) == env;
    }
  }

  /** Every location section with content has a cache entry once the first pass is done, so
      the render pass never looks up a missing location. */
  lemma ContentSectionsCached(w: World, s: Settings, cfg: Config)
    ensures forall k :: 0 <= k < |cfg| && IsLocation(cfg[k].name) && IsSet(cfg[k].keys, "content") ==>
      LocationOf(cfg[k].name) in PreloadPass(w, s, cfg, map[])
  {
    forall k | 0 <= k < |cfg| && IsLocation(cfg[k].name) && IsSet(cfg[k].keys, "content")
      ensures LocationOf(cfg[k].name) in PreloadPass(w, s, cfg, map[])
    {
      assert HasContent(cfg[k], LocationOf(cfg[k].name));
      PreloadPassKeys(w, s, cfg, LocationOf(cfg[k].name));
    }
  }

  /** The index of the first faulty section of `secs`, or `|secs|` when there is none. */
  function FirstFaulty(secs: seq<Section>): (i: nat)
    ensures i <= |secs|
    ensures i < |secs| ==> Faulty(secs[i])
    ensures forall j :: 0 <= j < i ==> !Faulty(secs[j])
  {
    if secs == [] then 0
    else
      var f := FirstFaulty(secs[..|secs| - 1]);
      if f < |secs| - 1 then f else if Faulty(secs[|secs| - 1]) then |secs| - 1 else |secs|
  }

  /** The render pass raises exactly when some location section has no template, and then
      with the error of the first such section, after all effects of the sections before it. */
  lemma {:induction false} RenderPassFirstError(w: World, s: Settings, cfg: Config, cache: map<string, PostCache>,
                                                secs: seq<Section>)
    ensures RenderPass(w, s, cfg, cache, secs).0.Fail? <==> FirstFaulty(secs) < |secs|
    ensures var i := FirstFaulty(secs);
      i < |secs| ==>
        && RenderPass(w, s, cfg, cache, secs[..i]).0 == Pass
        && RenderPass(w, s, cfg, cache, secs)
           == (Fail(NoTemplate(LocationOf(secs[i].name))), RenderPass(w, s, cfg, cache, secs[..i]).1)
  {
    if secs != [] {
      var n := |secs| - 1;
      var init, last := secs[..n], secs[n];
      RenderPassFirstError(w, s, cfg, cache, init);
      var f := FirstFaulty(init);
      if f < n {
        assert secs[..f] == init[..f];
      } else {
        assert init == secs[..n];
        if IsLocation(last.name) {
          var loc := LocationOf(last.name);
          if !IsSet(last.keys, "template") {
            assert SectionEffects(w, s, cfg, cache, loc, last.keys) == (Fail(NoTemplate(loc)), []);
            assert RenderPass(w, s, cfg, cache, init).1 + [] == RenderPass(w, s, cfg, cache, init).1;
          } else {
            assert SectionEffects(w, s, cfg, cache, loc, last.keys).0 == Pass;
          }
        }
      }
    }
  }

  /** One more section of the render pass, while nothing has raised yet. */
  lemma RenderPassSnoc(w: World, s: Settings, cfg: Config, cache: map<string, PostCache>, secs: seq<Section>, i: nat)
    requires i < |secs| && RenderPass(w, s, cfg, cache, secs[..i]).0 == Pass
    ensures !IsLocation(secs[i].name) ==> RenderPass(w, s, cfg, cache, secs[..i + 1]) == RenderPass(w, s, cfg, cache, secs[..i])
    ensures IsLocation(secs[i].name) ==>
      var here := SectionEffects(w, s, cfg, cache, LocationOf(secs[i].name), secs[i].keys);
      RenderPass(w, s, cfg, cache, secs[..i + 1]) == (here.0, RenderPass(w, s, cfg, cache, secs[..i]).1 + here.1)
  {
    assert secs[..i + 1][..i] == secs[..i];
  }

  /** Once the render pass has raised, later sections add nothing. */
  lemma RenderPassStaysFailed(w: World, s: Settings, cfg: Config, cache: map<string, PostCache>, secs: seq<Section>, i: nat)
    requires i <= |secs| && RenderPass(w, s, cfg, cache, secs[..i]).0.Fail?
    ensures RenderPass(w, s, cfg, cache, secs) == RenderPass(w, s, cfg, cache, secs[..i])
    decreases |secs| - i
  {
    if i < |secs| {
      assert secs[..i + 1][..i] == secs[..i];
      RenderPassStaysFailed(w, s, cfg, cache, secs, i + 1);
    } else {
      assert secs[..i] == secs;
    }
  }

  /** The build succeeds exactly when every location section has a template; it then ends
      with the static copy. When it fails, the log holds what the sections before the first
      faulty one rendered, and no static copy. */
  lemma BuildOutcome(w: World, s: Settings, cfg: Config, log0: seq<Effect>)
    ensures var (o, st) := BuildSpec(w, s, cfg, log0);
      var cache := PreloadPass(w, s, cfg, map[]);
      var i := FirstFaulty(cfg);
      && st.cache == cache
      && (o.Pass? <==> forall k :: 0 <= k < |cfg| ==> !Faulty(cfg[k]))
      && (o.Pass? ==> st.log == log0 + RenderPass(w, s, cfg, cache, cfg).1 + [StaticCopy(s)])
      && (o.Fail? ==>
           && i < |cfg|
           && o == Fail(NoTemplate(LocationOf(cfg[i].name)))
           && st.log == log0 + RenderPass(w, s, cfg, cache, cfg[..i]).1)
  {
    RenderPassFirstError(w, s, cfg, PreloadPass(w, s, cfg, map[]), cfg);
  }

  /** Without a `static_directory` key the static tree is copied into the output directory itself. */
  lemma StaticDefault(s: Settings)
    requires "static_directory" !in s.site
    ensures StaticCopy(s) == CopyTree(s.dirStatic, Join(s.dirOutput, ""))
  {
  }
}
