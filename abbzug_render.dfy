/** The render half of the build in abbzug/ssgsite.py (`_build_section`,
    `_build_content`, `_build_nocontent`, `_get_template`): what one section writes. */
module AbbzugRender {
  import opened Wrappers
  import opened Paths
  import opened SiteConfig
  import opened FileSystem
  import opened AbbzugModel
  import opened AbbzugPreload

  /** `self.cache[location]` (empty for a location never preloaded). */
  function CacheOf(ld: Loaded, loc: string): seq<Post>
  {
    if loc in ld.cache then ld.cache[loc] else []
  }

  /** `self.tags[location]` (empty for a location never preloaded). */
  function TagsOf(ld: Loaded, loc: string): TagIndex
  {
    if loc in ld.tags then ld.tags[loc] else []
  }

  /** The `ValueError` a section raises before it writes anything, if any. */
  function SectionCheck(loc: string, conf: KeyValues): Option<BuildError>
  {
    if !IsSet(conf, "index_template") then Some(NoIndexTemplate(loc))
    else if IsSet(conf, "post_subdir") && !IsSet(conf, "post_template") then Some(NoPostTemplate(loc))
    else None
  }

  /** The environment of one post page. */
  function PostEnv(s: Settings, cfg: Config, ld: Loaded, loc: string, conf: KeyValues, p: Post): Env
  {
    map[
      "CONTENT" := Text(p.body),
      "post" := PostMeta(p),
      "site_posts" := SiteCache(ld.cache),
      "section" := SectionConf(conf),
      "site" := SectionConf(s.site),
      "config" := WholeConfig(cfg),
      "tags" := Tags(TagsOf(ld, loc))]
  }

  /** One page per post, each at its own `outpath`, in cache order. */
  function PostWrites(w: World, s: Settings, cfg: Config, ld: Loaded, loc: string, conf: KeyValues,
                      template: string, ps: seq<Post>): seq<Effect>
  {
    if ps == [] then []
    else PostWrites(w, s, cfg, ld, loc, conf, template, ps[..|ps| - 1])
         + [Write(ps[|ps| - 1].outpath, w.render(template, PostEnv(s, cfg, ld, loc, conf, ps[|ps| - 1])))]
  }

  /** `_build_content`: the template is resolved once; if it does not resolve nothing is written. */
  function ContentEffects(w: World, s: Settings, cfg: Config, ld: Loaded, loc: string, conf: KeyValues,
                          template: string): seq<Effect>
  {
    if template in w.templates then PostWrites(w, s, cfg, ld, loc, conf, template, CacheOf(ld, loc)) else []
  }

  /** The environment of an index page: the caller's entries plus the section's context. */
  function IndexEnv(s: Settings, cfg: Config, ld: Loaded, loc: string, conf: KeyValues, extra: Env): Env
  {
    extra + map[
      "section" := SectionConf(conf),
      "section_name" := Text(loc),
      "config" := WholeConfig(cfg),
      "site" := SectionConf(s.site),
      "site_posts" := SiteCache(ld.cache),
      "tags" := Tags(TagsOf(ld, loc)),
      "site_tags" := SiteTags(ld.tags)]
  }

  /** Where a location's index page goes. */
  function IndexPath(s: Settings, loc: string): string
  {
    Join(OutDir(s, loc), "index.html")
  }

  /** `_build_nocontent`: create the output directory, then write the index if the template resolves. */
  function IndexEffects(w: World, s: Settings, cfg: Config, ld: Loaded, loc: string, conf: KeyValues,
                        template: string, extra: Env): seq<Effect>
  {
    [MakeDirs(OutDir(s, loc))] +
    (if template in w.templates
     then [Write(IndexPath(s, loc), w.render(template, IndexEnv(s, cfg, ld, loc, conf, extra)))]
     else [])
  }

  /** `_build_section`: raise on a missing template key, otherwise render the posts (for a
      content section) and then the index. */
  function SectionEffects(w: World, s: Settings, cfg: Config, ld: Loaded, loc: string, conf: KeyValues)
    : (Outcome<BuildError>, seq<Effect>)
  {
    match SectionCheck(loc, conf)
    case Some(e) => (Fail(e), [])
    case None =>
      var index := conf["index_template"];
      if IsSet(conf, "post_subdir") then
        (Pass, ContentEffects(w, s, cfg, ld, loc, conf, conf["post_template"])
               + IndexEffects(w, s, cfg, ld, loc, conf, index, map["posts" := PostList(CacheOf(ld, loc))]))
      else
        (Pass, IndexEffects(w, s, cfg, ld, loc, conf, index, map[]))
  }

  // ---------------------------------------------------------------- lemmas

  /** The posts' output paths, in order. */
  function OutPaths(ps: seq<Post>): (r: seq<string>)
    ensures |r| == |ps| && forall i :: 0 <= i < |ps| ==> r[i] == ps[i].outpath
  {
    if ps == [] then [] else OutPaths(ps[..|ps| - 1]) + [ps[|ps| - 1].outpath]
  }

  /** One page per post, at that post's `outpath`, in cache order. */
  lemma {:induction false} PostWritesPaths(w: World, s: Settings, cfg: Config, ld: Loaded, loc: string,
                                           conf: KeyValues, template: string, ps: seq<Post>)
    ensures Written(PostWrites(w, s, cfg, ld, loc, conf, template, ps)) == OutPaths(ps)
  {
    if ps != [] {
      var init := ps[..|ps| - 1];
      PostWritesPaths(w, s, cfg, ld, loc, conf, template, init);
      var a := PostWrites(w, s, cfg, ld, loc, conf, template, init);
      var e := Write(ps[|ps| - 1].outpath, w.render(template, PostEnv(s, cfg, ld, loc, conf, ps[|ps| - 1])));
      assert (a + [e])[..|a|] == a;
    }
  }

  /** Post `k` is written at its own `outpath`, rendered with the post template and that
      post's environment. */
  lemma {:induction false} PostWritesAt(w: World, s: Settings, cfg: Config, ld: Loaded, loc: string,
                                        conf: KeyValues, template: string, ps: seq<Post>)
    ensures var pw := PostWrites(w, s, cfg, ld, loc, conf, template, ps);
      |pw| == |ps| &&
      forall k :: 0 <= k < |ps| ==>
        pw[k] == Write(ps[k].outpath, w.render(template, PostEnv(s, cfg, ld, loc, conf, ps[k])))
  {
    if ps != [] {
      PostWritesAt(w, s, cfg, ld, loc, conf, template, ps[..|ps| - 1]);
    }
  }

  /** With content and a resolvable post template, a section's first effects are the post
      pages: the `k`-th cached post at its `outpath`, rendered with its own environment, in
      which `post` is that post and `CONTENT` its body. */
  lemma ContentSectionPages(w: World, s: Settings, cfg: Config, ld: Loaded, loc: string, conf: KeyValues)
    requires SectionCheck(loc, conf).None? && IsSet(conf, "post_subdir")
    requires conf["post_template"] in w.templates
    ensures var eff := SectionEffects(w, s, cfg, ld, loc, conf).1;
      var posts := CacheOf(ld, loc);
      |posts| < |eff| &&
      forall k :: 0 <= k < |posts| ==>
        && eff[k] == Write(posts[k].outpath, w.render(conf["post_template"], PostEnv(s, cfg, ld, loc, conf, posts[k])))
        && PostEnv(s, cfg, ld, loc, conf, posts[k])["post"] == PostMeta(posts[k])
        && PostEnv(s, cfg, ld, loc, conf, posts[k])["CONTENT"] == Text(posts[k].body)
  {
    var posts := CacheOf(ld, loc);
    var extra := map["posts" := PostList(posts)];
    var ie := IndexEffects(w, s, cfg, ld, loc, conf, conf["index_template"], extra);
    var ce := ContentEffects(w, s, cfg, ld, loc, conf, conf["post_template"]);
    assert SectionEffects(w, s, cfg, ld, loc, conf).1 == ce + ie;
    PostWritesAt(w, s, cfg, ld, loc, conf, conf["post_template"], posts);
  }

  /** When the index template resolves, the index page is a section's last effect. Its
      directory exists by then. It is rendered with the section's context, which holds
      `posts` (the cached posts) exactly for a content section. */
  lemma IndexEnvironments(w: World, s: Settings, cfg: Config, ld: Loaded, loc: string, conf: KeyValues,
                          base: seq<Effect>)
    requires SectionCheck(loc, conf).None? && conf["index_template"] in w.templates
    ensures var eff := SectionEffects(w, s, cfg, ld, loc, conf).1;
      var extra := if IsSet(conf, "post_subdir") then map["posts" := PostList(CacheOf(ld, loc))] else map[];
      var env := IndexEnv(s, cfg, ld, loc, conf, extra);
      && |eff| >= 2
      && eff[|eff| - 1] == Write(IndexPath(s, loc), w.render(conf["index_template"], env))
      && OutDir(s, loc) in Dirs(base + eff[..|eff| - 1])
      && ("posts" in env <==> IsSet(conf, "post_subdir"))
      && (IsSet(conf, "post_subdir") ==> env["posts"] == PostList(CacheOf(ld, loc)))
      && env["section_name"] == Text(loc) && env["tags"] == Tags(TagsOf(ld, loc))
  {
    var eff := SectionEffects(w, s, cfg, ld, loc, conf).1;
    var extra := if IsSet(conf, "post_subdir") then map["posts" := PostList(CacheOf(ld, loc))] else map[];
    var env := IndexEnv(s, cfg, ld, loc, conf, extra);
    var ce := if IsSet(conf, "post_subdir") then ContentEffects(w, s, cfg, ld, loc, conf, conf["post_template"]) else [];
    var made := MakeDirs(OutDir(s, loc));
    var page := Write(IndexPath(s, loc), w.render(conf["index_template"], env));
    assert eff == ce + [made, page];
    MadeBeforeLast(base, ce, OutDir(s, loc), page);
  }

  /** A section raises exactly when `index_template` is unset, or `post_subdir` is set without
      `post_template`; raising writes nothing. */
  lemma SectionFailsIff(w: World, s: Settings, cfg: Config, ld: Loaded, loc: string, conf: KeyValues)
    ensures SectionEffects(w, s, cfg, ld, loc, conf).0.Fail? <==>
      !IsSet(conf, "index_template") || (IsSet(conf, "post_subdir") && !IsSet(conf, "post_template"))
    ensures SectionEffects(w, s, cfg, ld, loc, conf).0.Fail? ==> SectionEffects(w, s, cfg, ld, loc, conf).1 == []
    ensures !IsSet(conf, "index_template") ==> SectionEffects(w, s, cfg, ld, loc, conf).0 == Fail(NoIndexTemplate(loc))
  {
  }

  /** The index step makes the output directory first and writes at most the index page. */
  lemma IndexWritten(w: World, s: Settings, cfg: Config, ld: Loaded, loc: string, conf: KeyValues,
                     template: string, extra: Env)
    ensures var ie := IndexEffects(w, s, cfg, ld, loc, conf, template, extra);
      |ie| > 0 && ie[0] == MakeDirs(OutDir(s, loc)) &&
      Written(ie) == if template in w.templates then [IndexPath(s, loc)] else []
  {
    var ie := IndexEffects(w, s, cfg, ld, loc, conf, template, extra);
    if template in w.templates {
      var t := w.render(template, IndexEnv(s, cfg, ld, loc, conf, extra));
      DirThenFile([], OutDir(s, loc), IndexPath(s, loc), t);
      assert ie == [] + [MakeDirs(OutDir(s, loc)), Write(IndexPath(s, loc), t)];
    }
  }

  /** What a section writes, in order: with content and a resolvable post template, one file
      per cached post at its outpath, then the index; with an unresolvable post template, only
      the index; without content, only the index; and the index only if its template resolves.
      The output directory is made in every case. */
  lemma SectionWrites(w: World, s: Settings, cfg: Config, ld: Loaded, loc: string, conf: KeyValues)
    requires SectionCheck(loc, conf).None?
    ensures var eff := SectionEffects(w, s, cfg, ld, loc, conf).1;
      var index := if conf["index_template"] in w.templates then [IndexPath(s, loc)] else [];
      var posts := CacheOf(ld, loc);
      MakeDirs(OutDir(s, loc)) in eff &&
      if IsSet(conf, "post_subdir") && conf["post_template"] in w.templates then
        Written(eff) == OutPaths(posts) + index
      else
        Written(eff) == index
  {
    if IsSet(conf, "post_subdir") {
      ContentSectionWrites(w, s, cfg, ld, loc, conf);
    } else {
      IndexWritten(w, s, cfg, ld, loc, conf, conf["index_template"], map[]);
    }
  }

  lemma ContentSectionWrites(w: World, s: Settings, cfg: Config, ld: Loaded, loc: string, conf: KeyValues)
    requires SectionCheck(loc, conf).None? && IsSet(conf, "post_subdir")
    ensures var eff := SectionEffects(w, s, cfg, ld, loc, conf).1;
      var index := if conf["index_template"] in w.templates then [IndexPath(s, loc)] else [];
      var posts := CacheOf(ld, loc);
      MakeDirs(OutDir(s, loc)) in eff &&
      if conf["post_template"] in w.templates then
        Written(eff) == OutPaths(posts) + index
      else
        Written(eff) == index
  {
    var extra := map["posts" := PostList(CacheOf(ld, loc))];
    var ie := IndexEffects(w, s, cfg, ld, loc, conf, conf["index_template"], extra);
    var ce := ContentEffects(w, s, cfg, ld, loc, conf, conf["post_template"]);
    assert SectionEffects(w, s, cfg, ld, loc, conf).1 == ce + ie;
    IndexWritten(w, s, cfg, ld, loc, conf, conf["index_template"], extra);
    if conf["post_template"] in w.templates {
      PostWritesPaths(w, s, cfg, ld, loc, conf, conf["post_template"], CacheOf(ld, loc));
      AppendWrites(ce, ie, OutPaths(CacheOf(ld, loc)), OutDir(s, loc));
    } else {
      AppendWrites(ce, ie, [], OutDir(s, loc));
    }
  }

  lemma AppendWrites(ce: seq<Effect>, ie: seq<Effect>, paths: seq<string>, d: string)
    requires Written(ce) == paths && |ie| > 0 && ie[0] == MakeDirs(d)
    ensures MakeDirs(d) in ce + ie && Written(ce + ie) == paths + Written(ie)
  {
    WrittenConcat(ce, ie);
    assert (ce + ie)[|ce|] == MakeDirs(d);
  }
}
