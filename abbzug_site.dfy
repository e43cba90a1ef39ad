/** The `Site` class of abbzug/ssgsite.py: the build run step by step against
    an abstract disk, each method proved against its specification function. */
module AbbzugSite {
  import opened Wrappers
  import opened Sequences
  import opened Paths
  import opened SiteConfig
  import opened FileSystem
  import opened AbbzugModel
  import opened AbbzugPreload
  import opened AbbzugTags
  import opened AbbzugRender
  import opened AbbzugBuild

  class Site {
    const world: World
    const config: Config
    const settings: Settings

    /** Posts per location, in enumeration order. */
    var cache: map<string, seq<Post>>
    /** Tag dictionary per location. */
    var tags: map<string, TagIndex>
    /** Everything done to the disk, in order; `Files(log)` and `Dirs(log)` are the disk it
        leaves behind. */
    var log: seq<Effect>

    function Current(): State
      reads this
    {
      State(cache, tags, log)
    }

    function Content(): Loaded
      reads this
    {
      Loaded(cache, tags)
    }

    constructor (world: World, config: Config, settings: Settings)
      ensures this.world == world && this.config == config && this.settings == settings
      ensures cache == map[] && tags == map[] && log == []
    {
      this.world := world;
      this.config := config;
      this.settings := settings;
      cache, tags, log := map[], map[], [];
    }

    /** `Site(contentdir)`: refuses a configuration without the site section, and otherwise
        fixes the directories from it. */
    static method Open(contentdir: string, config: Config, world: World) returns (r: Result<Site, string>)
      ensures r.Failure? <==> LoadConfig(config).Fail?
      ensures r.Failure? ==> r.error == NotAbbzugConfig
      ensures r.Success? ==>
        && fresh(r.value) && r.value.log == []
        && r.value.config == config && r.value.world == world
        && r.value.settings == Configure(contentdir, config).value
    {
      var configured := Configure(contentdir, config);
      if configured.Failure? {
        return Failure(configured.error);
      }
      var site := new Site(world, config, configured.value);
      return Success(site);
    }

    /** Performs one effect on the disk. */
    method Perform(e: Effect)
      modifies this`log
      ensures log == old(log) + [e]
    {
      log := log + [e];
    }

    /** `_get_template`: the template if the loader can resolve the name. A resolved template
        passed back in comes back unchanged. */
    method GetTemplate(name: string) returns (t: Option<string>)
      ensures t.Some? <==> name in world.templates
      ensures t.Some? ==> t.value == name
    {
      if name in world.templates {
        t := Some(name);
      } else {
        t := None;
      }
    }

    /** Record `p` under each entry of its tag list, in order. */
    static method RecordTags(index: TagIndex, p: Post) returns (r: TagIndex)
      ensures r == AddTags(index, p.tags, p)
    {
      r := index;
      var j := 0;
      while j < |p.tags|
        invariant 0 <= j <= |p.tags|
        invariant r == AddTags(index, p.tags[..j], p)
      {
        r := AddTag(r, p.tags[j], p);
        assert p.tags[..j + 1][..j] == p.tags[..j];
        j := j + 1;
      }
      assert p.tags[..j] == p.tags;
    }

    /** The loop of `_preload_section`: load every enumerated file of `loc` in order and
        index each post under its tags. */
    method LoadAll(loc: string, found: seq<SourceFile>) returns (loaded: seq<Post>, index: TagIndex)
      ensures loaded == LoadPosts(settings, loc, found)
      ensures index == IndexPosts(loaded)
    {
      loaded, index := [], [];
      var i := 0;
      while i < |found|
        invariant 0 <= i <= |found|
        invariant loaded == LoadPosts(settings, loc, found[..i])
        invariant index == IndexPosts(loaded)
      {
        var post := LoadPost(settings, loc, found[i]);
        LoadPostsSnoc(settings, loc, found, i);
        assert (loaded + [post])[..|loaded|] == loaded;
        loaded := loaded + [post];
        index := RecordTags(index, post);
        i := i + 1;
      }
      assert found[..i] == found;
    }

    /** `_preload_section`. */
    method PreloadSection(loc: string, conf: KeyValues)
      modifies this
      ensures Current() == PreloadStep(world, settings, old(Current()), loc, conf)
    {
      if !IsSet(conf, "post_subdir") {
        cache := cache[loc := []];
        tags := tags[loc := []];
        return;
      }
      var indir := Join(settings.dirPosts, conf["post_subdir"]);
      Perform(MakeDirs(Join(settings.dirOutput, loc)));
      var found := Glob(world.glob, indir);
      var loaded, index := LoadAll(loc, found);
      cache := cache[loc := loaded];
      tags := tags[loc := index];
    }

    /** One iteration of `_build_tags`, for entry `i` of `index`: fill in the entry's page
        fields, make its directory, and render its page when the template resolves. `base` is
        the log before the loop. */
    method RenderTag(loc: string, conf: KeyValues, subdir: string, template: string,
                     index: TagIndex, i: nat, ghost base: seq<Effect>)
      returns (ok: bool, f: TagEntry)
      requires i < |index|
      requires log == base + TagPagesEffects(world, settings, config, loc, conf, subdir, template, index[..i])
      modifies this`log
      ensures f == Finalize(world, settings, loc, subdir, index[i])
      ensures ok <==> template in world.templates
      ensures ok ==> log == base + TagPagesEffects(world, settings, config, loc, conf, subdir, template, index[..i + 1])
      ensures !ok ==> log == old(log) + [MakeDirs(TagDir(settings, loc, subdir, world.slugify(index[i].name)))]
    {
      TagPagesSnoc(world, settings, config, loc, conf, subdir, template, index, i);
      var e := index[i];
      var slug := world.slugify(e.name);
      var url := settings.baseUrl + Join(Join(loc, subdir), slug) + "/";
      var tagoutdir := Join(Join(Join(settings.dirOutput, loc), subdir), slug);
      Perform(MakeDirs(tagoutdir));
      var outfile := Join(tagoutdir, "index.html");
      f := e.(meta := e.meta.(page := Some(TagPage(e.name, slug, url, outfile))));
      var t := GetTemplate(template);
      if t.None? {
        return false, f;
      }
      var env := map["config" := WholeConfig(config), "section" := SectionConf(conf),
                     "tag" := TagInfo(f.meta), "tagname" := Text(e.name)];
      Perform(Write(outfile, world.render(t.value, env)));
      ok := true;
    }

    /** The loop of `_build_tags` over a non-empty index. When the template does not resolve
        it stops after the first entry's fields and directory. */
    method RenderTags(loc: string, conf: KeyValues, subdir: string, template: string, index: TagIndex)
      returns (ok: bool, done: TagIndex)
      requires |index| > 0
      modifies this`log
      ensures ok <==> template in world.templates
      ensures ok ==> done == FinalizeAll(world, settings, loc, subdir, index)
      ensures ok ==> log == old(log) + TagPagesEffects(world, settings, config, loc, conf, subdir, template, index)
      ensures !ok ==> done == [Finalize(world, settings, loc, subdir, index[0])]
      ensures !ok ==> log == old(log) + [MakeDirs(TagDir(settings, loc, subdir, world.slugify(index[0].name)))]
    {
      done := [];
      var i := 0;
      while i < |index|
        invariant 0 <= i <= |index|
        invariant i > 0 ==> template in world.templates
        invariant done == FinalizeAll(world, settings, loc, subdir, index[..i])
        invariant log == old(log) + TagPagesEffects(world, settings, config, loc, conf, subdir, template, index[..i])
      {
        var f;
        ok, f := RenderTag(loc, conf, subdir, template, index, i, old(log));
        if !ok {
          return ok, [f];
        }
        FinalizeAllSnoc(world, settings, loc, subdir, index, i);
        done := done + [f];
        i := i + 1;
      }
      assert index[..i] == index;
      ok := true;
    }

    /** `_build_tags`. */
    method BuildTags(loc: string, conf: KeyValues)
      modifies this
      ensures Current() == BuildTagsStep(world, settings, config, old(Current()), loc, conf)
    {
      if loc !in tags {
        tags := tags[loc := []];
      }
      var index := tags[loc];
      if !(|index| > 0 && IsSet(conf, "tag_template") && IsSet(conf, "tag_subdir")) {
        return;
      }
      var ok, done := RenderTags(loc, conf, conf["tag_subdir"], conf["tag_template"], index);
      if ok {
        tags := tags[loc := done];
      } else {
        tags := tags[loc := done + index[1..]];
      }
    }

    /** The page of one post, rendered with a resolved template. */
    method WritePost(loc: string, template: string, conf: KeyValues, post: Post)
      requires loc in tags
      modifies this`log
      ensures log == old(log) + [Write(post.outpath, world.render(template, PostEnv(settings, config, Content(), loc, conf, post)))]
    {
      var env := map[
        "CONTENT" := Text(post.body),
        "post" := PostMeta(post),
        "site_posts" := SiteCache(cache),
        "section" := SectionConf(conf),
        "site" := SectionConf(settings.site),
        "config" := WholeConfig(config),
        "tags" := Tags(tags[loc])];
      Perform(Write(post.outpath, world.render(template, env)));
    }

    /** `_build_content`: one page per cached post; the template is resolved on the first post
        and, once resolved, resolves to itself. */
    method BuildContent(loc: string, template: string, conf: KeyValues)
      requires loc in cache && loc in tags
      modifies this`log
      ensures log == old(log) + ContentEffects(world, settings, config, Content(), loc, conf, template)
    {
      ghost var ld := Content();
      var posts := cache[loc];
      var current := template;
      var i := 0;
      while i < |posts|
        invariant 0 <= i <= |posts|
        invariant Content() == ld
        invariant i > 0 ==> template in world.templates
        invariant current == template
        invariant log == old(log) + PostWrites(world, settings, config, ld, loc, conf, template, posts[..i])
      {
        var t := GetTemplate(current);
        if t.None? {
          return;
        }
        current := t.value;
        WritePost(loc, current, conf, posts[i]);
        assert posts[..i + 1][..i] == posts[..i];
        i := i + 1;
      }
      assert posts[..i] == posts;
    }

    /** `_build_nocontent`: make the output directory, then render the index with the
        caller's entries plus the section's context. */
    method BuildNoContent(loc: string, template: string, conf: KeyValues, env: Env)
      requires loc in tags
      modifies this`log
      ensures log == old(log) + IndexEffects(world, settings, config, Content(), loc, conf, template, env)
    {
      var outdir := Join(settings.dirOutput, loc);
      Perform(MakeDirs(outdir));
      var index := Join(outdir, "index.html");
      var t := GetTemplate(template);
      if t.None? {
        return;
      }
      var full := env + map[
        "section" := SectionConf(conf),
        "section_name" := Text(loc),
        "config" := WholeConfig(config),
        "site" := SectionConf(settings.site),
        "site_posts" := SiteCache(cache),
        "tags" := Tags(tags[loc]),
        "site_tags" := SiteTags(tags)];
      Perform(Write(index, world.render(t.value, full)));
    }

    /** `_build_section`. */
    method BuildSection(loc: string, conf: KeyValues) returns (o: Outcome<BuildError>)
      requires loc in cache && loc in tags
      modifies this`log
      ensures o == SectionEffects(world, settings, config, Content(), loc, conf).0
      ensures log == old(log) + SectionEffects(world, settings, config, Content(), loc, conf).1
    {
      if !IsSet(conf, "index_template") {
        return Fail(NoIndexTemplate(loc));
      }
      var index := conf["index_template"];
      if IsSet(conf, "post_subdir") {
        if !IsSet(conf, "post_template") {
          return Fail(NoPostTemplate(loc));
        }
        BuildContent(loc, conf["post_template"], conf);
        BuildNoContent(loc, index, conf, map["posts" := PostList(cache[loc])]);
      } else {
        BuildNoContent(loc, index, conf, map[]);
      }
      o := Pass;
    }

    /** `_copy_static` (destination only). */
    method CopyStatic()
      modifies this`log
      ensures log == old(log) + [StaticCopy(settings)]
    {
      var staticOutput := Join(settings.dirOutput, GetOr(settings.site, "static_dir", ""));
      Perform(CopyTree(settings.dirStatic, staticOutput));
    }

    /** The first loop of `build`: preload and tag every location section, in order. */
    method PreloadAll()
      modifies this
      ensures Current() == PreloadPass(world, settings, config, config, State(map[], map[], old(log)))
    {
      cache := map[];
      tags := map[];
      ghost var start := State(map[], map[], old(log));
      var i := 0;
      while i < |config|
        invariant 0 <= i <= |config|
        invariant Current() == PreloadPass(world, settings, config, config[..i], start)
      {
        var sec := config[i];
        if IsLocation(sec.name) {
          PreloadSection(LocationOf(sec.name), sec.keys);
          BuildTags(LocationOf(sec.name), sec.keys);
        }
        assert config[..i + 1][..i] == config[..i];
        i := i + 1;
      }
      assert config[..i] == config;
    }

    /** One iteration of the second loop of `build`: section `i` is rendered if it is a
        location, and skipped otherwise. */
    method RenderSection(i: nat, ghost base: seq<Effect>) returns (o: Outcome<BuildError>)
      requires i < |config|
      requires IsLocation(config[i].name) ==> LocationOf(config[i].name) in cache && LocationOf(config[i].name) in tags
      requires RenderPass(world, settings, config, Content(), config[..i]).0 == Pass
      requires log == base + RenderPass(world, settings, config, Content(), config[..i]).1
      modifies this`log
      ensures o == RenderPass(world, settings, config, Content(), config[..i + 1]).0
      ensures log == base + RenderPass(world, settings, config, Content(), config[..i + 1]).1
    {
      RenderPassSnoc(world, settings, config, Content(), config, i);
      o := Pass;
      var sec := config[i];
      if IsLocation(sec.name) {
        ghost var before := RenderPass(world, settings, config, Content(), config[..i]).1;
        ghost var here := SectionEffects(world, settings, config, Content(), LocationOf(sec.name), sec.keys);
        o := BuildSection(LocationOf(sec.name), sec.keys);
        AppendAssoc(base, before, here.1);
      }
    }

    /** The second loop of `build`: render every location section, in order, stopping at the
        first one that raises. */
    method RenderAll() returns (o: Outcome<BuildError>)
      requires forall k :: 0 <= k < |config| && IsLocation(config[k].name) ==>
        LocationOf(config[k].name) in cache && LocationOf(config[k].name) in tags
      modifies this`log
      ensures o == RenderPass(world, settings, config, Content(), config).0
      ensures log == old(log) + RenderPass(world, settings, config, Content(), config).1
    {
      ghost var ld := Content();
      var i := 0;
      while i < |config|
        invariant 0 <= i <= |config|
        invariant RenderPass(world, settings, config, ld, config[..i]).0 == Pass
        invariant log == old(log) + RenderPass(world, settings, config, ld, config[..i]).1
      {
        o := RenderSection(i, old(log));
        if o.Fail? {
          RenderPassStaysFailed(world, settings, config, ld, config, i + 1);
          return;
        }
        i := i + 1;
      }
      assert config[..i] == config;
      o := Pass;
    }

    /** `build`: the preload pass over all sections, then the render pass, then the static copy. */
    method Build() returns (o: Outcome<BuildError>)
      modifies this
      ensures (o, Current()) == BuildSpec(world, settings, config, old(log))
    {
      PreloadAll();
      PreloadPassEstablishes(world, settings, config, config, old(log));
      ghost var pre := Current();
      assert pre == PreloadPass(world, settings, config, config, State(map[], map[], old(log)));
      o := RenderAll();
      ghost var rendered := RenderPass(world, settings, config, Loaded(pre.cache, pre.tags), config);
      assert o == rendered.0 && log == pre.log + rendered.1;
      if o.Pass? {
        CopyStatic();
      } else {
        assert pre.log + rendered.1 + [] == log;
      }
      assert cache == pre.cache && tags == pre.tags;
    }
  }
}
