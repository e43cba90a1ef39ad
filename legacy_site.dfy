/** The `Site` class of ssgsite.py: the older build run step by step against an
    abstract disk, each method proved against its specification function. */
module LegacySite {
  import opened Wrappers
  import opened Sequences
  import opened Paths
  import opened SiteConfig
  import opened FileSystem
  import opened LegacyModel
  import opened LegacyBuild

  class Site {
    const world: World
    const config: Config
    const settings: Settings

    /** Cached documents per location with content, keyed by file name. */
    var cache: map<string, PostCache>
    /** Everything done to the disk, in order. */
    var log: seq<Effect>

    function Current(): State
      reads this
    {
      State(cache, log)
    }

    constructor (world: World, config: Config, settings: Settings)
      ensures this.world == world && this.config == config && this.settings == settings
      ensures cache == map[] && log == []
    {
      this.world := world;
      this.config := config;
      this.settings := settings;
      cache, log := map[], [];
    }

    /** `Site(contentdir)`: refuses a configuration without the site section, and otherwise
        fixes the directories from it. */
    static method Open(contentdir: string, config: Config, world: World) returns (r: Result<Site, string>)
      ensures r.Failure? <==> forall i :: 0 <= i < |config| ==> config[i].name != SiteSectionName
      ensures r.Failure? ==> r.error == NotSiteConfig
      ensures r.Success? ==>
        && fresh(r.value) && r.value.log == [] && r.value.cache == map[]
        && r.value.config == config && r.value.world == world
        && r.value.settings == Configure(contentdir, config).value
    {
      var configured := Configure(contentdir, config);
      if configured.Failure? {
        return Failure(configured.error);
      }
      var site := new Site(world, config, configured.value);
      return Success(site);
    }

    /** Performs one effect on the disk. */
    method Perform(e: Effect)
      modifies this`log
      ensures log == old(log) + [e]
    {
      log := log + [e];
    }

    /** `jinja2env.get_template`: the template if the loader can resolve the name. A resolved
        template passed back in comes back unchanged. */
    method GetTemplate(name: string) returns (t: Option<string>)
      ensures t.Some? <==> name in world.templates
      ensures t.Some? ==> t.value == name
    {
      if name in world.templates {
        t := Some(name);
      } else {
        t := None;
      }
    }

    /** `cache[n] = d` on one location's dictionary. */
    static method Store(c: PostCache, n: string, d: Document) returns (r: PostCache)
      ensures r == PutEntry(c, n, d)
      ensures Keys(r) == if n in Keys(c) then Keys(c) else Keys(c) + [n]
      ensures Find(r, n) == Some(d)
    {
      PutEntryKeys(c, n, d);
      PutEntryFind(c, n, d, n);
      var k := IndexOf(Keys(c), n);
      if k < 0 {
        r := c + [CacheEntry(n, d)];
      } else {
        r := c[k := CacheEntry(n, d)];
      }
    }

    /** The loop of `_preload_section`: store every enumerated file under its base name. */
    static method LoadAll(found: seq<SourceFile>) returns (c: PostCache)
      ensures c == LoadCache(found)
    {
      c := [];
      var i := 0;
      while i < |found|
        invariant 0 <= i <= |found|
        invariant c == LoadCache(found[..i])
      {
        assert found[..i + 1][..i] == found[..i];
        c := Store(c, Basename(found[i].path), found[i].doc);
        i := i + 1;
      }
      assert found[..i] == found;
    }

    /** `_preload_section`. */
    method PreloadSection(loc: string, conf: KeyValues)
      modifies this`cache
      ensures cache == PreloadStep(world, settings, old(cache), loc, conf)
    {
      if !IsSet(conf, "content") {
        return;
      }
      var indir := Join(settings.dirContent, conf["content"]);
      var found := Glob(world.glob, indir);
      var c := LoadAll(found);
      cache := cache[loc := c];
    }

    /** The page of one cache entry, rendered with a resolved template. */
    method WritePost(loc: string, template: string, conf: KeyValues, e: CacheEntry)
      modifies this`log
      ensures log == old(log) + [Write(PostPath(settings, loc, e.name), world.render(template, PostEnv(config, conf, e)))]
    {
      var outfile := Join(Join(settings.dirOutput, loc), ReplaceMd(e.name));
      var env := map[
        "CONTENT" := Text(e.doc.body),
        "post" := PostMeta(e.doc.meta),
        "section" := SectionConf(conf),
        "config" := WholeConfig(config)];
      Perform(Write(outfile, world.render(template, env)));
    }

    /** The loop of `_build_content`: one page per entry; the template is resolved at every
        entry and, once resolved, resolves to itself, so either every entry is written or,
        at the first entry, none. */
    method WritePosts(loc: string, template: string, conf: KeyValues, entries: PostCache)
      modifies this`log
      ensures log == old(log) + if template in world.templates then PostWrites(world, settings, config, loc, conf, template, entries) else []
    {
      var current := template;
      var i := 0;
      while i < |entries|
        invariant 0 <= i <= |entries|
        invariant i > 0 ==> template in world.templates
        invariant current == template
        invariant log == old(log) + PostWrites(world, settings, config, loc, conf, template, entries[..i])
      {
        var t := GetTemplate(current);
        if t.None? {
          assert entries[..i] == [];
          return;
        }
        current := t.value;
        WritePost(loc, current, conf, entries[i]);
        assert entries[..i + 1][..i] == entries[..i];
        i := i + 1;
      }
      assert entries[..i] == entries;
    }

    /** `_build_content`: make the output directory, then write the posts of the location. */
    method BuildContent(loc: string, template: string, conf: KeyValues)
      requires loc in cache
      modifies this`log
      ensures log == old(log) + ContentEffects(world, settings, config, loc, conf, template, cache[loc])
    {
      Perform(MakeDirs(Join(settings.dirOutput, loc)));
      WritePosts(loc, template, conf, cache[loc]);
    }

    /** `_build_nocontent`: make the output directory, then render the index with the
        caller's entries plus the section and the config. */
    method BuildNoContent(loc: string, template: string, conf: KeyValues, env: Env)
      modifies this`log
      ensures log == old(log) + IndexEffects(world, settings, config, loc, conf, template, env)
    {
      var outdir := Join(settings.dirOutput, loc);
      Perform(MakeDirs(outdir));
      var index := Join(outdir, "index.html");
      var t := GetTemplate(template);
      if t.None? {
        return;
      }
      var full := env + map["section" := SectionConf(conf), "config" := WholeConfig(config)];
      Perform(Write(index, world.render(t.value, full)));
    }

    /** `_build_section`. */
    method BuildSection(loc: string, conf: KeyValues) returns (o: Outcome<BuildError>)
      requires IsSet(conf, "content") ==> loc in cache
      modifies this`log
      ensures o == SectionEffects(world, settings, config, cache, loc, conf).0
      ensures log == old(log) + SectionEffects(world, settings, config, cache, loc, conf).1
    {
      if !IsSet(conf, "template") {
        return Fail(NoTemplate(loc));
      }
      var template := conf["template"];
      if IsSet(conf, "content") {
        BuildContent(loc, template, conf);
        if IsSet(conf, "index") {
          var posts := Docs(cache[loc]);
          BuildNoContent(loc, conf["index"], conf, map["posts" := PostDocs(posts)]);
        } else {
          assert log == log + [];
        }
      } else {
        BuildNoContent(loc, template, conf, map[]);
      }
      o := Pass;
    }

    /** `_copy_static` (destination only). */
    method CopyStatic()
      modifies this`log
      ensures log == old(log) + [StaticCopy(settings)]
    {
      var staticOutput := Join(settings.dirOutput, GetOr(settings.site, "static_directory", ""));
      Perform(CopyTree(settings.dirStatic, staticOutput));
    }

    /** The first loop of `build`: a fresh cache, then every location section preloaded in order. */
    method PreloadAll()
      modifies this`cache
      ensures cache == PreloadPass(world, settings, config, map[])
    {
      cache := map[];
      var i := 0;
      while i < |config|
        invariant 0 <= i <= |config|
        invariant cache == PreloadPass(world, settings, config[..i], map[])
      {
        var sec := config[i];
        if IsLocation(sec.name) {
          PreloadSection(LocationOf(sec.name), sec.keys);
        }
        assert config[..i + 1][..i] == config[..i];
        i := i + 1;
      }
      assert config[..i] == config;
    }

    /** One iteration of the second loop of `build`: section `i` is rendered if it is a
        location, and skipped otherwise. */
    method RenderSection(i: nat, ghost base: seq<Effect>) returns (o: Outcome<BuildError>)
      requires i < |config|
      requires IsLocation(config[i].name) && IsSet(config[i].keys, "content") ==> LocationOf(config[i].name) in cache
      requires RenderPass(world, settings, config, cache, config[..i]).0 == Pass
      requires log == base + RenderPass(world, settings, config, cache, config[..i]).1
      modifies this`log
      ensures o == RenderPass(world, settings, config, cache, config[..i + 1]).0
      ensures log == base + RenderPass(world, settings, config, cache, config[..i + 1]).1
    {
      RenderPassSnoc(world, settings, config, cache, config, i);
      o := Pass;
      var sec := config[i];
      if IsLocation(sec.name) {
        ghost var before := RenderPass(world, settings, config, cache, config[..i]).1;
        ghost var here := SectionEffects(world, settings, config, cache, LocationOf(sec.name), sec.keys);
        o := BuildSection(LocationOf(sec.name), sec.keys);
        AppendAssoc(base, before, here.1);
      }
    }

    /** The second loop of `build`: render every location section, in order, stopping at the
        first one that raises. */
    method RenderAll() returns (o: Outcome<BuildError>)
      requires forall k :: 0 <= k < |config| && IsLocation(config[k].name) && IsSet(config[k].keys, "content") ==>
        LocationOf(config[k].name) in cache
      modifies this`log
      ensures o == RenderPass(world, settings, config, cache, config).0
      ensures log == old(log) + RenderPass(world, settings, config, cache, config).1
    {
      var i := 0;
      while i < |config|
        invariant 0 <= i <= |config|
        invariant RenderPass(world, settings, config, cache, config[..i]).0 == Pass
        invariant log == old(log) + RenderPass(world, settings, config, cache, config[..i]).1
      {
        o := RenderSection(i, old(log));
        if o.Fail? {
          RenderPassStaysFailed(world, settings, config, cache, config, i + 1);
          return;
        }
        i := i + 1;
      }
      assert config[..i] == config;
      o := Pass;
    }

    /** `build`: the preload pass over all sections, then the render pass, then the static
        copy; a `ValueError` from a section ends the build before the static copy. */
    method Build() returns (o: Outcome<BuildError>)
      modifies this
      ensures (o, Current()) == BuildSpec(world, settings, config, old(log))
    {
      PreloadAll();
      ContentSectionsCached(world, settings, config);
      o := RenderAll();
      if o.Pass? {
        CopyStatic();
      } else {
        ghost var rendered := RenderPass(world, settings, config, cache, config);
        assert log == old(log) + rendered.1 + [];
      }
    }
  }
}
