/** The whole build of abbzug/ssgsite.py (`Site.build`, `_copy_static`): a preload
    pass over the location sections, a render pass, then the static copy. */
module AbbzugBuild {
  import opened Wrappers
  import opened Sequences
  import opened Paths
  import opened SiteConfig
  import opened FileSystem
  import opened AbbzugModel
  import opened AbbzugPreload
  import opened AbbzugTags
  import opened AbbzugRender

  /** One section of the first pass: `_preload_section` then `_build_tags`, for locations only. */
  function PreloadSectionStep(w: World, s: Settings, cfg: Config, st: State, sec: Section): State
  {
    if IsLocation(sec.name) then
      var loc := LocationOf(sec.name);
      BuildTagsStep(w, s, cfg, PreloadStep(w, s, st, loc, sec.keys), loc, sec.keys)
    else st
  }

  /** The first pass over `secs`, in order. */
  function PreloadPass(w: World, s: Settings, cfg: Config, secs: seq<Section>, st: State): State
  {
    if secs == [] then st
    else PreloadSectionStep(w, s, cfg, PreloadPass(w, s, cfg, secs[..|secs| - 1], st), secs[|secs| - 1])
  }

  /** The second pass over `secs`, in order, against the preloaded state; it stops at the
      first section that raises. */
  function RenderPass(w: World, s: Settings, cfg: Config, ld: Loaded, secs: seq<Section>)
    : (Outcome<BuildError>, seq<Effect>)
  {
    if secs == [] then (Pass, [])
    else
      var before := RenderPass(w, s, cfg, ld, secs[..|secs| - 1]);
      var sec := secs[|secs| - 1];
      if before.0.Fail? || !IsLocation(sec.name) then before
      else
        var here := SectionEffects(w, s, cfg, ld, LocationOf(sec.name), sec.keys);
        (here.0, before.1 + here.1)
  }

  /** `_copy_static`: the static tree goes to the output directory joined with `static_dir`
      (the empty string when unset). */
  function StaticCopy(s: Settings): Effect
  {
    CopyTree(s.dirStatic, Join(s.dirOutput, GetOr(s.site, "static_dir", "")))
  }

  /** `build`: fresh cache and tags, both passes, then the static copy if nothing raised. */
  function BuildSpec(w: World, s: Settings, cfg: Config, log0: seq<Effect>): (Outcome<BuildError>, State)
  {
    var pre := PreloadPass(w, s, cfg, cfg, State(map[], map[], log0));
    var rendered := RenderPass(w, s, cfg, Loaded(pre.cache, pre.tags), cfg);
    (rendered.0, pre.(log := pre.log + rendered.1 + (if rendered.0.Pass? then [StaticCopy(s)] else [])))
  }

  /** Section `sec` raises in the render pass. */
  predicate Faulty(sec: Section)
  {
    IsLocation(sec.name) && SectionCheck(LocationOf(sec.name), sec.keys).Some?
  }

  /** The invariant the first pass keeps: every cached location has a tag index grouped with
      its posts, and every location section seen so far is cached. */
  ghost predicate Preloaded(st: State, secs: seq<Section>)
  {
    && CacheGrouped(st)
    && (forall i :: 0 <= i < |secs| && IsLocation(secs[i].name) ==> LocationOf(secs[i].name) in st.cache)
  }

  /** Every cached location has a tag index grouped with its posts. */
  ghost predicate CacheGrouped(st: State)
  {
    forall loc :: loc in st.cache ==> loc in st.tags && Grouped(st.cache[loc], st.tags[loc])
  }

  // ---------------------------------------------------------------- lemmas

  /** Replacing one location's posts by `posts`, indexed, keeps the grouping invariant. */
  lemma ReloadKeepsGrouping(st: State, loc: string, posts: seq<Post>, log: seq<Effect>)
    requires CacheGrouped(st)
    ensures var after := State(st.cache[loc := posts], st.tags[loc := IndexPosts(posts)], log);
      CacheGrouped(after) && after.cache.Keys == st.cache.Keys + {loc} && loc in after.tags
  {
    var after := State(st.cache[loc := posts], st.tags[loc := IndexPosts(posts)], log);
    IndexPostsGrouped(posts);
    forall l | l in after.cache
      ensures l in after.tags && Grouped(after.cache[l], after.tags[l])
    {
      if l != loc {
        assert after.cache[l] == st.cache[l] && after.tags[l] == st.tags[l];
      }
    }
  }

  /** `_preload_section` keeps the grouping invariant and caches its location. */
  lemma PreloadStepKeeps(w: World, s: Settings, st: State, loc: string, conf: KeyValues)
    requires CacheGrouped(st)
    ensures var after := PreloadStep(w, s, st, loc, conf);
      CacheGrouped(after) && after.cache.Keys == st.cache.Keys + {loc} && loc in after.tags
    ensures !IsSet(conf, "post_subdir") ==>
      var after := PreloadStep(w, s, st, loc, conf);
      after.cache[loc] == [] && after.tags[loc] == [] && after.log == st.log
  {
    if IsSet(conf, "post_subdir") {
      var posts := LoadPosts(s, loc, Glob(w.glob, Join(s.dirPosts, conf["post_subdir"])));
      ReloadKeepsGrouping(st, loc, posts, st.log + [MakeDirs(OutDir(s, loc))]);
    } else {
      assert IndexPosts([]) == [];
      ReloadKeepsGrouping(st, loc, [], st.log);
    }
  }

  /** `_build_tags` keeps the grouping of every location and leaves the cache alone. */
  lemma BuildTagsKeeps(w: World, s: Settings, cfg: Config, st: State, loc: string, conf: KeyValues)
    requires CacheGrouped(st) && loc in st.cache
    ensures var after := BuildTagsStep(w, s, cfg, st, loc, conf);
      CacheGrouped(after) && after.cache == st.cache
  {
    BuildTagsKeepsGrouping(w, s, cfg, st, loc, conf, st.cache[loc]);
  }

  /** One section of the first pass keeps the invariant and caches its location. */
  lemma PreloadSectionStepKeeps(w: World, s: Settings, cfg: Config, st: State, secs: seq<Section>, sec: Section)
    requires Preloaded(st, secs)
    ensures Preloaded(PreloadSectionStep(w, s, cfg, st, sec), secs + [sec])
  {
    var after := PreloadSectionStep(w, s, cfg, st, sec);
    if IsLocation(sec.name) {
      var loc := LocationOf(sec.name);
      PreloadStepKeeps(w, s, st, loc, sec.keys);
      BuildTagsKeeps(w, s, cfg, PreloadStep(w, s, st, loc, sec.keys), loc, sec.keys);
      assert after.cache.Keys == st.cache.Keys + {loc};
    }
    forall i | 0 <= i < |secs + [sec]| && IsLocation((secs + [sec])[i].name)
      ensures LocationOf((secs + [sec])[i].name) in after.cache
    {
      if i < |secs| { assert (secs + [sec])[i] == secs[i]; }
    }
  }

  /** After the first pass every location section is cached, and every cache entry has a tag
      index grouped with its posts: one key per distinct tag in order of first use, listing
      the posts that carry it once per occurrence. */
  lemma {:induction false} PreloadPassEstablishes(w: World, s: Settings, cfg: Config, secs: seq<Section>, log0: seq<Effect>)
    ensures Preloaded(PreloadPass(w, s, cfg, secs, State(map[], map[], log0)), secs)
  {
    if secs != [] {
      var init := secs[..|secs| - 1];
      PreloadPassEstablishes(w, s, cfg, init, log0);
      PreloadSectionStepKeeps(w, s, cfg, PreloadPass(w, s, cfg, init, State(map[], map[], log0)), init, secs[|secs| - 1]);
      assert init + [secs[|secs| - 1]] == secs;
    }
  }

  /** The index of the first faulty section of `secs`, or `|secs|` when there is none. */
  function FirstFaulty(secs: seq<Section>): (i: nat)
    ensures i <= |secs|
    ensures i < |secs| ==> Faulty(secs[i])
    ensures forall j :: 0 <= j < i ==> !Faulty(secs[j])
  {
    if secs == [] then 0
    else
      var f := FirstFaulty(secs[..|secs| - 1]);
      if f < |secs| - 1 then f else if Faulty(secs[|secs| - 1]) then |secs| - 1 else |secs|
  }

  /** The render pass raises exactly when some location section is faulty, and then with the
      error of the first faulty one, after all effects of the sections before it. */
  lemma {:induction false} RenderPassFirstError(w: World, s: Settings, cfg: Config, ld: Loaded, secs: seq<Section>)
    ensures RenderPass(w, s, cfg, ld, secs).0.Fail? <==> FirstFaulty(secs) < |secs|
    ensures var i := FirstFaulty(secs);
      i < |secs| ==>
        && RenderPass(w, s, cfg, ld, secs[..i]).0 == Pass
        && RenderPass(w, s, cfg, ld, secs)
           == (Fail(SectionCheck(LocationOf(secs[i].name), secs[i].keys).value), RenderPass(w, s, cfg, ld, secs[..i]).1)
  {
    if secs != [] {
      var n := |secs| - 1;
      var init, last := secs[..n], secs[n];
      RenderPassFirstError(w, s, cfg, ld, init);
      var f := FirstFaulty(init);
      if f < n {
        assert secs[..f] == init[..f];
      } else {
        assert init == secs[..n];
        if IsLocation(last.name) {
          var loc := LocationOf(last.name);
          var check := SectionCheck(loc, last.keys);
          if check.Some? {
            assert SectionEffects(w, s, cfg, ld, loc, last.keys) == (Fail(check.value), []);
            assert RenderPass(w, s, cfg, ld, init).1 + [] == RenderPass(w, s, cfg, ld, init).1;
          } else {
            assert SectionEffects(w, s, cfg, ld, loc, last.keys).0 == Pass;
          }
        }
      }
    }
  }

  /** One more section of the render pass, while nothing has raised yet. */
  lemma RenderPassSnoc(w: World, s: Settings, cfg: Config, ld: Loaded, secs: seq<Section>, i: nat)
    requires i < |secs| && RenderPass(w, s, cfg, ld, secs[..i]).0 == Pass
    ensures !IsLocation(secs[i].name) ==> RenderPass(w, s, cfg, ld, secs[..i + 1]) == RenderPass(w, s, cfg, ld, secs[..i])
    ensures IsLocation(secs[i].name) ==>
      var here := SectionEffects(w, s, cfg, ld, LocationOf(secs[i].name), secs[i].keys);
      RenderPass(w, s, cfg, ld, secs[..i + 1]) == (here.0, RenderPass(w, s, cfg, ld, secs[..i]).1 + here.1)
  {
    assert secs[..i + 1][..i] == secs[..i];
  }

  /** Once the render pass has raised, later sections add nothing. */
  lemma RenderPassStaysFailed(w: World, s: Settings, cfg: Config, ld: Loaded, secs: seq<Section>, i: nat)
    requires i <= |secs| && RenderPass(w, s, cfg, ld, secs[..i]).0.Fail?
    ensures RenderPass(w, s, cfg, ld, secs) == RenderPass(w, s, cfg, ld, secs[..i])
    decreases |secs| - i
  {
    if i < |secs| {
      assert secs[..i + 1][..i] == secs[..i];
      RenderPassStaysFailed(w, s, cfg, ld, secs, i + 1);
    } else {
      assert secs[..i] == secs;
    }
  }

  /** The build succeeds exactly when no location section is faulty; it then ends with the
      static copy. When it fails, the log holds everything the first pass did (all tag pages)
      and everything the sections before the first faulty one rendered, and no static copy. */
  lemma BuildOutcome(w: World, s: Settings, cfg: Config, log0: seq<Effect>)
    ensures var (o, st) := BuildSpec(w, s, cfg, log0);
      var pre := PreloadPass(w, s, cfg, cfg, State(map[], map[], log0));
      var ld := Loaded(pre.cache, pre.tags);
      var i := FirstFaulty(cfg);
      && (o.Pass? <==> forall k :: 0 <= k < |cfg| ==> !Faulty(cfg[k]))
      && (o.Pass? ==> st.log == pre.log + RenderPass(w, s, cfg, ld, cfg).1 + [StaticCopy(s)])
      && (o.Fail? ==>
           && i < |cfg|
           && o == Fail(SectionCheck(LocationOf(cfg[i].name), cfg[i].keys).value)
           && st.log == pre.log + RenderPass(w, s, cfg, ld, cfg[..i]).1)
  {
    var pre := PreloadPass(w, s, cfg, cfg, State(map[], map[], log0));
    RenderPassFirstError(w, s, cfg, Loaded(pre.cache, pre.tags), cfg);
  }

  /** Without a `static_dir` key the static tree is copied into the output directory itself. */
  lemma StaticDefault(s: Settings)
    requires "static_dir" !in s.site
    ensures StaticCopy(s) == CopyTree(s.dirStatic, Join(s.dirOutput, ""))
  {
  }
}
