/** Tag pages in abbzug/ssgsite.py (`_build_tags`): slug, URL and output file per
    tag, and one rendered page per tag in index order. */
module AbbzugTags {
  import opened Wrappers
  import opened Paths
  import opened SiteConfig
  import opened FileSystem
  import opened AbbzugModel
  import opened AbbzugPreload

  /** The directory of a tag's page. */
  function TagDir(s: Settings, loc: string, subdir: string, slug: string): string
  {
    Join(Join(OutDir(s, loc), subdir), slug)
  }

  /** The page fields of tag `tag` under `loc/subdir`. */
  function PageFor(w: World, s: Settings, loc: string, subdir: string, tag: string): TagPage
  {
    var slug := w.slugify(tag);
    TagPage(
      tag := tag,
      slug := slug,
      url := s.baseUrl + Join(Join(loc, subdir), slug) + "/",
      outfile := Join(TagDir(s, loc, subdir, slug), "index.html"))
  }

  /** The entry after `_build_tags` has filled in its page fields. */
  function Finalize(w: World, s: Settings, loc: string, subdir: string, e: TagEntry): TagEntry
  {
    e.(meta := e.meta.(page := Some(PageFor(w, s, loc, subdir, e.name))))
  }

  /** Every entry finalized, in order. */
  function FinalizeAll(w: World, s: Settings, loc: string, subdir: string, ix: TagIndex): TagIndex
  {
    seq(|ix|, i requires 0 <= i < |ix| => Finalize(w, s, loc, subdir, ix[i]))
  }

  /** A tag page sees only the configuration, its section, its metadata and its name. */
  function TagEnv(cfg: Config, conf: KeyValues, e: TagEntry): Env
  {
    map["config" := WholeConfig(cfg), "section" := SectionConf(conf), "tag" := TagInfo(e.meta), "tagname" := Text(e.name)]
  }

  /** What the loop does for one (not yet finalized) entry when the template resolves. */
  function TagEntryEffects(w: World, s: Settings, cfg: Config, loc: string, conf: KeyValues,
                           subdir: string, template: string, e: TagEntry): seq<Effect>
  {
    var f := Finalize(w, s, loc, subdir, e);
    var page := PageFor(w, s, loc, subdir, e.name);
    [MakeDirs(TagDir(s, loc, subdir, page.slug)), Write(page.outfile, w.render(template, TagEnv(cfg, conf, f)))]
  }

  /** The loop over a whole index, in order. */
  function TagPagesEffects(w: World, s: Settings, cfg: Config, loc: string, conf: KeyValues,
                           subdir: string, template: string, ix: TagIndex): seq<Effect>
  {
    if ix == [] then []
    else TagPagesEffects(w, s, cfg, loc, conf, subdir, template, ix[..|ix| - 1])
         + TagEntryEffects(w, s, cfg, loc, conf, subdir, template, ix[|ix| - 1])
  }

  /** Tag pages are attempted only for a non-empty index with both keys set. */
  predicate TagPagesEnabled(ix: TagIndex, conf: KeyValues)
  {
    |ix| > 0 && IsSet(conf, "tag_template") && IsSet(conf, "tag_subdir")
  }

  /** `_build_tags`: finalize and render every tag; an unresolvable template stops the loop at
      the first tag, after its fields are set and its directory is made, before any page. */
  function BuildTagsStep(w: World, s: Settings, cfg: Config, st: State, loc: string, conf: KeyValues): State
  {
    var tags := if loc in st.tags then st.tags else st.tags[loc := []];
    var ix := tags[loc];
    if !TagPagesEnabled(ix, conf) then st.(tags := tags)
    else
      var template, subdir := conf["tag_template"], conf["tag_subdir"];
      if template in w.templates then
        st.(tags := tags[loc := FinalizeAll(w, s, loc, subdir, ix)],
            log := st.log + TagPagesEffects(w, s, cfg, loc, conf, subdir, template, ix))
      else
        var first := Finalize(w, s, loc, subdir, ix[0]);
        st.(tags := tags[loc := [first] + ix[1..]],
            log := st.log + [MakeDirs(TagDir(s, loc, subdir, first.meta.page.value.slug))])
  }

  // ---------------------------------------------------------------- lemmas

  /** One more entry of the loop appends that entry's effects. */
  lemma TagPagesSnoc(w: World, s: Settings, cfg: Config, loc: string, conf: KeyValues,
                     subdir: string, template: string, ix: TagIndex, i: nat)
    requires i < |ix|
    ensures TagPagesEffects(w, s, cfg, loc, conf, subdir, template, ix[..i + 1])
         == TagPagesEffects(w, s, cfg, loc, conf, subdir, template, ix[..i])
            + TagEntryEffects(w, s, cfg, loc, conf, subdir, template, ix[i])
  {
    assert ix[..i + 1][..i] == ix[..i];
  }

  /** Finalizing one more entry appends it finalized. */
  lemma FinalizeAllSnoc(w: World, s: Settings, loc: string, subdir: string, ix: TagIndex, i: nat)
    requires i < |ix|
    ensures FinalizeAll(w, s, loc, subdir, ix[..i + 1])
         == FinalizeAll(w, s, loc, subdir, ix[..i]) + [Finalize(w, s, loc, subdir, ix[i])]
  {
    var a, b := FinalizeAll(w, s, loc, subdir, ix[..i + 1]), FinalizeAll(w, s, loc, subdir, ix[..i]) + [Finalize(w, s, loc, subdir, ix[i])];
    assert |a| == |b|;
    forall k | 0 <= k < |a|
      ensures a[k] == b[k]
    {
      if k < i {
        assert ix[..i + 1][k] == ix[..i][k];
      }
    }
  }

  /** The tags' page files, in index order. */
  function TagOutfiles(w: World, s: Settings, loc: string, subdir: string, ix: TagIndex): (r: seq<string>)
    ensures |r| == |ix| && forall k :: 0 <= k < |ix| ==> r[k] == PageFor(w, s, loc, subdir, ix[k].name).outfile
  {
    if ix == [] then [] else TagOutfiles(w, s, loc, subdir, ix[..|ix| - 1]) + [PageFor(w, s, loc, subdir, ix[|ix| - 1].name).outfile]
  }

  /** The loop writes one page per tag, at the tags' outfiles, in index order. */
  lemma {:induction false} TagPagesWritten(w: World, s: Settings, cfg: Config, loc: string, conf: KeyValues,
                                           subdir: string, template: string, ix: TagIndex)
    ensures Written(TagPagesEffects(w, s, cfg, loc, conf, subdir, template, ix)) == TagOutfiles(w, s, loc, subdir, ix)
  {
    if ix != [] {
      var init := ix[..|ix| - 1];
      var e := ix[|ix| - 1];
      TagPagesWritten(w, s, cfg, loc, conf, subdir, template, init);
      var page := PageFor(w, s, loc, subdir, e.name);
      DirThenFile(TagPagesEffects(w, s, cfg, loc, conf, subdir, template, init),
                  TagDir(s, loc, subdir, page.slug), page.outfile,
                  w.render(template, TagEnv(cfg, conf, Finalize(w, s, loc, subdir, e))));
    }
  }

  /** Tag pages are written exactly when they are enabled and the template resolves; then
      there is one page per tag, at that tag's outfile, and nothing else is written. */
  lemma TagPagesIff(w: World, s: Settings, cfg: Config, st: State, loc: string, conf: KeyValues)
    requires loc in st.tags
    ensures var after := BuildTagsStep(w, s, cfg, st, loc, conf);
      (|after.log| > |st.log| && after.log[..|st.log|] == st.log) || after.log == st.log
    ensures var after := BuildTagsStep(w, s, cfg, st, loc, conf);
      var ix := st.tags[loc];
      after.log[..|st.log|] == st.log &&
      (Written(after.log[|st.log|..]) != [] <==>
         TagPagesEnabled(ix, conf) && conf["tag_template"] in w.templates) &&
      (TagPagesEnabled(ix, conf) && conf["tag_template"] in w.templates ==>
         Written(after.log[|st.log|..]) == TagOutfiles(w, s, loc, conf["tag_subdir"], ix))
  {
    var after := BuildTagsStep(w, s, cfg, st, loc, conf);
    var ix := st.tags[loc];
    if TagPagesEnabled(ix, conf) {
      var template, subdir := conf["tag_template"], conf["tag_subdir"];
      if template in w.templates {
        var eff := TagPagesEffects(w, s, cfg, loc, conf, subdir, template, ix);
        assert after.log[|st.log|..] == eff;
        TagPagesWritten(w, s, cfg, loc, conf, subdir, template, ix);
      } else {
        var d := MakeDirs(TagDir(s, loc, subdir, w.slugify(ix[0].name)));
        assert after.log[|st.log|..] == [d];
        assert [d] == [] + [d];
      }
    } else {
      assert after.log[|st.log|..] == [];
    }
  }

  /** The page at a shared outfile holds the render of the last tag in index order that
      targets it: tags whose slugs collide overwrite each other, the later one winning. */
  lemma {:induction false} LaterTagWins(w: World, s: Settings, cfg: Config, loc: string, conf: KeyValues,
                                        subdir: string, template: string, ix: TagIndex, out: string, j: nat)
    requires j < |ix| && PageFor(w, s, loc, subdir, ix[j].name).outfile == out
    requires forall m :: j < m < |ix| ==> PageFor(w, s, loc, subdir, ix[m].name).outfile != out
    ensures var files := Files(TagPagesEffects(w, s, cfg, loc, conf, subdir, template, ix));
      out in files && files[out] == w.render(template, TagEnv(cfg, conf, Finalize(w, s, loc, subdir, ix[j])))
  {
    var init := ix[..|ix| - 1];
    var e := ix[|ix| - 1];
    var page := PageFor(w, s, loc, subdir, e.name);
    DirThenFile(TagPagesEffects(w, s, cfg, loc, conf, subdir, template, init),
                TagDir(s, loc, subdir, page.slug), page.outfile,
                w.render(template, TagEnv(cfg, conf, Finalize(w, s, loc, subdir, e))));
    if j < |ix| - 1 {
      LaterTagWins(w, s, cfg, loc, conf, subdir, template, init, out, j);
    }
  }

  /** The grouping invariant depends only on the keys and the post lists. */
  lemma GroupedPointwise(ps: seq<Post>, a: TagIndex, b: TagIndex)
    requires Grouped(ps, a) && |a| == |b|
    requires forall i :: 0 <= i < |a| ==> b[i].name == a[i].name && b[i].meta.posts == a[i].meta.posts
    ensures Grouped(ps, b)
  {
    assert Names(a) == Names(b);
  }

  /** Finalizing keeps the keys and the post lists, so the grouping invariant survives, and
      no other location is touched. */
  lemma BuildTagsKeepsGrouping(w: World, s: Settings, cfg: Config, st: State, loc: string,
                               conf: KeyValues, ps: seq<Post>)
    requires loc in st.tags && Grouped(ps, st.tags[loc])
    ensures var after := BuildTagsStep(w, s, cfg, st, loc, conf);
      loc in after.tags && Grouped(ps, after.tags[loc]) && after.cache == st.cache &&
      forall l :: l in st.tags && l != loc ==> l in after.tags && after.tags[l] == st.tags[l]
  {
    BuildTagsShape(w, s, cfg, st, loc, conf);
    var after := BuildTagsStep(w, s, cfg, st, loc, conf);
    GroupedPointwise(ps, st.tags[loc], after.tags[loc]);
  }

  /** `_build_tags` replaces only its own location's index, by one with the same keys and post
      lists in the same order. */
  lemma BuildTagsShape(w: World, s: Settings, cfg: Config, st: State, loc: string, conf: KeyValues)
    requires loc in st.tags
    ensures var after := BuildTagsStep(w, s, cfg, st, loc, conf);
      var ix, r := st.tags[loc], after.tags[loc];
      && loc in after.tags && after.tags == st.tags[loc := r] && after.cache == st.cache
      && |r| == |ix|
      && forall i :: 0 <= i < |ix| ==> r[i].name == ix[i].name && r[i].meta.posts == ix[i].meta.posts
  {
    var ix := st.tags[loc];
    if TagPagesEnabled(ix, conf) {
      var template, subdir := conf["tag_template"], conf["tag_subdir"];
      if !(template in w.templates) {
        var r := [Finalize(w, s, loc, subdir, ix[0])] + ix[1..];
        assert forall i :: 1 <= i < |ix| ==> r[i] == ix[i];
      }
    }
  }


}
