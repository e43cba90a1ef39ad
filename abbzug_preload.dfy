/** The preload half of the build in abbzug/ssgsite.py (`_preload_section`): the
    per-location post cache, the derived post fields and the per-location tag index. */
module AbbzugPreload {
  import opened Wrappers
  import opened Sequences
  import opened Paths
  import opened SiteConfig
  import opened FileSystem
  import opened AbbzugModel
  import ReadingTime

  /** The output file name of a content file: its basename with every ".md" made ".html". */
  function OutName(path: string): string
  {
    ReplaceMd(Basename(path))
  }

  /** The output directory of a location. */
  function OutDir(s: Settings, loc: string): string
  {
    Join(s.dirOutput, loc)
  }

  /** The post loaded from one glob result, with its derived fields. */
  function LoadPost(s: Settings, loc: string, f: SourceFile): Post
  {
    var outfn := OutName(f.path);
    Post(
      meta := f.doc.meta,
      body := f.doc.body,
      inpath := f.path,
      outpath := Join(OutDir(s, loc), outfn),
      url := s.baseUrl + loc + outfn,
      readingtime := ReadingTime.Minutes(f.doc.body),
      tags := match f.doc.meta.tags case Some(ts) => ts case None => [])
  }

  /** One post per enumerated file, in enumeration order. */
  function LoadPosts(s: Settings, loc: string, files: seq<SourceFile>): seq<Post>
  {
    seq(|files|, i requires 0 <= i < |files| => LoadPost(s, loc, files[i]))
  }

  /** The keys of a tag index, in order. */
  function Names(ix: TagIndex): (r: seq<string>)
    ensures |r| == |ix| && forall i :: 0 <= i < |ix| ==> r[i] == ix[i].name
  {
    if ix == [] then [] else [ix[0].name] + Names(ix[1..])
  }

  /** The position of key `t` in the index, or -1 when it is absent. */
  function TagPosition(ix: TagIndex, t: string): (k: int)
    ensures -1 <= k < |ix|
    ensures k == -1 <==> t !in Names(ix)
    ensures k >= 0 ==> ix[k].name == t && forall j :: 0 <= j < k ==> ix[j].name != t
  {
    if ix == [] then -1
    else if ix[0].name == t then 0
    else
      var k := TagPosition(ix[1..], t);
      assert Names(ix) == [ix[0].name] + Names(ix[1..]);
      if k == -1 then -1 else k + 1
  }

  /** `index[t]`, if present. */
  function Lookup(ix: TagIndex, t: string): Option<TagMeta>
  {
    var k := TagPosition(ix, t);
    if k < 0 then None else Some(ix[k].meta)
  }

  /** The posts recorded under `t`, none when the key is absent. */
  function PostsOf(ix: TagIndex, t: string): seq<Post>
  {
    match Lookup(ix, t)
    case Some(m) => m.posts
    case None => []
  }

  /** Record post `p` under tag `t`: a new key gets a fresh list, an old one grows by `p`. */
  function AddTag(ix: TagIndex, t: string, p: Post): TagIndex
  {
    var k := TagPosition(ix, t);
    if k < 0 then ix + [TagEntry(t, TagMeta([p], None))]
    else ix[k := ix[k].(meta := ix[k].meta.(posts := ix[k].meta.posts + [p]))]
  }

  /** Record `p` once under each entry of its tag list, in list order. */
  function AddTags(ix: TagIndex, ts: seq<string>, p: Post): TagIndex
  {
    if ts == [] then ix else AddTag(AddTags(ix, ts[..|ts| - 1], p), ts[|ts| - 1], p)
  }

  /** The tag index built while loading `ps` in order. */
  function IndexPosts(ps: seq<Post>): TagIndex
  {
    if ps == [] then [] else AddTags(IndexPosts(ps[..|ps| - 1]), ps[|ps| - 1].tags, ps[|ps| - 1])
  }

  /** Every tag of every post, in order. */
  function AllTags(ps: seq<Post>): seq<string>
  {
    if ps == [] then [] else AllTags(ps[..|ps| - 1]) + ps[|ps| - 1].tags
  }

  /** Reference definition of a tag's posts: each post of `ps`, in order, repeated once per
      occurrence of `t` in its tag list. */
  function Members(ps: seq<Post>, t: string): seq<Post>
  {
    if ps == [] then [] else Members(ps[..|ps| - 1], t) + Repeat(ps[|ps| - 1], Count(ps[|ps| - 1].tags, t))
  }

  /** The subsequence of `ps` whose tag list contains `t`. */
  function Carrying(ps: seq<Post>, t: string): seq<Post>
  {
    if ps == [] then [] else Carrying(ps[..|ps| - 1], t) + (if t in ps[|ps| - 1].tags then [ps[|ps| - 1]] else [])
  }

  /** The grouping invariant between a location's posts and its tag index: the keys are the
      distinct tags in order of first use, and each key lists exactly its members. */
  ghost predicate Grouped(ps: seq<Post>, ix: TagIndex)
  {
    && Names(ix) == Dedup(AllTags(ps))
    && forall i :: 0 <= i < |ix| ==> ix[i].meta.posts == Members(ps, ix[i].name)
  }

  /** `_preload_section`: reset the location's cache and tags; with a `post_subdir`, create the
      output directory and load every enumerated file. */
  function PreloadStep(w: World, s: Settings, st: State, loc: string, conf: KeyValues): State
  {
    if !IsSet(conf, "post_subdir") then
      st.(cache := st.cache[loc := []], tags := st.tags[loc := []])
    else
      var posts := LoadPosts(s, loc, Glob(w.glob, Join(s.dirPosts, conf["post_subdir"])));
      State(st.cache[loc := posts], st.tags[loc := IndexPosts(posts)], st.log + [MakeDirs(OutDir(s, loc))])
  }

  // ---------------------------------------------------------------- lemmas

  /** Loading one more file appends its post. */
  lemma LoadPostsSnoc(s: Settings, loc: string, files: seq<SourceFile>, i: nat)
    requires i < |files|
    ensures LoadPosts(s, loc, files[..i + 1]) == LoadPosts(s, loc, files[..i]) + [LoadPost(s, loc, files[i])]
  {
    var a, b := LoadPosts(s, loc, files[..i + 1]), LoadPosts(s, loc, files[..i]) + [LoadPost(s, loc, files[i])];
    assert |a| == |b|;
    forall k | 0 <= k < |a|
      ensures a[k] == b[k]
    {
      if k < i {
        assert files[..i + 1][k] == files[..i][k];
      }
    }
  }

  /** Positions depend on the keys alone. */
  lemma TagPositionByNames(a: TagIndex, b: TagIndex, u: string)
    requires |a| == |b| && forall j :: 0 <= j < |a| ==> a[j].name == b[j].name
    ensures TagPosition(a, u) == TagPosition(b, u)
  {
    var ka, kb := TagPosition(a, u), TagPosition(b, u);
    if ka >= 0 && kb >= 0 {
      assert !(ka < kb) && !(kb < ka);
    }
  }

  /** Appending a new key leaves the positions of the old keys alone. */
  lemma TagPositionAppend(ix: TagIndex, e: TagEntry, u: string)
    ensures TagPosition(ix + [e], u) ==
      if TagPosition(ix, u) >= 0 then TagPosition(ix, u) else if e.name == u then |ix| else -1
  {
    if TagPosition(ix, u) >= 0 {
      TagPositionAppendFound(ix, e, u);
    } else {
      TagPositionAppendMissing(ix, e, u);
    }
  }

  /** A key already present keeps its position when an entry is appended. */
  lemma TagPositionAppendFound(ix: TagIndex, e: TagEntry, u: string)
    requires TagPosition(ix, u) >= 0
    ensures TagPosition(ix + [e], u) == TagPosition(ix, u)
  {
    var r := ix + [e];
    var k, kr := TagPosition(ix, u), TagPosition(r, u);
    assert r[k].name == u;
    assert Names(r)[k] == u;
    assert forall j :: 0 <= j < |ix| ==> r[j] == ix[j];
  }

  /** An absent key is found only in the appended entry. */
  lemma TagPositionAppendMissing(ix: TagIndex, e: TagEntry, u: string)
    requires TagPosition(ix, u) < 0
    ensures TagPosition(ix + [e], u) == if e.name == u then |ix| else -1
  {
    var r := ix + [e];
    var kr := TagPosition(r, u);
    assert forall j :: 0 <= j < |ix| ==> r[j] == ix[j] && Names(ix)[j] != u;
    if e.name == u {
      assert Names(r)[|ix|] == u;
    }
  }

  /** Adding one tag occurrence: the key list grows only by a new key, and only `t` gains `p`. */
  lemma AddTagEffect(ix: TagIndex, t: string, p: Post)
    ensures Names(AddTag(ix, t, p)) == if t in Names(ix) then Names(ix) else Names(ix) + [t]
    ensures forall u :: PostsOf(AddTag(ix, t, p), u) == PostsOf(ix, u) + (if u == t then [p] else [])
  {
    if TagPosition(ix, t) < 0 {
      AddTagNew(ix, t, p);
    } else {
      AddTagOld(ix, t, p);
    }
  }

  lemma AddTagNew(ix: TagIndex, t: string, p: Post)
    requires TagPosition(ix, t) < 0
    ensures Names(AddTag(ix, t, p)) == Names(ix) + [t]
    ensures forall u :: PostsOf(AddTag(ix, t, p), u) == PostsOf(ix, u) + (if u == t then [p] else [])
  {
    var r := AddTag(ix, t, p);
    assert |Names(r)| == |Names(ix) + [t]|;
    forall u ensures PostsOf(r, u) == PostsOf(ix, u) + (if u == t then [p] else []) {
      AddTagNewAt(ix, t, p, u);
    }
  }

  /** A new key `t` gets exactly `[p]`; every other key keeps its posts. */
  lemma AddTagNewAt(ix: TagIndex, t: string, p: Post, u: string)
    requires TagPosition(ix, t) < 0
    ensures PostsOf(AddTag(ix, t, p), u) == PostsOf(ix, u) + (if u == t then [p] else [])
  {
    var e := TagEntry(t, TagMeta([p], None));
    TagPositionAppend(ix, e, u);
  }

  lemma AddTagOld(ix: TagIndex, t: string, p: Post)
    requires TagPosition(ix, t) >= 0
    ensures Names(AddTag(ix, t, p)) == Names(ix)
    ensures forall u :: PostsOf(AddTag(ix, t, p), u) == PostsOf(ix, u) + (if u == t then [p] else [])
  {
    AddTagOldKeys(ix, t, p);
    forall u ensures PostsOf(AddTag(ix, t, p), u) == PostsOf(ix, u) + (if u == t then [p] else []) {
      AddTagOldAt(ix, t, p, u);
    }
  }

  /** Growing an existing key keeps every key in place. */
  lemma AddTagOldKeys(ix: TagIndex, t: string, p: Post)
    requires TagPosition(ix, t) >= 0
    ensures |AddTag(ix, t, p)| == |ix|
    ensures forall j :: 0 <= j < |ix| ==> AddTag(ix, t, p)[j].name == ix[j].name
    ensures Names(AddTag(ix, t, p)) == Names(ix)
  {
  }

  /** Growing an existing key `t` changes only the posts recorded under `t`. */
  lemma AddTagOldAt(ix: TagIndex, t: string, p: Post, u: string)
    requires TagPosition(ix, t) >= 0
    ensures PostsOf(AddTag(ix, t, p), u) == PostsOf(ix, u) + (if u == t then [p] else [])
  {
    AddTagOldKeys(ix, t, p);
    TagPositionByNames(AddTag(ix, t, p), ix, u);
  }

  /** Adding a post's tag list: the keys grow like `DedupAppend`, and each key gains the post
      once per occurrence. */
  lemma {:induction false} AddTagsEffect(ix: TagIndex, ts: seq<string>, p: Post)
    ensures Names(AddTags(ix, ts, p)) == DedupAppend(Names(ix), ts)
    ensures forall u :: PostsOf(AddTags(ix, ts, p), u) == PostsOf(ix, u) + Repeat(p, Count(ts, u))
  {
    if ts != [] {
      var init := ts[..|ts| - 1];
      var mid := AddTags(ix, init, p);
      AddTagsEffect(ix, init, p);
      AddTagEffect(mid, ts[|ts| - 1], p);
      forall u ensures PostsOf(AddTags(ix, ts, p), u) == PostsOf(ix, u) + Repeat(p, Count(ts, u)) {
        RepeatCountStep(p, ts, u);
      }
    }
  }

  lemma RepeatCountStep(p: Post, ts: seq<string>, u: string)
    requires ts != []
    ensures Repeat(p, Count(ts, u)) == Repeat(p, Count(ts[..|ts| - 1], u)) + (if u == ts[|ts| - 1] then [p] else [])
  {
  }

  /** The tag index of a location holds, for each key, exactly the reference members,
      and its keys are the distinct tags in order of first use. */
  lemma {:induction false} IndexPostsContents(ps: seq<Post>)
    ensures Names(IndexPosts(ps)) == Dedup(AllTags(ps))
    ensures forall u :: PostsOf(IndexPosts(ps), u) == Members(ps, u)
  {
    if ps != [] {
      var init := ps[..|ps| - 1];
      var p := ps[|ps| - 1];
      IndexPostsContents(init);
      AddTagsEffect(IndexPosts(init), p.tags, p);
      DedupAppendConcat([], AllTags(init), p.tags);
    }
  }

  /** With distinct keys, the entry at position `i` is what a lookup of its key finds. */
  lemma EntryIsLookup(ix: TagIndex, i: nat)
    requires i < |ix| && NoDup(Names(ix))
    ensures PostsOf(ix, ix[i].name) == ix[i].meta.posts
  {
    var k := TagPosition(ix, ix[i].name);
    assert Names(ix)[k] == Names(ix)[i];
  }

  /** Loading establishes the grouping invariant. */
  lemma IndexPostsGrouped(ps: seq<Post>)
    ensures Grouped(ps, IndexPosts(ps))
  {
    IndexPostsContents(ps);
    DedupContents(AllTags(ps));
    var ix := IndexPosts(ps);
    forall i | 0 <= i < |ix| ensures ix[i].meta.posts == Members(ps, ix[i].name) {
      EntryIsLookup(ix, i);
    }
  }

  /** Every tag in the union of all tag lists is a key, and nothing else is: a tag key exists
      exactly when some post carries it. */
  lemma {:induction false} AllTagsCarried(ps: seq<Post>, t: string)
    ensures t in AllTags(ps) <==> exists i :: 0 <= i < |ps| && t in ps[i].tags
  {
    if ps != [] {
      AllTagsCarried(ps[..|ps| - 1], t);
    }
  }

  /** A tag key exists in the loaded index exactly when some loaded post carries that tag. */
  lemma TagKeyIff(ps: seq<Post>, t: string)
    ensures t in Names(IndexPosts(ps)) <==> exists i :: 0 <= i < |ps| && t in ps[i].tags
  {
    IndexPostsContents(ps);
    DedupContents(AllTags(ps));
    AllTagsCarried(ps, t);
  }

  /** When no post lists a tag twice, a tag's members are exactly the posts carrying it. */
  lemma {:induction false} MembersAreCarrying(ps: seq<Post>, t: string)
    requires forall i :: 0 <= i < |ps| ==> Count(ps[i].tags, t) <= 1
    ensures Members(ps, t) == Carrying(ps, t)
  {
    if ps != [] {
      var p := ps[|ps| - 1];
      MembersAreCarrying(ps[..|ps| - 1], t);
      CountPositive(p.tags, t);
    }
  }

  /** A post without a `tags` header gets an empty tag list and joins no tag. */
  lemma UntaggedJoinsNothing(s: Settings, loc: string, f: SourceFile)
    requires f.doc.meta.tags.None?
    ensures LoadPost(s, loc, f).tags == []
    ensures forall ix: TagIndex :: AddTags(ix, LoadPost(s, loc, f).tags, LoadPost(s, loc, f)) == ix
  {
  }

  /** A file `<stem>.md` (no other ".md" in its name) is written to `<stem>.html` in the
      location's output directory and published at base URL + location + `<stem>.html`,
      with no separator inserted. */
  lemma PostLocation(s: Settings, loc: string, f: SourceFile, stem: string)
    requires Basename(f.path) == stem + ".md" && !HasMd(stem)
    ensures LoadPost(s, loc, f).outpath == Join(Join(s.dirOutput, loc), stem + ".html")
    ensures LoadPost(s, loc, f).url == s.baseUrl + loc + (stem + ".html")
  {
    var p := LoadPost(s, loc, f);
    assert p.outpath == Join(OutDir(s, loc), OutName(f.path)) && p.url == s.baseUrl + loc + OutName(f.path);
    OutNameOfStem(f.path, stem);
  }

  /** The output name of `<dir>/<stem>.md`. */
  lemma OutNameOfStem(path: string, stem: string)
    requires Basename(path) == stem + ".md" && !HasMd(stem)
    ensures OutName(path) == stem + ".html"
  {
    OutNameOfMdFile(stem);
  }

  /** No output name keeps a ".md": every occurrence is rewritten. */
  lemma OutNameHasNoMd(path: string)
    ensures !HasMd(OutName(path))
  {
    ReplaceMdComplete(Basename(path));
  }
}
