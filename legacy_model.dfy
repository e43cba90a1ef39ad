/** The entities of the older build in ssgsite.py: the site settings, the render
    environments, and the per-location cache of parsed content files keyed by
    file name. */
module LegacyModel {
  import opened Wrappers
  import opened Sequences
  import opened Paths
  import opened SiteConfig
  import opened FileSystem

  /** The kinds of value a template is rendered with. */
  datatype EnvValue =
    | Text(s: string)
    | SectionConf(conf: KeyValues)
    | WholeConfig(cfg: Config)
    | PostMeta(meta: Metadata)
    | PostDocs(docs: seq<Document>)

  type Env = map<string, EnvValue>

  /** What the build cannot see: the glob results per pattern, the template names the
      loader can resolve, and the template engine. */
  datatype World = World(
    glob: map<string, seq<SourceFile>>,
    templates: set<string>,
    render: (string, Env) -> string)

  /** The directories fixed at construction, and the site section itself. */
  datatype Settings = Settings(
    dirContent: string,
    dirTemplates: string,
    dirOutput: string,
    dirStatic: string,
    site: KeyValues)

  /** The content cache per location, and everything done to the disk so far. */
  datatype State = State(cache: map<string, seq<CacheEntry>>, log: seq<Effect>)

  /** The one `ValueError` a section can raise. */
  datatype BuildError = NoTemplate(location: string)

  const NotSiteConfig := "site.conf is not a valid ABBZUG config file. Needs ABBZUG section."

  /** `Site.__init__` with `load_config`: a configuration without the reserved section is
      refused; otherwise the four directories are read from it, each with its default name,
      and joined to `contentdir`. */
  function Configure(contentdir: string, cfg: Config): (r: Result<Settings, string>)
    ensures r.Failure? <==> forall i :: 0 <= i < |cfg| ==> cfg[i].name != SiteSectionName
    ensures r.Failure? ==> r.error == NotSiteConfig
    ensures r.Success? ==> FindSection(cfg, SiteSectionName) == Some(r.value.site)
  {
    match FindSection(cfg, SiteSectionName)
    case None => Failure(NotSiteConfig)
    case Some(site) =>
      Success(Settings(
        dirContent := Join(contentdir, GetOr(site, "content", "content")),
        dirTemplates := Join(contentdir, GetOr(site, "templates", "templates")),
        dirOutput := Join(contentdir, GetOr(site, "output", "output")),
        dirStatic := Join(contentdir, GetOr(site, "static", "static")),
        site := site))
  }

  /** A site section that sets none of the directory keys gets directories of the same names. */
  lemma ConfigureDefaults(contentdir: string, cfg: Config)
    requires FindSection(cfg, SiteSectionName).Some?
    requires var site := FindSection(cfg, SiteSectionName).value;
      "content" !in site && "templates" !in site && "output" !in site && "static" !in site
    ensures Configure(contentdir, cfg).Success?
    ensures var s := Configure(contentdir, cfg).value;
      s.dirContent == Join(contentdir, "content") && s.dirTemplates == Join(contentdir, "templates") &&
      s.dirOutput == Join(contentdir, "output") && s.dirStatic == Join(contentdir, "static")
  {
  }

  // ---------------------------------------------------------------- the content cache

  /** One entry of `self.cache[location]`: a file name and the document last loaded under it. */
  datatype CacheEntry = CacheEntry(name: string, doc: Document)

  /** One location's cache dictionary, in key-insertion order. */
  type PostCache = seq<CacheEntry>

  /** The keys of a cache, in order. */
  function Keys(c: PostCache): (r: seq<string>)
    ensures |r| == |c| && forall i :: 0 <= i < |c| ==> r[i] == c[i].name
  {
    if c == [] then [] else [c[0].name] + Keys(c[1..])
  }

  /** The position of `n` in `ks`, or -1 when it is absent. */
  function IndexOf(ks: seq<string>, n: string): (k: int)
    ensures -1 <= k < |ks|
    ensures k == -1 <==> n !in ks
    ensures k >= 0 ==> ks[k] == n && forall j :: 0 <= j < k ==> ks[j] != n
  {
    if ks == [] then -1
    else if ks[0] == n then 0
    else
      var k := IndexOf(ks[1..], n);
      if k == -1 then -1 else k + 1
  }

  /** `cache.get(n)`. */
  function Find(c: PostCache, n: string): Option<Document>
  {
    var k := IndexOf(Keys(c), n);
    if k < 0 then None else Some(c[k].doc)
  }

  /** `cache[n] = d`: an existing key keeps its position and takes the new value, a new key
      goes last. */
  function PutEntry(c: PostCache, n: string, d: Document): PostCache
  {
    var k := IndexOf(Keys(c), n);
    if k < 0 then c + [CacheEntry(n, d)] else c[k := CacheEntry(n, d)]
  }

  /** The loop of `_preload_section`: every enumerated file stored under its base name, in
      enumeration order. */
  function LoadCache(files: seq<SourceFile>): PostCache
  {
    if files == [] then []
    else
      var f := files[|files| - 1];
      PutEntry(LoadCache(files[..|files| - 1]), Basename(f.path), f.doc)
  }

  /** The base names of the enumerated files, in order. */
  function Basenames(files: seq<SourceFile>): (r: seq<string>)
    ensures |r| == |files| && forall i :: 0 <= i < |files| ==> r[i] == Basename(files[i].path)
  {
    seq(|files|, i requires 0 <= i < |files| => Basename(files[i].path))
  }

  // ---------------------------------------------------------------- lemmas

  /** Storing under `n` adds `n` to the keys if it was new and keeps their order otherwise. */
  lemma PutEntryKeys(c: PostCache, n: string, d: Document)
    ensures Keys(PutEntry(c, n, d)) == if n in Keys(c) then Keys(c) else Keys(c) + [n]
  {
    var k := IndexOf(Keys(c), n);
    var r := PutEntry(c, n, d);
    if k < 0 {
      assert Keys(r) == Keys(c) + [n];
    } else {
      assert Keys(r) == Keys(c);
    }
  }

  /** After storing under `n`, `n` finds `d` and every other key finds what it found before. */
  lemma PutEntryFind(c: PostCache, n: string, d: Document, u: string)
    ensures Find(PutEntry(c, n, d), u) == if u == n then Some(d) else Find(c, u)
  {
    PutEntryKeys(c, n, d);
    if IndexOf(Keys(c), n) < 0 && u != n {
      PutNewOther(c, n, d, u);
    }
  }

  /** A key other than a newly appended one is found where it was. */
  lemma PutNewOther(c: PostCache, n: string, d: Document, u: string)
    requires n !in Keys(c) && u != n
    ensures Find(c + [CacheEntry(n, d)], u) == Find(c, u)
  {
    var r := c + [CacheEntry(n, d)];
    assert Keys(r) == Keys(c) + [n];
    IndexOfAppend(Keys(c), n, u);
    var k := IndexOf(Keys(c), u);
    if k >= 0 {
      assert r[k] == c[k];
    }
  }

  /** Appending a different key does not move `u`. */
  lemma IndexOfAppend(ks: seq<string>, n: string, u: string)
    requires u != n
    ensures IndexOf(ks + [n], u) == IndexOf(ks, u)
  {
    var k, k' := IndexOf(ks + [n], u), IndexOf(ks, u);
    if k' >= 0 {
      assert (ks + [n])[k'] == u;
      assert forall j :: 0 <= j < k' ==> (ks + [n])[j] == ks[j];
    } else {
      assert u !in ks + [n];
    }
  }

  /** The cache of a location has one key per distinct base name, in order of first
      enumeration. */
  lemma {:induction false} LoadCacheKeys(files: seq<SourceFile>)
    ensures Keys(LoadCache(files)) == Dedup(Basenames(files))
  {
    if files != [] {
      var init := files[..|files| - 1];
      var f := files[|files| - 1];
      LoadCacheKeys(init);
      PutEntryKeys(LoadCache(init), Basename(f.path), f.doc);
      BasenamesSnoc(files);
    }
  }

  /** Deduplicating the base names of one more file. */
  lemma BasenamesSnoc(files: seq<SourceFile>)
    requires files != []
    ensures var n, d := Basename(files[|files| - 1].path), Dedup(Basenames(files[..|files| - 1]));
      Dedup(Basenames(files)) == if n in d then d else d + [n]
  {
    var bs := Basenames(files);
    assert bs[..|bs| - 1] == Basenames(files[..|files| - 1]);
  }

  /** Files with the same base name collapse into one entry: the keys are distinct and are
      exactly the base names enumerated. */
  lemma LoadCacheDistinct(files: seq<SourceFile>)
    ensures NoDup(Keys(LoadCache(files)))
    ensures forall n :: n in Keys(LoadCache(files)) <==> n in Basenames(files)
  {
    LoadCacheKeys(files);
    DedupContents(Basenames(files));
  }

  /** A file name maps to the document of the last enumerated file with that base name. */
  lemma {:induction false} LoadCacheLastWins(files: seq<SourceFile>, k: nat)
    requires k < |files|
    requires forall j :: k < j < |files| ==> Basename(files[j].path) != Basename(files[k].path)
    ensures Find(LoadCache(files), Basename(files[k].path)) == Some(files[k].doc)
  {
    var init := files[..|files| - 1];
    var f := files[|files| - 1];
    PutEntryFind(LoadCache(init), Basename(f.path), f.doc, Basename(files[k].path));
    if k < |files| - 1 {
      LoadCacheLastWins(init, k);
    }
  }
}
