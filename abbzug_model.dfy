/** The entities of the build in abbzug/ssgsite.py: posts, the per-location
    tag index, render environments, the site settings, and the environment
    the build runs in (glob results, templates, rendering, slugs). */
module AbbzugModel {
  import opened Wrappers
  import opened Paths
  import opened SiteConfig
  import opened FileSystem

  /** A loaded post: the parsed header, the body, and the fields the loader derives. */
  datatype Post = Post(
    meta: Metadata,
    body: string,
    inpath: string,
    outpath: string,
    url: string,
    readingtime: nat,
    tags: seq<string>)

  /** The fields `_build_tags` adds to a tag's metadata. */
  datatype TagPage = TagPage(tag: string, slug: string, url: string, outfile: string)

  /** A tag's metadata: its posts and, once tag pages are built, its page fields. */
  datatype TagMeta = TagMeta(posts: seq<Post>, page: Option<TagPage>)

  datatype TagEntry = TagEntry(name: string, meta: TagMeta)

  /** One location's tag dictionary, in key-insertion order. */
  type TagIndex = seq<TagEntry>

  /** The kinds of value a template is rendered with. */
  datatype EnvValue =
    | Text(s: string)
    | SectionConf(conf: KeyValues)
    | WholeConfig(cfg: Config)
    | PostMeta(post: Post)
    | PostList(posts: seq<Post>)
    | SiteCache(cache: map<string, seq<Post>>)
    | Tags(index: TagIndex)
    | SiteTags(tags: map<string, TagIndex>)
    | TagInfo(meta: TagMeta)

  type Env = map<string, EnvValue>

  /** What the build cannot see: the glob results per pattern, the template names the
      loader can resolve, the template engine and `slugify`. */
  datatype World = World(
    glob: map<string, seq<SourceFile>>,
    templates: set<string>,
    render: (string, Env) -> string,
    slugify: string -> string)

  /** The directories and base URL fixed at construction, and the site section itself. */
  datatype Settings = Settings(
    dirPosts: string,
    dirTemplates: string,
    dirOutput: string,
    dirStatic: string,
    baseUrl: string,
    site: KeyValues)

  /** What the render pass reads: the content cache and the tag index per location. */
  datatype Loaded = Loaded(cache: map<string, seq<Post>>, tags: map<string, TagIndex>)

  /** The content cache, the tag index per location, and everything done to the disk so far. */
  datatype State = State(cache: map<string, seq<Post>>, tags: map<string, TagIndex>, log: seq<Effect>)

  /** The `ValueError`s a section can raise. */
  datatype BuildError = NoIndexTemplate(location: string) | NoPostTemplate(location: string)

  const NotAbbzugConfig := "site.conf is not a valid ABBZUG config file. Needs ABBZUG section."

  /** `load_config`: a configuration without the reserved section is refused. */
  function LoadConfig(cfg: Config): (r: Outcome<string>)
    ensures r.Pass? <==> exists i :: 0 <= i < |cfg| && cfg[i].name == SiteSectionName
    ensures r.Fail? ==> r.error == NotAbbzugConfig
  {
    if FindSection(cfg, SiteSectionName).Some? then Pass else Fail(NotAbbzugConfig)
  }

  /** `Site.__init__` without the template engine: the directories under `contentdir`
      and the base URL, each read from the site section with its default. */
  function Configure(contentdir: string, cfg: Config): (r: Result<Settings, string>)
    ensures r.Failure? <==> LoadConfig(cfg).Fail?
    ensures r.Failure? ==> r.error == NotAbbzugConfig
  {
    match FindSection(cfg, SiteSectionName)
    case None => Failure(NotAbbzugConfig)
    case Some(site) =>
      Success(Settings(
        dirPosts := Join(contentdir, GetOr(site, "post_dir", "posts/")),
        dirTemplates := Join(contentdir, GetOr(site, "template_dir", "templates/")),
        dirOutput := Join(contentdir, GetOr(site, "output_dir", "output/")),
        dirStatic := Join(contentdir, GetOr(site, "static_dir", "static/")),
        baseUrl := GetOr(site, "base_url", "/"),
        site := site))
  }

  /** A site section that sets none of the keys gets the default directories and base URL. */
  lemma ConfigureDefaults(contentdir: string, cfg: Config)
    requires FindSection(cfg, SiteSectionName).Some?
    requires var site := FindSection(cfg, SiteSectionName).value;
      "post_dir" !in site && "template_dir" !in site && "output_dir" !in site &&
      "static_dir" !in site && "base_url" !in site
    ensures Configure(contentdir, cfg).Success?
    ensures var s := Configure(contentdir, cfg).value;
      s.dirPosts == Join(contentdir, "posts/") && s.dirTemplates == Join(contentdir, "templates/") &&
      s.dirOutput == Join(contentdir, "output/") && s.dirStatic == Join(contentdir, "static/") &&
      s.baseUrl == "/"
  {
  }

  /** A key that is present but empty overrides the default: `get` only falls back on absence. */
  lemma ConfigureEmptyOverrides(contentdir: string, cfg: Config)
    requires FindSection(cfg, SiteSectionName).Some?
    requires FindSection(cfg, SiteSectionName).value.Keys >= {"output_dir", "base_url"}
    requires FindSection(cfg, SiteSectionName).value["output_dir"] == ""
    requires FindSection(cfg, SiteSectionName).value["base_url"] == ""
    ensures Configure(contentdir, cfg).Success?
    ensures Configure(contentdir, cfg).value.dirOutput == Join(contentdir, "")
    ensures Configure(contentdir, cfg).value.baseUrl == ""
  {
  }
}
