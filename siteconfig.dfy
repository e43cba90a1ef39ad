/** The parsed site configuration: an ordered list of named sections, each a
    key/value mapping, as `configparser` yields it. */
module SiteConfig {
  import opened Wrappers

  type KeyValues = map<string, string>

  datatype Section = Section(name: string, keys: KeyValues)

  type Config = seq<Section>

  /** The reserved section holding the site-wide settings. */
  const SiteSectionName := "ABBZUG"

  /** `config[name]`: the first section of that name. */
  function FindSection(cfg: Config, name: string): (r: Option<KeyValues>)
    ensures r.None? <==> forall i :: 0 <= i < |cfg| ==> cfg[i].name != name
    ensures r.Some? ==> exists i :: 0 <= i < |cfg| && cfg[i] == Section(name, r.value)
  {
    if cfg == [] then None
    else if cfg[0].name == name then Some(cfg[0].keys)
    else
      var r := FindSection(cfg[1..], name);
      assert forall i :: 0 < i < |cfg| ==> cfg[i] == cfg[1..][i - 1];
      r
  }

  /** `conf.get(key, default)`: a key that is present wins even when its value is empty. */
  function GetOr(conf: KeyValues, key: string, default: string): string
  {
    if key in conf then conf[key] else default
  }

  /** Python truthiness of `conf.get(key, None)`: present and not the empty string. */
  predicate IsSet(conf: KeyValues, key: string)
  {
    key in conf && conf[key] != ""
  }

  /** `section[:1] == '/'`: the section describes a site location. */
  predicate IsLocation(name: string)
  {
    |name| > 0 && name[0] == '/'
  }

  /** `section[1:]`: the location a section describes (empty for the root "/"). */
  function LocationOf(name: string): (loc: string)
    requires IsLocation(name)
    ensures "/" + loc == name
  {
    name[1..]
  }
}
