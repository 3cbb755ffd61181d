/** The configuration record that the plugin reads through `getConfig()`, and the
    few JavaScript value conversions the resource builders rely on. Every entry
    may be unset when the corresponding environment variable is missing. */
module Settings {
  import opened Wrappers

  datatype Config = Config(
    keycloakUrl: Option<string>,
    keycloakRealm: Option<string>,
    keycloakClientSecret: Option<string>,
    grafanaUrl: Option<string>,
    grafanaHost: Option<string>,
    mimirUrl: Option<string>,
    httpProxy: Option<string>,
    httpsProxy: Option<string>,
    noProxy: Option<string>)

  /** A value placed in a template literal: an unset value prints as "undefined". */
  function Interp(v: Option<string>): string {
    match v
    case Some(s) => s
    case None => "undefined"
  }

  /** JavaScript truthiness of a possibly unset string: set and non-empty. */
  predicate Truthy(v: Option<string>) {
    v.Some? && v.value != ""
  }

  /** `s.replace(/\/$/, '')`: the regular expression matches one slash at the very end. */
  function StripTrailingSlash(s: string): (r: string)
    ensures r == s || r + "/" == s
    ensures |r| + 1 >= |s|
  {
    if |s| > 0 && s[|s| - 1] == '/' then s[..|s| - 1] else s
  }

  /** Only one slash goes: a URL given with a trailing slash loses exactly that slash. */
  lemma StripTrailingSlashRemovesOne(s: string)
    ensures StripTrailingSlash(s + "/") == s
  {
    assert (s + "/")[..|s|] == s;
  }

  /** A URL without a trailing slash is left as it is. */
  lemma StripTrailingSlashKeepsBare(s: string)
    requires s == [] || s[|s| - 1] != '/'
    ensures StripTrailingSlash(s) == s
  {
  }

  /** `keycloakUrl?.replace(...)` inside a template literal. */
  function StrippedUrl(url: Option<string>): string {
    match url
    case Some(u) => StripTrailingSlash(u)
    case None => "undefined"
  }
}
