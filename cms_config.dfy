/**
 * The CMS configuration the providers are chosen by: which backend, its base URL and its key
 * (src/services/cms/index.ts keeps the current one; the type comes from the provider module).
 */
module CmsConfig {
  import opened Wrappers

  /** `CMSProviderType`. */
  datatype ProviderName = Mock | WordPress | Strapi | Django | Custom

  /** The provider's name as the code spells it. */
  function NameText(p: ProviderName): (r: string)
    ensures r != ""
  {
    match p
    case Mock => "mock"
    case WordPress => "wordpress"
    case Strapi => "strapi"
    case Django => "django"
    case Custom => "custom"
  }

  /** `CMSConfig`: the provider, and the optional base URL and API key. */
  datatype Config = Config(provider: ProviderName, baseUrl: Option<string>, apiKey: Option<string>)

  /** Whether `config.baseUrl` is truthy. */
  predicate HasBaseUrl(c: Config) {
    c.baseUrl.Some? && c.baseUrl.value != ""
  }

  /** `config.apiKey || ''`: the key as the providers use it, `""` meaning none. */
  function Token(c: Config): string {
    if c.apiKey.Some? then c.apiKey.value else ""
  }
}
