/** Convenience constructors for cache-control annotations (cache.go). */
module Cache {
  import opened Wrappers
  import opened Request

  const Ephemeral := "ephemeral"

  /** No caching hint: a nil annotation. */
  function UseNoCache(): (c: Option<CacheControl>)
    ensures c.None?
  {
    None
  }

  /** The one supported caching hint. */
  function UseCacheEphemeral(): (c: Option<CacheControl>)
    ensures c.Some? && c.value.kind == Ephemeral
  {
    Some(CacheControl(Ephemeral))
  }

  /** A system-prompt segment without a caching hint. */
  function UseSystemNoCache(text: string): (s: SystemText)
    ensures s.kind == TextType && s.text == text && s.cacheControl.None?
  {
    SystemText(TextType, text, None)
  }

  /** A system-prompt segment that asks for ephemeral caching. */
  function UseSystemCacheEphemeral(text: string): (s: SystemText)
    ensures s.kind == TextType && s.text == text
    ensures s.cacheControl == UseCacheEphemeral()
  {
    SystemText(TextType, text, UseCacheEphemeral())
  }

  /** The two system constructors agree on everything but the annotation. */
  lemma SystemConstructorsDifferOnlyInCache(text: string)
    ensures UseSystemCacheEphemeral(text) == UseSystemNoCache(text).(cacheControl := UseCacheEphemeral())
    ensures UseSystemCacheEphemeral(text) != UseSystemNoCache(text)
  {
  }
}
