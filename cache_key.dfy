/** Composite keys under which loaded assets are cached (src/utils.js, cacheKey). */
module CacheKeys {
  import opened Wrappers

  /** JavaScript truthiness of the optional `name`: absent or empty means none. */
  predicate HasName(name: Option<string>)
  {
    name.Some? && name.value != ""
  }

  /** The name as it appears in the key, or "" when it is left out. */
  function NameText(name: Option<string>): string
  {
    if HasName(name) then name.value else ""
  }

  /** `key + '_' + type`, followed by `'_' + name` only when a name is given.
      The contract gives the layout of the result field by field. */
  function CacheKey(key: string, kind: string, name: Option<string>): (r: string)
    ensures |r| == |key| + 1 + |kind| + (if HasName(name) then 1 + |name.value| else 0)
    ensures r[..|key|] == key && r[|key|] == '_'
    ensures r[|key| + 1..|key| + 1 + |kind|] == kind
    ensures HasName(name) ==> r[|key| + 1 + |kind|] == '_' && r[|key| + 2 + |kind|..] == name.value
  {
    key + "_" + kind + (if HasName(name) then "_" + name.value else "")
  }

  /** For a fixed key and type the name is recoverable from the cache key:
      two names give the same key only if they print the same. */
  lemma NameRecoverable(key: string, kind: string, n1: Option<string>, n2: Option<string>)
    requires CacheKey(key, kind, n1) == CacheKey(key, kind, n2)
    ensures NameText(n1) == NameText(n2)
  {
  }

  /** The fields are not recoverable from the key alone: an underscore inside
      the key collides with the separator. */
  lemma SeparatorAmbiguity()
    ensures CacheKey("a_b", "c", None) == CacheKey("a", "b", Some("c"))
  {
  }
}
