/**
 * The request headers object that both API slices' `prepareHeaders` callbacks
 * receive and update in place, and the bearer-token rule they share.
 */
module Http {
  import opened AuthTypes

  const AuthorizationHeader: string := "Authorization"

  /** JavaScript truthiness of a token: `null` and "" are falsy. */
  predicate Truthy(token: Option<string>) {
    token.Some? && token.value != ""
  }

  /** The header value `Bearer ${token}`. */
  function Bearer(token: string): (v: string)
    ensures |v| == |token| + 7 && v[7..] == token
  {
    "Bearer " + token
  }

  /** A mutable set of request headers. */
  class Headers {
    var entries: map<string, string>

    constructor (initial: map<string, string>)
      ensures entries == initial
    {
      entries := initial;
    }

    /** `headers.set(name, value)`: adds or replaces one header. */
    method Set(name: string, value: string)
      modifies this
      ensures entries == old(entries)[name := value]
    {
      entries := entries[name := value];
    }
  }
}
