/**
 * What the client hands to, and receives from, the HTTP library: the request a
 * resource operation issues, the outcome of performing it, and the client
 * configuration (base URI and default headers).
 */
module Http {
  import opened OrderedMap
  import opened PhpValue
  import opened Errors

  /** A request as issued: verb, URI, and the query (already url-encoded) or JSON body. */
  datatype Request =
    | HttpGet(uri: string, query: OMap<Key, string>)
    | HttpPost(uri: string, body: OMap<Key, Value>)
    | HttpPut(uri: string, body: OMap<Key, Value>)
    | HttpDelete(uri: string)

  /** Performing a request either yields a status and a body, or throws. */
  datatype Transport =
    | Responded(status: int, body: string)
    | Threw(e: Throwable)

  /** The options the HTTP library is constructed with. */
  datatype Config = Config(baseUri: string, headers: OMap<string, string>)

  /** The headers sent with every request: the API key and a JSON content type. */
  function DefaultHeaders(apiKey: string): OMap<string, string>
  {
    [("X-Redmine-API-Key", apiKey), ("Content-Type", "application/json")]
  }
}
