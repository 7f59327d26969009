/** The HTTP and process surroundings of the events pipeline, as values:
    environment variables, outgoing requests, replies, and the settlement of
    an `async` function (it resolves to a value or rejects with an Error). */
module Http {
  import opened Wrappers

  /** Environment variables; a name not in the map is `undefined`. */
  type Env = map<string, string>

  /** `process.env[name]`, where `undefined` and `''` are both falsy and
      both read here as the empty string. */
  function EnvValue(env: Env, name: string): string {
    if name in env then env[name] else ""
  }

  /** JavaScript's `a || b` on strings. */
  function Or(a: string, b: string): string {
    if a != "" then a else b
  }

  type Pairs = seq<(string, string)>

  /** `URLSearchParams.get`: the value of the first pair with that key. */
  function Lookup(pairs: Pairs, key: string): Option<string> {
    if pairs == [] then None
    else if pairs[0].0 == key then Some(pairs[0].1)
    else Lookup(pairs[1..], key)
  }

  /** One outgoing GET: the absolute URL without its query, the query
      parameters in order, and the headers. */
  datatype Request = Request(url: string, query: Pairs, headers: Pairs)

  /** What `response.json()` gives: a decoded value, or a rejection. */
  datatype Json<T> = Parsed(value: T) | Unparsable(message: string)

  /** A reply that reached the client: status line, the body as text
      (`response.text()`) and the body as JSON (`response.json()`). */
  datatype Reply<T> = Reply(status: nat, statusText: string, bodyText: string, json: Json<T>)

  /** What `await fetch(...)` gives: a reply, or a rejection (DNS failure,
      refused or reset connection). */
  datatype FetchOutcome<T> = Delivered(reply: Reply<T>) | NetworkError(message: string)

  /** `response.ok`. */
  predicate IsOk(status: nat) {
    200 <= status <= 299
  }

  /** The reply is 2xx and its body decodes as JSON. */
  predicate DeliversJson<T>(outcome: FetchOutcome<T>) {
    outcome.Delivered? && IsOk(outcome.reply.status) && outcome.reply.json.Parsed?
  }

  /** How an `async` function settles: it returns a value, or it throws an
      Error whose `message` is given. */
  datatype Settled<T> = Resolved(value: T) | Rejected(message: string)

  /** The result of an operation together with the requests it sent, in
      the order it sent them. */
  datatype Call<T> = Call(result: T, requests: seq<Request>)
}
