# Sticky-session routing for a socket.io proxy, in Dafny

This project models the routing core of a sticky-session proxy for socket.io
backends. The proxy sends every request of one socket.io session to the same
backend node. The core has three parts:

- **Health monitor** (`lib/manager.js`, module `Health`). It holds the
  configured nodes, each parsed from a `hostname:port` string and starting
  `DOWN`. A health probe that gets a response marks its node `UP`; a probe
  error marks it `DOWN`. `getRandomHost` picks the host of an `UP` node with
  `Math.floor(Math.random() * k)`, or answers null when no node is `UP`.
- **Binding repository** (`lib/binding-repository.js`, module `Bindings`,
  over the store commands in module `KeyValue`). It stores session id → host
  under the key `keyPrefix + sid` with a time-to-live of `keyExpiry` seconds,
  using `SET … EX`, `GET`, `DEL` and `EXPIRE`. A successful lookup renews the
  time-to-live (sliding expiry). A read error goes back to the caller. Errors
  of writes, deletes and renewals are swallowed.
- **Routing engine** (`lib/proxy.js`, modules `Routing` and `SidMarker`).
  - It validates the options and fills in the defaults.
  - It refuses any URL outside the configured path with a 400.
  - A request without a `sid` query key is first-contact: it goes to a live
    node and is tracked.
  - A request with a `sid` key is bound: it goes to the host the repository
    holds for that session.
  - After a tracked response, the first `"sid":"<token>"` in the body binds
    that token to the chosen node.
  - A forwarding error on a bound request deletes the session's binding.

Randomness, the clock and the store's failures are parameters of each
operation:
- The draw of `Math.random()` is a real `u` with `0 <= u < 1`.
- The time is `now`, an integer number of seconds.
- Whether the store reports an error is a boolean, or the error text for a
  read. A store command that fails is taken to have had no effect.

A probe completion is an event `(node index, responded)`. Forwarding is the
outcome `Forward("http://" + host)` (or `"ws://"` for upgrades), and a
refusal is `BadRequest`. `scenarios.dfy` states whole exchanges as verified
client code over the contracts: binding creation, an unknown session, failover
after a node dies, eager unbinding, and a URL outside the path.

Behaviours of the code the model keeps:
- The code marks a node `DOWN` only on a probe error. It passes
  `checkTimeout` as the request's `timeout` option, and in Node's http module
  that option only raises a `timeout` event; it does not raise `error`. So a
  timeout is not an event of the model.
- A stored value that is empty (falsy) is reported as "unknown binding", like
  a missing key.
- A live node whose host string is empty is drawn like any other, but `getHost` then answers "no node available", because the empty string is falsy.
- An empty `sid=` still takes the bound path. `onError` then deletes nothing,
  because the recorded session id is falsy.

## Model

| member | source | states |
|---|---|---|
| `Health.Split` | lib/manager.js:15 | `host.split(":")`: at least one field, and no field contains the separator |
| `Health.JoinSplit` | lib/manager.js:15 | Joining the fields of a split with the separator gives back the original string |
| `Health.SplitJoin` | lib/manager.js:15 | Splitting a join of separator-free fields gives back exactly those fields |
| `Health.ParseNode` | lib/manager.js:16-21 | The host string is kept verbatim, and the state is `DOWN`. The hostname is the longest `:`-free prefix. The port exists exactly when the host contains `:`; it is the `:`-free text after the first `:`, up to the next `:` or the end |
| `Health.ParseHosts` | lib/manager.js:14-22 | One node per configured host, in the same order, each with that host and state `DOWN` |
| `Health.AfterProbe` | lib/manager.js:39-52 | A completion for node i sets its state to `UP` on a response and `DOWN` on an error. Its host, hostname and port are unchanged, and every other node is unchanged |
| `Health.ProbeIdempotent` | lib/manager.js:39-52 | Repeating the same probe outcome for a node changes nothing further |
| `Health.ProbesCommute` | lib/manager.js:39-52 | Completions for two different nodes give the same table in either order |
| `Health.LastCompletionWins` | lib/manager.js:39-52 | After any sequence of completions, a node's state is the one set by its last completion, or its earlier state if it had none. Its address fields never change |
| `Health.AfterRound` | lib/manager.js:28-56 | After one probe round, each node's state comes from its own probe outcome |
| `Health.UpNodes` | lib/manager.js:59 | The filter holds only `UP` nodes of the table, one entry per `UP` node, in table order: the `UP` node at position j is entry number `CountUp(nodes[..j])`, the count of `UP` nodes before it |
| `Health.ScaledIndex` | lib/manager.js:61 | `Math.floor(u * k)` is an index in `[0, k)` for every draw `u` in `[0, 1)` |
| `Health.IndexInterval` | lib/manager.js:61 | Index j is chosen exactly by the draws in `[j/k, (j+1)/k)`. The k intervals have equal width, so a uniform draw picks each candidate with the same probability |
| `Health.PickHost` | lib/manager.js:58-63 | The result is null exactly when no node is `UP`. Otherwise it is the host of an `UP` node, never a `DOWN` one, namely the entry `floor(u * k)` of the filter of the k `UP` nodes |
| `Health.UniformPick` | lib/manager.js:59-61 | With k nodes `UP`, the `UP` node preceded by m `UP` nodes is picked by every draw in `[m/k, (m+1)/k)`, so each `UP` node gets a draw interval of width 1/k |
| `Health.OnlyLiveNode` | lib/manager.js:59-61 | With exactly one node `UP`, every draw returns that node's host |
| `Health.EveryLiveNodeReachable` | lib/manager.js:59-61 | For every `UP` node, some draw selects it |
| `Health.Manager.constructor` | lib/manager.js:11-22 | The node table is the parsed host list, all nodes `DOWN`. The interval and timeout are kept |
| `Health.Manager.OnProbe` | lib/manager.js:39-52 | The probe callbacks update node i in place: the new table is `AfterProbe` of the old one |
| `Health.Manager.HealthCheck` | lib/manager.js:28-56 | A round whose probes complete in table order leaves the table `AfterRound` of the old one |
| `Health.Manager.GetRandomHost` | lib/manager.js:58-63 | Changes no node. Answers null exactly when no node is `UP`, otherwise the host of an `UP` node, namely `PickHost` of the table |
| `KeyValue.Get` | lib/binding-repository.js:29 | GET answers a value exactly while the key is alive (present and not expired), and that value is the stored one |
| `KeyValue.SetEx` | lib/binding-repository.js:14-18 | SET … EX stores the value with expiry `now + ttl`, replacing any earlier entry. A non-positive ttl is refused and changes nothing. No other key changes |
| `KeyValue.Del` | lib/binding-repository.js:43 | DEL removes the key and no other |
| `KeyValue.Expire` | lib/binding-repository.js:52 | EXPIRE gives a live key the expiry `now + ttl` and keeps its value. A non-positive ttl deletes the key. A missing or expired key is left alone. No other key changes |
| `Bindings.Key` | lib/binding-repository.js:15 | The key is the prefix followed by the session id, and the session id can be read back from it |
| `Bindings.KeyInjective` | lib/binding-repository.js:15 | Under one prefix, distinct session ids give distinct keys |
| `Bindings.Lookup` | lib/binding-repository.js:29-36 | A read error is reported unchanged. Otherwise the lookup succeeds exactly when the key is alive with a non-empty value, and it answers that value; in every other case the answer is "unknown binding" |
| `Bindings.AfterLookup` | lib/binding-repository.js:29-38 | Only a successful lookup whose renewal succeeds changes the store. With a positive `keyExpiry` it renews that key's expiry to `now + keyExpiry` and keeps the value; with a non-positive one the renewal deletes the key. Other keys never change |
| `Bindings.CreateThenFind` | lib/binding-repository.js:14-36 | After `createBinding(sid, h)` with a positive expiry, a lookup before expiry answers `h`, whatever the key held before (the last writer wins) |
| `Bindings.DeleteThenFind` | lib/binding-repository.js:41-47 | After `deleteBinding(sid)`, a lookup answers "unknown binding" |
| `Bindings.UnknownIsNotRenewed` | lib/binding-repository.js:33-35 | A missing, expired or empty value gives "unknown binding" and renews nothing |
| `Bindings.ReadErrorIsReported` | lib/binding-repository.js:30-32 | A read error reaches the caller unchanged and renews nothing |
| `Bindings.LookupSeries` | lib/binding-repository.js:29-37 | Successive lookups of one key, each renewing on success, give one answer per lookup time, the first being the lookup in the starting store |
| `Bindings.SlidingExpiry` | lib/binding-repository.js:36-37 | Once a lookup finds host h, lookups that each follow the previous one within less than the time-to-live all find h |
| `Bindings.IdleBindingExpires` | lib/binding-repository.js:14-37 | A binding that nobody looks up for a whole time-to-live after its write or its last renewal answers "unknown binding" |
| `Bindings.OtherSessionsUnaffected` | lib/binding-repository.js:12-57 | Creating, deleting or looking up one session never changes the lookup answer for any other session |
| `Bindings.BindingRepository.constructor` | lib/binding-repository.js:4-8 | Keeps the key prefix, the expiry and the store it was given |
| `Bindings.BindingRepository.CreateBinding` | lib/binding-repository.js:12-25 | The store becomes `SetEx` of the old store on `keyPrefix + sid`. On a store error it is unchanged, and the error is not reported |
| `Bindings.BindingRepository.FindBinding` | lib/binding-repository.js:27-39 | Answers `Lookup` of the old store. The new store is `AfterLookup` of the old one, so only a success renews the expiry |
| `Bindings.BindingRepository.DeleteBinding` | lib/binding-repository.js:41-48 | The store becomes `Del` of the old store on `keyPrefix + sid`. On a store error it is unchanged, and the error is not reported |
| `Bindings.BindingRepository.DelayBindingExpiry` | lib/binding-repository.js:50-57 | The store becomes `Expire` of the old store with `keyExpiry`. On a store error it is unchanged, and the error is not reported |
| `SidMarker.RunLength` | lib/proxy.js:13 | The run of `[\w-]` characters at a position is maximal: all its characters are token characters, and the next one is not |
| `SidMarker.PatternIsUnique` | lib/proxy.js:13 | At a given position, `"sid":"([\w-]+)"` as the regular expression defines it matches with exactly one token length. The scan captures exactly that token |
| `SidMarker.CaptureIsToken` | lib/proxy.js:13 | A captured token is a non-empty run of `[A-Za-z0-9_-]` |
| `SidMarker.FirstMatch` | lib/proxy.js:119 | Gives the leftmost position where the pattern matches. It gives none exactly when no position matches |
| `SidMarker.ExtractSid` | lib/proxy.js:119-123 | Gives no token exactly when the pattern matches nowhere in the body. A token it gives is a valid `[\w-]+` token |
| `SidMarker.ExtractEmbedded` | lib/proxy.js:119-123 | Round trip: for a body that contains `"sid":"` + t + `"` with t a valid token, and no match starting earlier, the extracted token is t |
| `SidMarker.MarkerAtStart` | lib/proxy.js:119-123 | A body that begins with the marker of a valid token t yields t |
| `SidMarker.NoOpeningNoToken` | lib/proxy.js:119-123 | A body without the text `"sid":"` yields no token, so no binding is made |
| `Routing.Configure` | lib/proxy.js:17-32 | Construction fails with the store-client error when the client is missing, and otherwise with the hosts error when the host array is missing. It succeeds exactly when both are present, keeping them |
| `Routing.UnsetOptionsTakeDefaults` | lib/proxy.js:23-32 | Each option left unset, whatever the others are, takes its default: path `/socket.io/`, checkInterval 2000, checkTimeout 1000, keyPrefix `socket.io#`, keyExpiry 60 |
| `Routing.CallerOptionsOverride` | lib/proxy.js:23-32 | Every option the caller sets replaces its default |
| `Routing.Decide` | lib/proxy.js:59-153 | A URL outside the path is refused before anything else. On the path, presence of the `sid` key selects the lookup of exactly that value. Without it, no host or an empty (falsy) host string means "no node", and any other host means dispatch to that host |
| `Routing.FirstContactGoesToLiveNode` | lib/proxy.js:140-148 | A first-contact request on the path is dispatched to the host of an `UP` node. It is refused exactly when no node is `UP` or the drawn host string is empty; with non-empty host strings, exactly when no node is `UP` |
| `Routing.FailoverToSoleLiveNode` | lib/proxy.js:140-148 | While exactly one node is `UP`, every first-contact request on the path is dispatched to it, or refused for all draws if its host string is empty |
| `Routing.Proxy.constructor` | lib/proxy.js:36-37 | The monitor gets the parsed hosts, the interval and the timeout. The repository gets the key prefix, the expiry and the store |
| `Routing.Proxy.Create` | lib/proxy.js:16-37 | Fails with exactly `Configure`'s error. Otherwise it builds a fresh proxy from the completed options |
| `Routing.Proxy.GetHost` | lib/proxy.js:137-153 | Without `sid` and with no live host, or an empty host string: "no node available", and the request and store are untouched. Without `sid` and with a live host: answers that host, and sets PROXY_TRACK_ID and PROXY_TARGET to it. With `sid`: sets PROXY_SID to its value, leaves PROXY_TRACK_ID and PROXY_TARGET alone, and answers exactly what `findBinding` answers, with its renewal |
| `Routing.Proxy.OnRequest` | lib/proxy.js:59-77 | A bad path gives 400, touching nothing. A `getHost` error gives 400. Otherwise the request is forwarded to `"http://"` + exactly the host `getHost` chose, with the request marks and store effects of `GetHost` |
| `Routing.Proxy.OnUpgrade` | lib/proxy.js:79-109 | The same decisions as for a request, with forwarding to `"ws://"` + host |
| `Routing.Proxy.OnProxyRes` | lib/proxy.js:111-128 | An untracked request writes nothing. For a tracked one, the body is the concatenation of the chunks. A token found in it leads to exactly one `SetEx` binding it to PROXY_TARGET, or no change if that write fails. No token means no write |
| `Routing.Proxy.OnError` | lib/proxy.js:130-135 | A request with a non-empty PROXY_SID has its binding deleted (no change if the delete fails). Any other request deletes nothing |

## Left out

- The HTTP server, `listen`/`close` and the byte relaying of the proxy library (`web`/`ws`). Forwarding is the outcome `Forward(target)`.
- The exact bytes of the 400 answer on an upgrade socket. It is the outcome `BadRequest`.
- The decoding of response chunks into text. The chunks are strings, and the body is their concatenation.
- The HEAD probe requests, their `checkTimeout`, the first `healthCheck()` in the constructor and the `setInterval` schedule. These are network I/O and timers, so each probe completion is an input event, and `HealthCheck` covers one round completing in table order.
- Concurrency between overlapping probe rounds and between requests. Events are applied one at a time. `LastCompletionWins` and `ProbesCommute` cover any interleaving of completions.
- Floating point. `Math.random()` is a real in `[0, 1)`, and `Math.floor(u * k)` is computed exactly, without IEEE rounding.
- `url.parse`. The query is given as a map beside the URL, and a repeated `sid` key (which parses to an array) is not modelled.
- The store's network client and its asynchronous replies. A failed command is taken to have had no effect, and a reply's delay is not modelled.
- Option values that JavaScript would also accept: an own property explicitly set to `undefined` (which overrides a default with `undefined`), non-string hosts, non-integer expiries and options beyond the seven modelled ones.
- `debug` logging.
- test/index.js. Its end-to-end tests need live socket.io servers and a store. Comparable exchanges are stated in scenarios.dfy.
