# A verified model of the ai00 server's start-up, model-management and embedding handlers

The ai00 server puts an HTTP front on one model worker. Handlers turn requests
into commands on an unbounded queue. A single worker drains that queue. This
project models three sequential parts of that front end in Dafny and proves
what they promise:

- **Start-up** (`src/salvo_main.rs`). The bind address, the optional second
  IPv6 address, the port, the domain and the ACME and TLS flags are resolved
  from the command line and the optional `listen` configuration. The model
  also covers the listeners each branch joins, which plugin archives are
  loaded and under which name, and the route table with its aliases
  (modules `Listen`, `Plugins`, `Routes`).
- **Model management** (`crates/ai00-server/src/api/model.rs`). `load`,
  `load_state` and `save` pass every path through the sandbox `build_path`.
  A refused path gives 404 and nothing goes on the queue. Otherwise exactly
  one command is sent, with a fresh reply channel, and the worker's boolean
  reply becomes 200 or 500. `unload` sends `Unload`. `info` and the SSE
  `state` stream project the state registry to `(id, name)` pairs (module
  `ModelApi`, class `ThreadState`). The queue is the class `CommandQueue` in
  `Protocol`. It is an append-only `seq<Command>`, plus a count of the
  channels created so far. Its invariant says that no two queued commands
  share a reply channel.
- **Embeddings** (`src/api/oai/embedding.rs`). The handler first queues a
  `QueryInfo` for the runtime snapshot. The embedding request then becomes
  a one-token embedding generation. The handler's loop reads the token stream
  up to the first `Embed` event and keeps the counter of the last `Stop`
  before it. The response has a fixed OpenAI shape (module `Embedding`).

`build_path`, the address parsers, `load_plugin` and the worker's replies are
not part of this model. They enter as parameters: function values, or the
boolean or token sequence the worker answers with. `Token` streams are finite
sequences. `f32` values are carried as `bv32` bit patterns, and nothing
computes with them.

In the ACME branch, the second listener on the IPv6 address is a plain
`TcpListener` with neither ACME nor TLS. The log line for it still says "with
acme and tls" (src/salvo_main.rs:190-195). The model keeps the code's
behaviour and states it in `Listen.AcmeIpv6ListenerIsPlain`.

File names follow Rust's `Path::file_stem` and `Path::extension`. A name is
split at its last dot. A name whose only dot is its first character, and the
name `..`, have no extension. So `.zip` is not a plugin, and `a.b.zip` is the
plugin `a.b`.

## Model

| member | source | states |
|---|---|---|
| `Listen.ParsedOr` | src/salvo_main.rs:141-151 | a configured address that parses is used; one that is absent or does not parse becomes the unspecified address |
| `Listen.BindAddresses` | src/salvo_main.rs:138-155 | a CLI IP is the bind address and no IPv6 is bound; otherwise, with a listen config, IPv4 is the parsed `ip` or 0.0.0.0, and IPv6 is present exactly when `ipv6` is configured (`::` when unparsable); with neither, 0.0.0.0 and no IPv6; a second IPv6 address only ever comes from the config |
| `Listen.BindPort` | src/salvo_main.rs:157-163 | the CLI port is used when it is > 0 and ≠ 65530, otherwise the configured port, otherwise 65530; the port is 0 only when the config says 0 |
| `Listen.ResolveSecurity` | src/salvo_main.rs:165-180 | without a config: domain `local`, no ACME, no TLS; the domain defaults to `local`; ACME is on exactly when the domain is not `local` and the config enables it; TLS is on exactly when ACME is or the config enables it |
| `Listen.AcmeImpliesTls` | src/salvo_main.rs:168-175 | ACME implies TLS and a domain other than `local` |
| `Listen.ChooseBranch` | src/salvo_main.rs:184-243 | the ACME branch runs exactly when ACME is on, the TLS branch exactly when ACME is off and TLS on, plain TCP otherwise |
| `Listen.Listeners` | src/salvo_main.rs:182-243 | every listener uses the bind port and either the main address or the IPv6 one; there is always a TCP listener on the main address; an IPv6 listener exists exactly when an IPv6 address is bound; in the ACME branch, the main-address listeners use ACME with the domain and the `assets/certs` cache; in the TLS branch, every listener uses rustls with the fixed cert and key paths; in the plain branch, every listener is plain TCP |
| `Listen.ServerListeners` | src/salvo_main.rs:138-243 | the start-up plan binds only the resolved port, and without a listen config it is one plain TCP listener on the resolved address |
| `Listen.AcmeIpv6ListenerIsPlain` | src/salvo_main.rs:190-195 | in the ACME branch, the IPv6 listener is plain TCP, without ACME or TLS |
| `Plugins.LastDot` | src/salvo_main.rs:70-71 | the position of the last dot, or none when the name has no dot |
| `Plugins.SplitAtDot` | src/salvo_main.rs:70-71 | the name has a before part exactly when it contains a dot; it splits into before and after exactly when it is not `..` and has a dot after its first character, and then it is `before.after`, `before` is non-empty and `after` has no dot; otherwise the whole name is the single part |
| `Plugins.Extension` | src/salvo_main.rs:70 | there is no extension exactly when the name is `..` or has no dot after its first character; an extension is the dot-free text after the name's last dot |
| `Plugins.FileStem` | src/salvo_main.rs:71 | a name with an extension is its stem, a dot and the extension; a name without one is its own stem |
| `Plugins.ZipExtension` | src/salvo_main.rs:70-71 | a name has extension `zip` exactly when it is at least one character followed by `.zip`, and then its stem is the text before `.zip` |
| `Plugins.IsPlugin` | src/salvo_main.rs:69-71 | an entry passes the three filters exactly when it is a regular file named by a non-empty stem other than `api` followed by `.zip` |
| `Plugins.Filter` | src/salvo_main.rs:67-71 | the readable entries a predicate accepts, in listing order: never more than the listing, and every kept entry is accepted |
| `Plugins.SelectPlugins` | src/salvo_main.rs:67-71 | the selected entries are no more than the listing and every one passes the three filters |
| `Plugins.FilterExactly` | src/salvo_main.rs:67-71 | the filter chain keeps an entry exactly when it was readable and every filter accepts it |
| `Plugins.SelectedExactly` | src/salvo_main.rs:66-71 | an entry is selected exactly when it was readable, is a regular file, has extension `zip` and a stem other than `api` |
| `Plugins.FilterAppend` | src/salvo_main.rs:67-71 | filtering keeps the listing order: it distributes over concatenation of listings |
| `Plugins.PluginNames` | src/salvo_main.rs:70-78 | `stem.zip` is a plugin exactly when the stem is non-empty and not `api`, and its plugin name is that stem |
| `Plugins.PluginNameShape` | src/salvo_main.rs:70-78 | every plugin's file name is its name followed by `.zip` |
| `Plugins.LoadPlugins` | src/salvo_main.rs:66-87 | an unreadable directory loads nothing; otherwise every selected plugin is attempted, once and in order, under its stem, whatever the earlier ones' outcomes |
| `Routes.Lookup` | src/salvo_main.rs:95-118 | a found handler belongs to a route with that path and verb; no handler means no such route |
| `Routes.API_ROUTES` | src/salvo_main.rs:100-118 | the 19 API routes, in the order the router is built, each with its path, verb and handler |
| `Routes.RoutesAreDistinct` | src/salvo_main.rs:100-118 | no two API routes share a path |
| `Routes.LookupByPath` | src/salvo_main.rs:95-118 | in a table of distinct paths, a path's route decides the lookup for every verb |
| `Routes.SameService` | src/salvo_main.rs:111-118 | two routes with the same verb and handler answer every verb alike |
| `Routes.OaiV1Aliases` | src/salvo_main.rs:111-118 | each `/api/oai/v1/X` is served like `/api/oai/X` for `models`, `completions`, `chat/completions` and `embeddings` |
| `Routes.FileListingAliases` | src/salvo_main.rs:107-108 | `/api/files/ls` is served like `/api/files/dir`, by the directory handler |
| `Protocol.CommandQueue.NewChannel` | crates/ai00-server/src/api/model.rs:89 | a new reply channel is distinct from every channel a queued command carries; the queue is unchanged |
| `Protocol.CommandQueue.Send` | src/api/oai/embedding.rs:57-61 | the unbounded queue appends the command and nothing else changes |
| `Protocol.StatusCode.Code` | crates/ai00-server/src/api/model.rs:114-117 | 200 exactly for `Ok`, 404 exactly for `NotFound`, 500 exactly for `InternalServerError` |
| `ModelApi.SandboxEntries` | crates/ai00-server/src/api/model.rs:97-108 | sandboxing a list succeeds exactly when `build_path` succeeds on every path; then each entry has the sandboxed path and its own other fields, in the same order |
| `ModelApi.SandboxInPlace` | crates/ai00-server/src/api/model.rs:97-108 | the in-place rewriting loop, which stops at the first refused path, gives exactly the sandboxed list, or failure |
| `ModelApi.SandboxReload` | crates/ai00-server/src/api/model.rs:92-108 | a reload request passes exactly when its model path and all its LoRA and state paths pass; the result carries the `build_path` results and the unchanged settings |
| `ModelApi.SandboxReloadFails` | crates/ai00-server/src/api/model.rs:93-108 | a reload request is refused exactly when the model path, some LoRA path or some state path is refused |
| `ModelApi.SandboxReloadKeepsFields` | crates/ai00-server/src/api/model.rs:90-113 | sandboxing changes only paths: settings, list lengths and every entry's other fields are forwarded unchanged |
| `ModelApi.ReplyStatus` | crates/ai00-server/src/api/model.rs:114-117 | 200 exactly when the worker replies `true`, 500 exactly when it replies `false` |
| `ModelApi.ProjectStates` | crates/ai00-server/src/api/model.rs:37-40 | one `InitStateInfo` per registered state, in order, with its id and name |
| `ModelApi.InfoOf` | crates/ai00-server/src/api/model.rs:29-46 | the info response carries the snapshot's reload settings and model metadata, and the `(id, name)` of every state |
| `ModelApi.StateEvents` | crates/ai00-server/src/api/model.rs:58-78 | the SSE stream yields, for every snapshot in order, the same response the info handler gives |
| `ModelApi.ProjectKeepsDistinctIds` | crates/ai00-server/src/api/model.rs:37-40 | unique state ids in the registry stay unique in the response |
| `ModelApi.ThreadState.Load` | crates/ai00-server/src/api/model.rs:87-118 | a refused path gives 404 with the queue unchanged; otherwise exactly one `Reload` is queued, carrying the sandboxed request and a fresh reply channel, and the status is the reply's 200 or 500 |
| `ModelApi.ThreadState.Unload` | crates/ai00-server/src/api/model.rs:124-129 | exactly one `Unload` is queued and the answer is 200 |
| `ModelApi.ThreadState.LoadState` | crates/ai00-server/src/api/model.rs:135-153 | a refused path gives 404 with the queue unchanged; otherwise exactly one `StateLoad` is queued, with the sandboxed path and a fresh reply channel, and the status is the reply's 200 or 500 |
| `ModelApi.ThreadState.Save` | crates/ai00-server/src/api/model.rs:159-178 | a refused path gives 404 with the queue unchanged; otherwise exactly one `Save` is queued, with the sandboxed path and its mandatory fresh reply channel, and the status is the reply's 200 or 500 |
| `Embedding.ConcatAppend` | src/api/oai/embedding.rs:23 | joining with no separator distributes over concatenation of the input lists |
| `Embedding.ConcatAt` | src/api/oai/embedding.rs:23 | every input text appears in the prompt, in order, right after the texts before it |
| `Embedding.Concat` | src/api/oai/embedding.rs:23 | the joined text is empty exactly when every input text is, and no input text is longer than it |
| `Embedding.ToGenerate` | src/api/oai/embedding.rs:19-29 | the prompt is the joined input, `max_tokens` is 1, `embed` is true, `embed_layer` is copied, and the other fields are the defaults |
| `Embedding.FirstEmbed` | src/api/oai/embedding.rs:67-73 | the position of the first `Embed` event, or none when there is none |
| `Embedding.LastStopAt` | src/api/oai/embedding.rs:63-69 | the position of the last `Stop` event, or none when there is none |
| `Embedding.CollectEmbedding` | src/api/oai/embedding.rs:63-76 | the loop returns the first `Embed`'s vector (empty if none) and the counter of the last `Stop` before it (the default if none) |
| `Embedding.NeverReadsPastEmbed` | src/api/oai/embedding.rs:67-73 | events after the first `Embed` are never read and do not affect the result |
| `Embedding.ReadDecides` | src/api/oai/embedding.rs:67-76 | the result depends only on the part of the stream that is read |
| `Embedding.FoldIgnoresOthers` | src/api/oai/embedding.rs:68-75 | dropping the `Content` and `Error` events does not change the fold |
| `Embedding.KeepKeepsResult` | src/api/oai/embedding.rs:68-75 | dropping the `Content` and `Error` events changes neither the reported usage nor the embedding |
| `Embedding.Fold` | src/api/oai/embedding.rs:67-76 | the loop, as recursion: it finds an embedding exactly when the stream holds an `Embed` event, and that embedding is some `Embed`'s vector; its counter is the starting one or some `Stop`'s counter |
| `Embedding.FoldMatches` | src/api/oai/embedding.rs:63-76 | the front-to-back fold of the loop agrees with the first-`Embed` / last-`Stop` description, from any counter reached so far |
| `Embedding.FoldGivesResult` | src/api/oai/embedding.rs:63-76 | the fold from the default counter gives the handler's usage and embedding |
| `Embedding.NoEmbedMeansEmpty` | src/api/oai/embedding.rs:64-74 | a stream with no `Embed` event gives an empty embedding and the last `Stop` counter |
| `Embedding.Respond` | src/api/oai/embedding.rs:78-87 | the response is a `list` holding exactly one `embedding` item, at index 0, with the model name and the usage |
| `Embedding.Embeddings` | src/api/oai/embedding.rs:49-88 | a `QueryInfo` on a fresh reply channel is queued, then exactly one `Generate` (the converted request, the snapshot's tokenizer, a fresh token channel); the response names the snapshot's model path and carries the collected embedding and usage |

## Left out

- Logging, the temporary serve directory, extracting the front end and the plugin archives, and creating the plugin directory are file-system I/O. `load_plugin` enters `Plugins.LoadPlugins` only as its success or failure per entry.
- CORS, the logger, the OpenAPI and Swagger routes, the static-file fallback, certificate loading (with its `unwrap` panics), listener binding, `serve` and the log lines are framework and network plumbing. `Listen.Listeners` only describes which listeners are joined.
- Concurrent handlers are not modelled. Each handler runs alone on the shared `CommandQueue`, so `old(sender.sent)` is the queue as that handler found it, and commands other handlers queue in between (for example while `embeddings` awaits `request_info`, before its `Generate`) are not captured.
- Salvo's router is modelled as a first-match table lookup. The paths are distinct, so this agrees with any matching order.
- The initial `Reload` that start-up sends with no reply channel (src/salvo_main.rs:44-50) and the worker `model_route` are not part of this model. The worker's replies and token streams are parameters.
- `build_path` and `str::parse` for addresses are parameters: arbitrary functions returning success or failure.
- `request_info` and `try_request_info` are not part of this model beyond the `QueryInfo` command they queue. The snapshot they return is a parameter of `Embedding.Embeddings` and `ModelApi.InfoOf`, and the info handlers' own `QueryInfo` sends are not tracked, since those handlers are modelled as functions of the snapshot.
- `ModelApi.ThreadState.Unload`: does not model the busy-wait on `try_request_info` that delays the 200 until the worker has gone, because it is concurrency and timing; so its `sent` also leaves out the `QueryInfo` commands that poll puts on the queue after the `Unload`.
- `ModelApi.StateEvents`: does not model the background sender that queries the worker periodically, the `SLEEP` interval, or a `serde_json` serialisation error in an SSE event. It yields the `InfoResponse` values; on the wire each is first turned into a JSON string (crates/ai00-server/src/api/model.rs:69) and that string is what `SseEvent::json` serialises (line 74), so the event carries the object's text as a quoted JSON string, and that encoding is not modelled.
- `Protocol.CommandQueue.Send`: always appends; a `send` that fails because the worker's receiving end is gone (its error is discarded by every caller) is not modelled, since the worker's lifetime is not part of this model.
- Panics from `unwrap` on a closed reply channel are out of scope. Each handler takes the worker's reply as a given boolean.
- `Embedding.Embeddings`: models the token stream as a finite sequence, so a worker that never ends the stream (the handler would wait forever) is not modelled.
- The `Array<String>` input type is not part of this model. The input is its list of texts, and a missing input is the empty list.
- `GenerateRequest::default()` is not part of this model and is a parameter. `TokenCounter::default()` is taken to count zero tokens.
- `to_string_lossy` on the model path and on plugin file names is the identity. Paths and file names are strings of characters, not the operating system's bytes, so a name that is not valid Unicode is not modelled.
- `f32` values (embedding vectors, tensor data) are opaque `bv32` bit patterns. The request fields the handlers never read are a name-to-text map.
- The registry of states is modelled as an ordered list of `(id, state)` pairs. The response lists the states in that list's iteration order.
