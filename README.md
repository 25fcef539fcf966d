# Erst RPC failover and simulator result shaping, in Dafny

Erst re-simulates failed Soroban (Stellar smart-contract) transactions so that they can be
debugged. This project models two small, sequential parts of it and proves what they promise.

**The Stellar RPC client** (`internal/rpc/client.go`):
- A network name selects default Horizon and Soroban URLs. The empty name means Mainnet. An
  unknown name gets Mainnet's URLs but keeps its own value.
- A client holds a list of alternative Horizon URLs and the index of the current one.
  `rotateURL` moves through the list round-robin.
- `GetTransaction` and `GetLedgerEntries` share one bounded failover loop. It makes at most
  one attempt per list entry, rotates only between attempts, and returns the first success or the
  last attempt's error.
- `getLedgerEntriesAttempt` picks the URL to post to and builds the key-to-XDR map from the
  reply.

**The simulator process** (`simulator/src/main.rs`):
- `decode_wasm_trap` classifies an error text into one of eight human-readable forms.
- `send_error` builds the fixed-shape error response.
- `main` counts the ledger entries it decodes and assembles the response logs: a count line
  first, then one line per host-function invocation.

Modules:
- `Wrappers`: `Option` and `Result`.
- `RpcConfig`: network names, URL constants, and the constructors as pure functions. These
  return `Settings`, the field values of the freshly allocated client.
- `RpcFailover`: round-robin index arithmetic and `Failover`, the contract of the failover
  loop, with lemmas about it.
- `RpcClient`: class `Client`, with fields `horizonURL`, `horizon`, `network`, `sorobanURL`,
  `altURLs` and `currIndex`. `RotateURL` updates them in place. `GetTransaction` and
  `GetLedgerEntries` are the imperative retry loops.
- `TrapDecoder`: `decode_wasm_trap`.
- `Simulator`: `send_error`, the two loops of `main`, and `main` itself.

Each network round trip is an oracle parameter. It receives the attempt number, the URL and
the request, and returns the reply or the text of a transport failure. Likewise, JSON parsing,
base64 and XDR decoding, and the host's event list are parameters of the simulator model.

Behaviour of the code that the model keeps as written:
- `NewClient` selects a Soroban URL that it never reads. The client's Soroban URL comes from
  the second switch, in `NewClientWithURLs`.
- `GetLedgerEntries` posts to the current Horizon URL. It falls back to a Soroban URL only
  when that URL is empty, and only on Testnet and Mainnet. With an empty URL, Futurenet and
  any other network post to the empty URL (`RpcConfig.TargetURL`).
- In the failover loops, the "rotation refused" exit cannot be taken. A rotation is only
  requested when at least two URLs exist, and then it always succeeds. So the loops return
  "all ... endpoints failed" only when the URL list is empty.
- `main` never calls `decode_wasm_trap`.

## Model

| member | source | states |
|---|---|---|
| RpcConfig.NewClient | internal/rpc/client.go:62-87 | The empty network becomes Mainnet and any other name is kept. The only URL is the network's default Horizon URL. The Soroban URL is Testnet's or Futurenet's for those networks, Mainnet's for every other name. |
| RpcConfig.NewClientWithURLs | internal/rpc/client.go:94-122 | The first URL is always the current one. An empty list yields exactly NewClient's result, with one URL, so the recursion is one level deep. A non-empty list is kept whole, with the given network, and the Soroban URL is chosen per network. |
| RpcConfig.NewClientWithURL | internal/rpc/client.go:89-92 | The client's only URL, and its current URL, is the given one, with the given network. |
| RpcConfig.TargetURL | internal/rpc/client.go:263-272 | A non-empty current URL is used as is. An empty one becomes the Testnet or Mainnet Soroban URL on those networks. The target is empty exactly when the URL is empty and the network is neither Testnet nor Mainnet. |
| RpcFailover.NextIndex | internal/rpc/client.go:133 | The next index stays in range, steps forward by one, and wraps from the last URL to the first. |
| RpcFailover.RotatedIndexClosed | internal/rpc/client.go:133 | From an in-range index, k < n rotations land k places further on, wrapping past the end at most once. |
| RpcFailover.FailoverDeterministic | internal/rpc/client.go:146-162 | The failover contract fixes both the number of attempts and the result. |
| RpcFailover.FailoverOutcome | internal/rpc/client.go:146-162 | The loop succeeds if and only if one of the first n attempts succeeds, and then it returns the first success. When all attempts fail it returns the n-th attempt's error. |
| RpcFailover.RoundRobinInjective | internal/rpc/client.go:133-134 | n consecutive rotations from an in-range index select n distinct list positions. A list that repeats a URL is kept as given, so the same URL can then be tried more than once. |
| RpcFailover.RoundRobinAttempt | internal/rpc/client.go:133-134 | Every index is reached by one of the first n rotation steps. |
| RpcFailover.AttemptsVisitEveryURL | internal/rpc/client.go:146-158 | From a consistent client, the attempts of one failover loop talk to every URL of the list, each list position exactly once: URL j at the attempt RoundRobinAttempt names, and distinct attempts at distinct positions. |
| RpcClient.EntryMapKeys | internal/rpc/client.go:300-303 | The result map's keys are exactly the keys of the reply's entries. |
| RpcClient.EntryMapLastWins | internal/rpc/client.go:300-303 | A key maps to the XDR of its last entry in the reply, so a later duplicate overwrites an earlier one. |
| RpcClient.BuildEntryMap | internal/rpc/client.go:300-303 | The filling loop yields the entry map of the whole reply. |
| RpcClient.Client.constructor | internal/rpc/client.go:111-120 | The client gets the given fields with rotation index 0, and its Horizon client talks to the first URL. Settings made by the constructor functions give a consistent client. |
| RpcClient.Client.RotateURL | internal/rpc/client.go:125-142 | With at most one URL, the answer is false and nothing changes. Otherwise the index moves to `(currIndex + 1) % len` and the current URL and Horizon client follow it. Consistency is established or kept, and no other field changes. |
| RpcClient.Client.GetTransaction | internal/rpc/client.go:145-196 | Satisfies the failover contract over the attempts at the current URL and then the rotated URLs: at most len(AltURLs) attempts, first success, last error, "all RPC endpoints failed" only with no URL. After k attempts the client has rotated k-1 times and stays consistent. |
| RpcClient.Client.GetLedgerEntriesAttempt | internal/rpc/client.go:248-308 | Posts to the target URL derived from the current URL and network. A transport failure or an RPC error object yields an error. Otherwise the result is the key-to-XDR map of the reply. |
| RpcClient.Client.GetLedgerEntries | internal/rpc/client.go:225-246 | No keys gives an empty map without any attempt. Otherwise it satisfies the same failover contract over the ledger-entry attempts, with the same rotation and consistency guarantees. |
| TrapDecoder.ContainsIff | simulator/src/main.rs:137-157 | The substring test holds exactly when the needle occurs at some position. |
| TrapDecoder.DecodeWasmTrap | simulator/src/main.rs:131-162 | The result is never empty. It is one of the five sub-kind messages, or the original text behind one of the three prefixes "Wasm Trap: ", "Host-initiated Trap: " and "Execution Error: ". |
| TrapDecoder.FirstMatchIsEarliest | simulator/src/main.rs:138-152 | An ordered table match has no result exactly when no needle occurs. Otherwise the earliest matching row wins. |
| TrapDecoder.DecodeWasmTrapFollowsTable | simulator/src/main.rs:136-154 | A text whose lowercase form mentions "wasm trap" gets the message of its first matching sub-kind, in the order unreachable, out of bounds, integer overflow, stack overflow, divide by zero. Otherwise it gets "Wasm Trap: " followed by the original, not lowercased, text. |
| TrapDecoder.WasmTrapIgnoresCase | simulator/src/main.rs:134-152 | Two texts equal up to case that are wasm traps of a known sub-kind get the same message. |
| TrapDecoder.NonTrapClassification | simulator/src/main.rs:157-161 | A text whose lowercase form does not mention "wasm trap" gets "Host-initiated Trap: " followed by the text exactly when "HostError", with that case, occurs in it, and "Execution Error: " followed by the text otherwise. |
| TrapDecoder.HostErrorIsCaseSensitive | simulator/src/main.rs:157-161 | "HostError" gives the host-initiated form, but "hosterror" gives the execution-error form. |
| Simulator.NatToString | simulator/src/main.rs:121 | The entry count is rendered as a non-empty string of decimal digits with no leading zero. |
| Simulator.DecimalRoundTrip | simulator/src/main.rs:121 | Reading the rendered count back as a decimal number gives the count. |
| Simulator.SendError | simulator/src/main.rs:164-171 | The error response has status "error", carries the message, and has no events and no logs. |
| Simulator.FirstEntryErrorIsFirst | simulator/src/main.rs:63-82 | No decoding error exactly when every (key, entry) pair decodes. Otherwise the reported error belongs to a failing pair whose predecessors all decode. |
| Simulator.LoadLedgerEntries | simulator/src/main.rs:60-82 | Succeeds exactly when every pair decodes, and then the count is the number of pairs. Otherwise it stops with the first failing pair's message, checking the key before the entry and base64 before XDR. |
| Simulator.HostFunctionsAppend | simulator/src/main.rs:95-107 | The host functions of concatenated operation lists are the concatenation of their host functions, so operation order is kept. |
| Simulator.HostFunctionsExact | simulator/src/main.rs:95-107 | A host function is listed exactly when an InvokeHostFunction operation carries it. Other operation kinds contribute nothing. There are never more entries than operations. |
| Simulator.InvocationLogs | simulator/src/main.rs:84-107 | One line per InvokeHostFunction operation, in order: "Invoking Contract: " and the address for a contract call, "Skipping non-InvokeContract Host Function" otherwise. |
| Simulator.Simulate | simulator/src/main.rs:23-129 | An unreadable input prints no response. Invalid JSON, a bad envelope or a bad ledger entry give the error response with that message, checked in that order. Otherwise the status is "success", there is no error, the events are the host's, and the logs are "Host Initialized. Loaded N Ledger Entries" followed by the invocation lines. N is the number of entries, or 0 when there are none. The status is always "error" or "success", and it is "error" exactly when the request is invalid JSON, its envelope does not decode, or one of its ledger entries does not decode. |

## Left out

- HTTP and network traffic (`horizonclient`, `http.DefaultClient`, request construction, body reads): each round trip is an oracle parameter. A failure to build, send, read or decode a request is one `RequestFailed` error carrying the oracle's text.
- The `context.Context` argument: a cancelled context shows up only as a failing oracle answer.
- `json.Marshal` of the ledger-entries request: its error branch is not modelled, because a request made of strings and an integer always marshals.
- JSON-RPC envelope fields (`jsonrpc`, `id`) of the request and reply: they carry no logic here.
- Go's formatted error texts: they are values of the `Error` datatype, not strings. `FetchFailed` and `RpcError` keep the URL, cause, RPC message and code of their texts. `RequestFailed` keeps only the cause: the target URL that the request-execution text names is not modelled.
- Logging, telemetry spans and the `sync.RWMutex` in `rotateURL`: the client is modelled single-threaded, and the lock only makes the field update atomic.
- `horizonclient.Client`: modelled as the URL it talks to. Its HTTP client field is not modelled. The model sends each transaction lookup to the client's `horizonURL` field, where Go goes through the `Horizon` client object and uses `HorizonURL` only in the error text. The two name the same URL whenever `Valid()` holds, which every constructor establishes and every method keeps.
- `RpcConfig.NewClientWithURLs`: the URL list is a `seq` value. In Go the client shares the caller's `urls` slice, so a later change by the caller would be visible in the client; that aliasing is not modelled.
- The simulator's stdin read: its outcome is the `stdin` parameter of `Simulate`. The "Failed to read stdin" message written to standard error when the read fails is not modelled; only the absence of a response is.
- Serde JSON, base64 and XDR decoding: these are the `Codec` parameters. Debug renderings of contract addresses, events and host errors are given as text.
- `soroban_env_host::Host` initialisation: the `unwrap` of `set_diagnostic_level` can panic, and that panic is not modelled. `get_events` is a parameter.
- `TrapDecoder.DecodeWasmTrap`: lowercasing is ASCII. Rust's `to_lowercase` is Unicode-aware (for example, the Kelvin sign lowercases to `k`), so non-ASCII texts can classify differently from the model.
- `Simulator.LoadLedgerEntries`: the count is an unbounded natural number. The source's `i32` counter, which would overflow past 2^31 - 1 entries, is not modelled.
- `Simulator.Simulate`: the request's ledger-entry `HashMap` is given as a sequence of pairs in its iteration order, which Rust leaves unspecified. Which decoding error is reported first therefore depends on that order, as in the source. The model does not require the keys to be distinct, as a map's keys are; with a repeated key its count would be the number of pairs, not of distinct keys.
- The `result_meta_xdr` request field: it is read but never used.
- `internal/cmd/debug.go`, `internal/cmd/root.go` and `internal/audit/dump.go` are not part of this model. They hold command-line wiring, printing, gas-model parsing, localisation, and thin `json.Unmarshal` wrappers.
