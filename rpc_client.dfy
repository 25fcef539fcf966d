/**
 * The Stellar RPC client (internal/rpc/client.go): a list of alternative Horizon URLs, the
 * index of the current one, round-robin rotation, and the bounded failover loops of
 * GetTransaction and GetLedgerEntries.
 *
 * Each network round trip is a parameter: an oracle that, given the attempt number, the URL
 * talked to and the request, answers with a reply or with the text of a transport failure.
 */
module RpcClient {
  import opened Wrappers
  import opened RpcConfig
  import opened RpcFailover

  /** The errors the client returns; each stands for one `fmt.Errorf` of the source. */
  datatype Error =
    | FetchFailed(url: string, cause: string)            // Horizon lookup failed
    | RequestFailed(cause: string)                       // request could not be built, sent, read or decoded
    | RpcError(url: string, message: string, code: int)  // the JSON-RPC reply carries an error object
    | EndpointsExhausted(message: string)                // the failover loop ran out of endpoints

  const AllRpcFailed: Error := EndpointsExhausted("all RPC endpoints failed")
  const AllSorobanFailed: Error := EndpointsExhausted("all Soroban RPC endpoints failed")

  /** The raw XDR fields of a transaction needed for simulation. */
  datatype TransactionResponse = TransactionResponse(envelopeXdr: string, resultXdr: string, resultMetaXdr: string)

  /** A Horizon transaction lookup: (attempt number, Horizon URL, transaction hash) to the reply. */
  type HorizonApi = (nat, string, string) -> Result<TransactionResponse, string>

  datatype LedgerEntry = LedgerEntry(key: string, xdr: string, lastModifiedLedger: int, liveUntilLedger: int)
  datatype RpcErrorBody = RpcErrorBody(code: int, message: string)

  /** The decoded body of a getLedgerEntries reply. */
  datatype LedgerEntriesReply = LedgerEntriesReply(entries: seq<LedgerEntry>, latestLedger: int, error: Option<RpcErrorBody>)

  /** A getLedgerEntries round trip: (attempt number, target URL, keys) to the decoded reply. */
  type SorobanRpc = (nat, string, seq<string>) -> Result<LedgerEntriesReply, string>

  /** The Horizon client object a Client holds; only the URL it talks to matters here. */
  datatype HorizonClient = HorizonClient(horizonURL: string)

  /** getTransactionAttempt: one Horizon lookup at `url`, its failure wrapped with that URL. */
  function TransactionAttempt(api: HorizonApi, k: nat, url: string, hash: string): Result<TransactionResponse, Error>
  {
    match api(k, url, hash)
    case Ok(tx) => Ok(TransactionResponse(tx.envelopeXdr, tx.resultXdr, tx.resultMetaXdr))
    case Err(cause) => Err(FetchFailed(url, cause))
  }

  /** The k-th attempt of a GetTransaction call that starts at index `start` with current URL `first`. */
  function TransactionAttempts(api: HorizonApi, hash: string, urls: seq<string>, start: nat, first: string): nat -> Result<TransactionResponse, Error>
  {
    (k: nat) => TransactionAttempt(api, k, AttemptURL(urls, start, first, k), hash)
  }

  /** The key-to-XDR map built from a reply's entries, in order, so a later duplicate key wins. */
  function EntryMap(entries: seq<LedgerEntry>): map<string, string>
  {
    if entries == [] then map[]
    else
      var last := entries[|entries| - 1];
      EntryMap(entries[..|entries| - 1])[last.key := last.xdr]
  }

  /** The map has exactly the keys of the entries. */
  lemma {:induction false} EntryMapKeys(entries: seq<LedgerEntry>)
    ensures EntryMap(entries).Keys == set e | e in entries :: e.key
  {
    if entries != [] {
      var init := entries[..|entries| - 1];
      EntryMapKeys(init);
      assert entries == init + [entries[|entries| - 1]];
    }
  }

  /** An entry whose key does not occur later in the reply is what the map sends that key to. */
  lemma {:induction false} EntryMapLastWins(entries: seq<LedgerEntry>, i: nat)
    requires i < |entries|
    requires forall j :: i < j < |entries| ==> entries[j].key != entries[i].key
    ensures entries[i].key in EntryMap(entries) && EntryMap(entries)[entries[i].key] == entries[i].xdr
  {
    if i < |entries| - 1 {
      var init := entries[..|entries| - 1];
      assert init[i] == entries[i];
      EntryMapLastWins(init, i);
    }
  }

  /** getLedgerEntriesAttempt as a value: one round trip to `target` and its interpretation. */
  function LedgerEntriesAttempt(rpc: SorobanRpc, k: nat, target: string, keys: seq<string>): Result<map<string, string>, Error>
  {
    match rpc(k, target, keys)
    case Err(cause) => Err(RequestFailed(cause))
    case Ok(reply) =>
      if reply.error.Some? then Err(RpcError(target, reply.error.value.message, reply.error.value.code))
      else Ok(EntryMap(reply.entries))
  }

  /** The k-th attempt of a GetLedgerEntries call that starts at index `start` with current URL `first`. */
  function LedgerEntriesAttempts(rpc: SorobanRpc, keys: seq<string>, urls: seq<string>, start: nat, first: string, net: Network): nat -> Result<map<string, string>, Error>
  {
    (k: nat) => LedgerEntriesAttempt(rpc, k, TargetURL(AttemptURL(urls, start, first, k), net), keys)
  }

  /** The loop of getLedgerEntriesAttempt that fills the result map entry by entry. */
  method BuildEntryMap(entries: seq<LedgerEntry>) returns (m: map<string, string>)
    ensures m == EntryMap(entries)
  {
    m := map[];
    for i := 0 to |entries|
      invariant m == EntryMap(entries[..i])
    {
      assert entries[..i + 1][..i] == entries[..i];
      m := m[entries[i].key := entries[i].xdr];
    }
    assert entries[..|entries|] == entries;
  }

  class Client {
    var horizonURL: string
    var horizon: HorizonClient
    var network: Network
    var sorobanURL: string
    var altURLs: seq<string>
    var currIndex: nat

    /**
     * The rotation state is consistent: the Horizon client talks to the current URL and,
     * when there are alternatives, the index is in range and selects the current URL.
     */
    ghost predicate Valid()
      reads this
    {
      && horizon == HorizonClient(horizonURL)
      && (|altURLs| > 0 ==> currIndex < |altURLs| && horizonURL == altURLs[currIndex])
    }

    /** Allocates the client the constructor functions of RpcConfig describe. */
    constructor (s: Settings)
      ensures horizonURL == s.horizonURL && horizon == HorizonClient(s.horizonURL)
      ensures network == s.network && sorobanURL == s.sorobanURL && altURLs == s.altURLs && currIndex == 0
      ensures |s.altURLs| > 0 && s.horizonURL == s.altURLs[0] ==> Valid()
    {
      horizonURL := s.horizonURL;
      horizon := HorizonClient(s.horizonURL);
      network := s.network;
      sorobanURL := s.sorobanURL;
      altURLs := s.altURLs;
      currIndex := 0;
    }

    /**
     * rotateURL: with at most one URL nothing changes and the answer is false; otherwise the
     * index moves round-robin to the next URL, which becomes the current one.
     */
    method RotateURL() returns (rotated: bool)
      modifies this`currIndex, this`horizonURL, this`horizon
      ensures rotated <==> |altURLs| > 1
      ensures !rotated ==> currIndex == old(currIndex) && horizonURL == old(horizonURL) && horizon == old(horizon)
      ensures rotated ==> currIndex == NextIndex(old(currIndex), |altURLs|) && horizonURL == altURLs[currIndex]
      ensures rotated ==> Valid()
      ensures old(Valid()) ==> Valid()
    {
      if |altURLs| <= 1 {
        return false;
      }
      currIndex := (currIndex + 1) % |altURLs|;
      horizonURL := altURLs[currIndex];
      horizon := HorizonClient(horizonURL);
      return true;
    }

    /**
     * GetTransaction: tries the current URL, then rotates after every failure but the last,
     * making at most |altURLs| attempts; `tries` counts them.
     */
    method GetTransaction(hash: string, api: HorizonApi) returns (r: Result<TransactionResponse, Error>, ghost tries: nat)
      modifies this`currIndex, this`horizonURL, this`horizon
      ensures Failover(TransactionAttempts(api, hash, altURLs, old(currIndex), old(horizonURL)), |altURLs|, tries, r, AllRpcFailed)
      ensures tries <= 1 ==> currIndex == old(currIndex) && horizonURL == old(horizonURL) && horizon == old(horizon)
      ensures tries > 1 ==> currIndex == RotatedIndex(old(currIndex), |altURLs|, tries - 1) && Valid()
      ensures tries > 0 ==> horizonURL == AttemptURL(altURLs, old(currIndex), old(horizonURL), tries - 1)
      ensures old(Valid()) ==> Valid()
    {
      ghost var attempts := TransactionAttempts(api, hash, altURLs, currIndex, horizonURL);
      ghost var start, first := currIndex, horizonURL;
      var attempt := 0;
      while attempt < |altURLs|
        invariant attempt <= |altURLs| && (|altURLs| > 0 ==> attempt < |altURLs|)
        invariant forall k :: 0 <= k < attempt ==> attempts(k).Err?
        invariant horizonURL == AttemptURL(altURLs, start, first, attempt)
        invariant attempt == 0 ==> currIndex == start && horizon == old(horizon)
        invariant attempt > 0 ==> currIndex == RotatedIndex(start, |altURLs|, attempt) && Valid()
        invariant old(Valid()) ==> Valid()
      {
        var resp := TransactionAttempt(api, attempt, horizonURL, hash);
        assert resp == attempts(attempt);
        if resp.Ok? {
          return resp, attempt + 1;
        }
        if attempt < |altURLs| - 1 {
          var ok := RotateURL();
          if !ok {
            break;
          }
          attempt := attempt + 1;
          continue;
        }
        return resp, attempt + 1;
      }
      return Err(AllRpcFailed), 0;
    }

    /**
     * getLedgerEntriesAttempt: posts the keys to the target URL derived from the current
     * URL and the network, and turns the reply into the key-to-XDR map or an error.
     */
    method GetLedgerEntriesAttempt(keys: seq<string>, rpc: SorobanRpc, k: nat) returns (r: Result<map<string, string>, Error>)
      ensures r == LedgerEntriesAttempt(rpc, k, TargetURL(horizonURL, network), keys)
    {
      var targetURL := TargetURL(horizonURL, network);
      match rpc(k, targetURL, keys)
      case Err(cause) =>
        r := Err(RequestFailed(cause));
      case Ok(reply) =>
        if reply.error.Some? {
          r := Err(RpcError(targetURL, reply.error.value.message, reply.error.value.code));
        } else {
          var entries := BuildEntryMap(reply.entries);
          r := Ok(entries);
        }
    }

    /**
     * GetLedgerEntries: no keys means an empty map without any request; otherwise the same
     * bounded failover as GetTransaction.
     */
    method GetLedgerEntries(keys: seq<string>, rpc: SorobanRpc) returns (r: Result<map<string, string>, Error>, ghost tries: nat)
      modifies this`currIndex, this`horizonURL, this`horizon
      ensures keys == [] ==> r == Ok(map[]) && tries == 0
      ensures keys != [] ==> Failover(LedgerEntriesAttempts(rpc, keys, altURLs, old(currIndex), old(horizonURL), network), |altURLs|, tries, r, AllSorobanFailed)
      ensures tries <= 1 ==> currIndex == old(currIndex) && horizonURL == old(horizonURL) && horizon == old(horizon)
      ensures tries > 1 ==> currIndex == RotatedIndex(old(currIndex), |altURLs|, tries - 1) && Valid()
      ensures tries > 0 ==> horizonURL == AttemptURL(altURLs, old(currIndex), old(horizonURL), tries - 1)
      ensures old(Valid()) ==> Valid()
    {
      if keys == [] {
        return Ok(map[]), 0;
      }
      ghost var attempts := LedgerEntriesAttempts(rpc, keys, altURLs, currIndex, horizonURL, network);
      ghost var start, first := currIndex, horizonURL;
      var attempt := 0;
      while attempt < |altURLs|
        invariant attempt <= |altURLs| && (|altURLs| > 0 ==> attempt < |altURLs|)
        invariant forall k :: 0 <= k < attempt ==> attempts(k).Err?
        invariant horizonURL == AttemptURL(altURLs, start, first, attempt)
        invariant attempt == 0 ==> currIndex == start && horizon == old(horizon)
        invariant attempt > 0 ==> currIndex == RotatedIndex(start, |altURLs|, attempt) && Valid()
        invariant old(Valid()) ==> Valid()
      {
        var entries := GetLedgerEntriesAttempt(keys, rpc, attempt);
        assert entries == attempts(attempt);
        if entries.Ok? {
          return entries, attempt + 1;
        }
        if attempt < |altURLs| - 1 {
          var ok := RotateURL();
          if !ok {
            break;
          }
          attempt := attempt + 1;
          continue;
        }
        return entries, attempt + 1;
      }
      return Err(AllSorobanFailed), 0;
    }
  }
}
