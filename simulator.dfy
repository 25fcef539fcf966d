/**
 * The simulator process (simulator/src/main.rs): it reads a simulation request, decodes the
 * transaction envelope and the ledger entries, counts the entries it loaded, writes one log
 * line per host-function invocation, and answers with a success or an error response.
 *
 * JSON parsing, base64 and XDR decoding are the parameters of a `Codec`; the host's event
 * list is a parameter. The response that would be printed is the method's result.
 */
module Simulator {
  import opened Wrappers

  datatype SimulationResponse = SimulationResponse(status: string, error: Option<string>, events: seq<string>, logs: seq<string>)

  /** The request; the ledger-entry map is given in its iteration order, as (key XDR, entry XDR) pairs whose keys a real map keeps distinct. */
  datatype SimulationRequest = SimulationRequest(envelopeXdr: string, resultMetaXdr: string, ledgerEntries: Option<seq<(string, string)>>)

  /** The outcome of base64 decoding followed by XDR decoding. */
  datatype Decoded<T> = Decoded(value: T) | BadBase64(reason: string) | BadXdr(reason: string)

  /** A host function; a contract address is kept as its debug rendering. */
  datatype HostFunction = InvokeContract(contractAddress: string) | OtherHostFunction

  datatype OperationBody = InvokeHostFunction(hostFunction: HostFunction) | OtherOperation

  /** The three envelope kinds; a fee-bump envelope wraps an inner transaction. */
  datatype Envelope =
    | TxV0(operations: seq<OperationBody>)
    | Tx(operations: seq<OperationBody>)
    | TxFeeBump(innerOperations: seq<OperationBody>)

  /** The foreign decoders the simulator relies on. */
  datatype Codec = Codec(
    parseRequest: string -> Result<SimulationRequest, string>,
    decodeEnvelope: string -> Decoded<Envelope>,
    decodeLedgerKey: string -> Decoded<()>,
    decodeLedgerEntry: string -> Decoded<()>)

  // ----- decimal rendering of the entry count -----

  function DigitChar(d: nat): char
    requires d < 10
  {
    ('0' as int + d) as char
  }

  /** The decimal rendering of n, as `{}` formats an integer: digits only, no leading zero. */
  function NatToString(n: nat): (s: string)
    ensures |s| > 0
    ensures forall i :: 0 <= i < |s| ==> '0' <= s[i] <= '9'
    ensures s[0] == '0' ==> n == 0
    decreases n
  {
    if n < 10 then [DigitChar(n)] else NatToString(n / 10) + [DigitChar(n % 10)]
  }

  /** The number a string of decimal digits denotes. */
  function DecimalValue(s: string): nat
    requires forall i :: 0 <= i < |s| ==> '0' <= s[i] <= '9'
  {
    if s == [] then 0 else DecimalValue(s[..|s| - 1]) * 10 + (s[|s| - 1] as int - '0' as int)
  }

  /** Reading the rendering back gives the number: the rendering loses nothing. */
  lemma {:induction false} DecimalRoundTrip(n: nat)
    ensures DecimalValue(NatToString(n)) == n
    decreases n
  {
    if n >= 10 {
      var s := NatToString(n);
      assert s[..|s| - 1] == NatToString(n / 10);
      DecimalRoundTrip(n / 10);
    }
  }

  // ----- responses -----

  /** send_error: the fixed-shape error response, carrying the message and nothing else. */
  function SendError(msg: string): (r: SimulationResponse)
    ensures r.status == "error" && r.error == Some(msg)
    ensures r.events == [] && r.logs == []
  {
    SimulationResponse("error", Some(msg), [], [])
  }

  // ----- ledger entries -----

  /** The error message of one (key, entry) pair, if either fails to decode; the key is checked first. */
  function LedgerEntryError(codec: Codec, keyXdr: string, entryXdr: string): Option<string>
  {
    match codec.decodeLedgerKey(keyXdr)
    case BadBase64(e) => Some("Failed to decode LedgerKey Base64: " + e)
    case BadXdr(e) => Some("Failed to parse LedgerKey XDR: " + e)
    case Decoded(_) =>
      match codec.decodeLedgerEntry(entryXdr)
      case BadBase64(e) => Some("Failed to decode LedgerEntry Base64: " + e)
      case BadXdr(e) => Some("Failed to parse LedgerEntry XDR: " + e)
      case Decoded(_) => None
  }

  /** The error of the first pair that fails to decode, in iteration order. */
  function FirstEntryError(codec: Codec, entries: seq<(string, string)>): Option<string>
  {
    if entries == [] then None
    else
      var e := LedgerEntryError(codec, entries[0].0, entries[0].1);
      if e.Some? then e else FirstEntryError(codec, entries[1..])
  }

  /**
   * There is no first error exactly when every pair decodes; otherwise it is the error of
   * a failing pair all of whose predecessors decode.
   */
  lemma {:induction false} FirstEntryErrorIsFirst(codec: Codec, entries: seq<(string, string)>)
    ensures FirstEntryError(codec, entries).None? <==>
            forall i :: 0 <= i < |entries| ==> LedgerEntryError(codec, entries[i].0, entries[i].1).None?
    ensures FirstEntryError(codec, entries).Some? ==>
            exists i :: 0 <= i < |entries|
                        && LedgerEntryError(codec, entries[i].0, entries[i].1) == FirstEntryError(codec, entries)
                        && forall j :: 0 <= j < i ==> LedgerEntryError(codec, entries[j].0, entries[j].1).None?
  {
    if entries != [] {
      var tail := entries[1..];
      FirstEntryErrorIsFirst(codec, tail);
      assert forall i :: 0 < i < |entries| ==> entries[i] == tail[i - 1];
      if LedgerEntryError(codec, entries[0].0, entries[0].1).None? && FirstEntryError(codec, tail).Some? {
        var i :| 0 <= i < |tail|
                 && LedgerEntryError(codec, tail[i].0, tail[i].1) == FirstEntryError(codec, tail)
                 && forall j :: 0 <= j < i ==> LedgerEntryError(codec, tail[j].0, tail[j].1).None?;
        assert entries[i + 1] == tail[i];
      }
    }
  }

  /**
   * The entry-loading loop of main: counts the pairs as they decode and stops at the first
   * failure with its message. On success the count is the number of pairs.
   */
  method LoadLedgerEntries(codec: Codec, entries: seq<(string, string)>) returns (r: Result<nat, string>)
    ensures r.Ok? <==> FirstEntryError(codec, entries).None?
    ensures r.Ok? ==> r.value == |entries|
    ensures r.Err? ==> Some(r.error) == FirstEntryError(codec, entries)
  {
    var loadedEntriesCount := 0;
    for i := 0 to |entries|
      invariant loadedEntriesCount == i
      invariant FirstEntryError(codec, entries) == FirstEntryError(codec, entries[i..])
    {
      var (keyXdr, entryXdr) := entries[i];
      var e := LedgerEntryError(codec, keyXdr, entryXdr);
      assert entries[i..][1..] == entries[i + 1..];
      if e.Some? {
        return Err(e.value);
      }
      loadedEntriesCount := loadedEntriesCount + 1;
    }
    return Ok(loadedEntriesCount);
  }

  // ----- invocation logs -----

  function Operations(env: Envelope): seq<OperationBody>
  {
    match env
    case TxV0(ops) => ops
    case Tx(ops) => ops
    case TxFeeBump(ops) => ops
  }

  /** The host functions of the InvokeHostFunction operations, in operation order. */
  function HostFunctions(ops: seq<OperationBody>): seq<HostFunction>
  {
    if ops == [] then []
    else
      var rest := HostFunctions(ops[..|ops| - 1]);
      match ops[|ops| - 1]
      case InvokeHostFunction(hf) => rest + [hf]
      case OtherOperation => rest
  }

  /** HostFunctions keeps the order of the operations: it distributes over concatenation. */
  lemma {:induction false} HostFunctionsAppend(a: seq<OperationBody>, b: seq<OperationBody>)
    ensures HostFunctions(a + b) == HostFunctions(a) + HostFunctions(b)
    decreases |b|
  {
    if b != [] {
      var b' := b[..|b| - 1];
      assert (a + b)[..|a + b| - 1] == a + b';
      HostFunctionsAppend(a, b');
    } else {
      assert a + b == a;
    }
  }

  /** Exactly the InvokeHostFunction operations contribute, one host function each; other kinds none. */
  lemma {:induction false} HostFunctionsExact(ops: seq<OperationBody>)
    ensures |HostFunctions(ops)| <= |ops|
    ensures forall hf :: hf in HostFunctions(ops) <==> InvokeHostFunction(hf) in ops
  {
    if ops != [] {
      var init := ops[..|ops| - 1];
      HostFunctionsExact(init);
      assert ops == init + [ops[|ops| - 1]];
    }
  }

  /** The log line written for one InvokeHostFunction operation. */
  function LogLine(hf: HostFunction): string
  {
    match hf
    case InvokeContract(address) => "Invoking Contract: " + address
    case OtherHostFunction => "Skipping non-InvokeContract Host Function"
  }

  /** The first log line of a successful response. */
  function LoadedLine(count: nat): string
  {
    "Host Initialized. Loaded " + NatToString(count) + " Ledger Entries"
  }

  /** The operation loop of main: one line per InvokeHostFunction operation, in order. */
  method InvocationLogs(ops: seq<OperationBody>) returns (logs: seq<string>)
    ensures |logs| == |HostFunctions(ops)|
    ensures forall j :: 0 <= j < |logs| ==> logs[j] == LogLine(HostFunctions(ops)[j])
  {
    logs := [];
    for i := 0 to |ops|
      invariant |logs| == |HostFunctions(ops[..i])|
      invariant forall j :: 0 <= j < |logs| ==> logs[j] == LogLine(HostFunctions(ops[..i])[j])
    {
      assert ops[..i + 1][..i] == ops[..i];
      match ops[i]
      case InvokeHostFunction(hf) =>
        logs := logs + [LogLine(hf)];
      case OtherOperation =>
    }
    assert ops[..|ops|] == ops;
  }

  /** The event list of the response: the host's events, or one line saying why they are missing. */
  function EventLines(hostEvents: Result<seq<string>, string>): seq<string>
  {
    match hostEvents
    case Ok(events) => events
    case Err(e) => ["Failed to retrieve events: " + e]
  }

  /**
   * The input cannot be simulated: it is not a valid request, its envelope does not decode,
   * or one of its ledger entries does not decode.
   */
  predicate DecodingFails(input: string, codec: Codec)
  {
    match codec.parseRequest(input)
    case Err(_) => true
    case Ok(request) =>
      || !codec.decodeEnvelope(request.envelopeXdr).Decoded?
      || (request.ledgerEntries.Some? && FirstEntryError(codec, request.ledgerEntries.value).Some?)
  }

  /**
   * main: None when standard input cannot be read (no response is printed); otherwise the
   * response printed, an error response for the first decoding failure or the success
   * response with the count line first and one line per host-function invocation.
   */
  method Simulate(stdin: Result<string, string>, codec: Codec, hostEvents: Result<seq<string>, string>)
    returns (out: Option<SimulationResponse>)
    ensures stdin.Err? <==> out.None?
    ensures out.Some? ==> out.value.status == "error" || out.value.status == "success"
    ensures out.Some? ==> (out.value.status == "error" <==> DecodingFails(stdin.value, codec))
    ensures stdin.Ok? && codec.parseRequest(stdin.value).Err? ==>
              out == Some(SendError("Invalid JSON: " + codec.parseRequest(stdin.value).error))
    ensures stdin.Ok? && codec.parseRequest(stdin.value).Ok? ==>
              var request := codec.parseRequest(stdin.value).value;
              var entries := if request.ledgerEntries.Some? then request.ledgerEntries.value else [];
              match codec.decodeEnvelope(request.envelopeXdr)
              case BadBase64(e) => out == Some(SendError("Failed to decode Envelope Base64: " + e))
              case BadXdr(e) => out == Some(SendError("Failed to parse Envelope XDR: " + e))
              case Decoded(envelope) =>
                if FirstEntryError(codec, entries).Some? then
                  out == Some(SendError(FirstEntryError(codec, entries).value))
                else
                  var calls := HostFunctions(Operations(envelope));
                  && out.Some?
                  && out.value.status == "success"
                  && out.value.error == None
                  && out.value.events == EventLines(hostEvents)
                  && |out.value.logs| == 1 + |calls|
                  && out.value.logs[0] == LoadedLine(|entries|)
                  && forall j :: 0 <= j < |calls| ==> out.value.logs[j + 1] == LogLine(calls[j])
  {
    if stdin.Err? {
      return None;
    }
    var request;
    match codec.parseRequest(stdin.value)
    case Err(e) =>
      return Some(SendError("Invalid JSON: " + e));
    case Ok(req) =>
      request := req;
    var envelope;
    match codec.decodeEnvelope(request.envelopeXdr)
    case BadBase64(e) =>
      return Some(SendError("Failed to decode Envelope Base64: " + e));
    case BadXdr(e) =>
      return Some(SendError("Failed to parse Envelope XDR: " + e));
    case Decoded(env) =>
      envelope := env;
    var loadedEntriesCount := 0;
    if request.ledgerEntries.Some? {
      var loaded := LoadLedgerEntries(codec, request.ledgerEntries.value);
      if loaded.Err? {
        return Some(SendError(loaded.error));
      }
      loadedEntriesCount := loaded.value;
    }
    var invocationLogs := InvocationLogs(Operations(envelope));
    var events := EventLines(hostEvents);
    var logs := [LoadedLine(loadedEntriesCount)] + invocationLogs;
    return Some(SimulationResponse("success", None, events, logs));
  }
}
