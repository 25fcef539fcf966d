/**
 * Network names, default endpoints and client construction of the Stellar RPC client.
 *
 * The Go constructors are pure selections: each returns a fresh client whose fields are
 * fixed by the network name and the URL list. Here they return those field values as a
 * `Settings`; `RpcClient.Client` is allocated from one.
 */
module RpcConfig {

  /** A network name. Any string is a value of the Go type, not only the three known ones. */
  type Network = string

  const Testnet: Network := "testnet"
  const Mainnet: Network := "mainnet"
  const Futurenet: Network := "futurenet"

  const TestnetHorizonURL: string := "https://horizon-testnet.stellar.org/"
  const MainnetHorizonURL: string := "https://horizon.stellar.org/"
  const FuturenetHorizonURL: string := "https://horizon-futurenet.stellar.org/"

  const TestnetSorobanURL: string := "https://soroban-testnet.stellar.org"
  const MainnetSorobanURL: string := "https://mainnet.stellar.validationcloud.io/v1/soroban-rpc-demo"
  const FuturenetSorobanURL: string := "https://rpc-futurenet.stellar.org"

  /** The field values a client is allocated with; its rotation index always starts at zero. */
  datatype Settings = Settings(horizonURL: string, network: Network, sorobanURL: string, altURLs: seq<string>)

  /** The Horizon URL picked by NewClient's switch: Testnet and Futurenet have their own, every other name gets Mainnet's. */
  function DefaultHorizonURL(net: Network): string
  {
    if net == Testnet then TestnetHorizonURL
    else if net == Futurenet then FuturenetHorizonURL
    else MainnetHorizonURL
  }

  /** The Soroban URL picked by NewClientWithURLs' switch. */
  function SorobanURLFor(net: Network): string
  {
    if net == Testnet then TestnetSorobanURL
    else if net == Futurenet then FuturenetSorobanURL
    else MainnetSorobanURL
  }

  /**
   * NewClient: the empty name means Mainnet; the client gets the network's default Horizon
   * URL as its only URL. An unknown name keeps its own value but gets Mainnet's URLs.
   */
  function NewClient(net: Network): (s: Settings)
    decreases 1
    ensures net == "" ==> s.network == Mainnet
    ensures net != "" ==> s.network == net
    ensures s.altURLs == [s.horizonURL]
    ensures net == Testnet ==> s.horizonURL == TestnetHorizonURL && s.sorobanURL == TestnetSorobanURL
    ensures net == Futurenet ==> s.horizonURL == FuturenetHorizonURL && s.sorobanURL == FuturenetSorobanURL
    ensures net != Testnet && net != Futurenet ==> s.horizonURL == MainnetHorizonURL && s.sorobanURL == MainnetSorobanURL
  {
    var n := if net == "" then Mainnet else net;
    NewClientWithURLs([DefaultHorizonURL(n)], n)
  }

  /**
   * NewClientWithURLs: an empty list falls back to NewClient (which calls back with exactly
   * one URL, so the recursion is one level deep); otherwise the first URL is the current one
   * and the whole list is kept for failover.
   */
  function NewClientWithURLs(urls: seq<string>, net: Network): (s: Settings)
    decreases if urls == [] then 2 else 0
    ensures |s.altURLs| > 0 && s.horizonURL == s.altURLs[0]
    ensures urls == [] ==> |s.altURLs| == 1 && s == NewClient(net)
    ensures urls != [] ==> s.altURLs == urls && s.network == net
    ensures urls != [] && net == Testnet ==> s.sorobanURL == TestnetSorobanURL
    ensures urls != [] && net == Futurenet ==> s.sorobanURL == FuturenetSorobanURL
    ensures urls != [] && net != Testnet && net != Futurenet ==> s.sorobanURL == MainnetSorobanURL
  {
    if urls == [] then NewClient(net)
    else Settings(urls[0], net, SorobanURLFor(net), urls)
  }

  /** NewClientWithURL: a client whose one and only URL is the given one. */
  function NewClientWithURL(url: string, net: Network): (s: Settings)
    ensures s.altURLs == [url] && s.horizonURL == url && s.network == net
  {
    NewClientWithURLs([url], net)
  }

  /**
   * The URL a ledger-entries request is posted to: the current Horizon URL, unless it is
   * empty, in which case Testnet and Mainnet fall back to their Soroban URL and every other
   * network (Futurenet included) keeps the empty URL.
   */
  function TargetURL(horizonURL: string, net: Network): (u: string)
    ensures horizonURL != "" ==> u == horizonURL
    ensures horizonURL == "" && net == Testnet ==> u == TestnetSorobanURL
    ensures horizonURL == "" && net == Mainnet ==> u == MainnetSorobanURL
    ensures u == "" <==> horizonURL == "" && net != Testnet && net != Mainnet
  {
    if net == Testnet && horizonURL == "" then TestnetSorobanURL
    else if net == Mainnet && horizonURL == "" then MainnetSorobanURL
    else horizonURL
  }
}
