/** The injected wallet provider (`window.ethereum`) as a script of replies: every
    `request` is appended to a log and answered by the next reply of the script. */
module Provider {
  import opened Js

  /** The target chain id, as written in the network descriptor. */
  const TEMPO_CHAIN_ID: string := "0xa5bd"

  datatype Currency = Currency(name: string, symbol: string, decimals: nat)

  /** The parameter object of `wallet_addEthereumChain` (EIP-3085). */
  datatype NetworkDescriptor = NetworkDescriptor(
    chainId: string,
    chainName: string,
    nativeCurrency: Currency,
    rpcUrls: seq<string>,
    blockExplorerUrls: seq<string>)

  const TEMPO_NETWORK: NetworkDescriptor := NetworkDescriptor(
    TEMPO_CHAIN_ID,
    "Tempo Testnet (Andantino)",
    Currency("USD", "USD", 18),
    ["https://rpc.testnet.tempo.xyz"],
    ["https://explore.tempo.xyz"])

  /** One `request({method, params})`: `eth_chainId` (EIP-695),
      `wallet_switchEthereumChain` (EIP-3326) with `[{chainId}]`,
      `wallet_addEthereumChain` (EIP-3085) with `[descriptor]`, and
      `eth_requestAccounts` (EIP-1102). */
  datatype RpcCall =
    | ChainIdRead
    | SwitchChain(chainId: string)
    | AddChain(network: NetworkDescriptor)
    | RequestAccounts

  /** How the provider settles a request: with a string, with an array of strings,
      or by rejecting with a fault. */
  datatype Reply = Str(text: string) | Strs(items: seq<string>) | Fault(error: Error)

  /** The answer of a provider whose script has run out. */
  const UNANSWERED: Reply := Fault(Error(None, None))

  /** The reply request number `n` (from 0) gets. */
  function ReplyAt(script: seq<Reply>, n: nat): Reply {
    if n < |script| then script[n] else UNANSWERED
  }

  /** How a call into the provider ends: it returns, or it throws. */
  datatype Outcome = Returned | Threw(error: Error)

  class WalletProvider {
    /** The replies the wallet gives, in the order of the requests. */
    const script: seq<Reply>
    /** How many requests the wallet has answered so far. */
    var answered: nat
    var log: seq<RpcCall>

    constructor (script: seq<Reply>)
      ensures this.script == script && answered == 0 && log == []
    {
      this.script := script;
      answered := 0;
      log := [];
    }

    /** `request(call)`: logs the call and settles with the next scripted reply. */
    method Request(call: RpcCall) returns (reply: Reply)
      modifies this
      ensures reply == ReplyAt(script, old(answered))
      ensures answered == old(answered) + 1
      ensures log == old(log) + [call]
    {
      reply := ReplyAt(script, answered);
      answered := answered + 1;
      log := log + [call];
    }
  }
}
