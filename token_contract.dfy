/** The token contract helpers: a guard on the configured contract address, reads
    that fall back to defaults instead of failing, and writes that rethrow every
    failure as a plain error carrying only a message. The deployed contract and
    the ethers unit helpers are oracles: what each call answers is fixed in
    advance by a `Chain` and a `Units` value. */
module TokenContract {
  import opened Js

  const NO_ADDRESS: string := "Contract address not set. Please deploy the contract first."
  const FAILED_MINT: string := "Failed to mint tokens"
  const FAILED_BURN: string := "Failed to burn tokens"
  const DEFAULT_DECIMALS: int := 18
  const DEFAULT_NAME: string := "TempoMint"
  const DEFAULT_SYMBOL: string := "TMINT"

  datatype Result<T> = Ok(value: T) | Err(error: Error)

  /** What the deployed contract answers to each call: a value or a revert. Writes
      answer with the hash of the submitted transaction. */
  datatype Chain = Chain(
    balanceOf: string -> Result<int>,
    totalSupply: Result<int>,
    decimals: Result<int>,
    name: Result<string>,
    symbol: Result<string>,
    mint: (string, int) -> Result<string>,
    burn: int -> Result<string>)

  /** The ethers `formatUnits(value, decimals)` and `parseUnits(amount, decimals)`. */
  datatype Units = Units(
    format: (int, int) -> Result<string>,
    parse: (string, int) -> Result<int>)

  /** The contract calls a helper issues, in order. */
  datatype ContractCall =
    | BalanceOf(owner: string)
    | TotalSupply
    | Decimals
    | Name
    | Symbol
    | Mint(to: string, wei: int)
    | Burn(wei: int)

  /** A helper's result together with the contract calls it issued. */
  datatype Reading<T> = Reading(value: T, calls: seq<ContractCall>)

  datatype TokenInfo = TokenInfo(name: string, symbol: string, decimals: int, address: string)

  /** `getContract`: refuses exactly when no contract address is configured. */
  function GetContract(address: string): (r: Result<string>)
    ensures r.Err? <==> address == ""
    ensures r.Err? ==> r.error == NewError(NO_ADDRESS)
    ensures r.Ok? ==> r.value == address
  {
    if address == "" then Err(NewError(NO_ADDRESS)) else Ok(address)
  }

  /** The decimals a helper goes on with: the contract's answer, or 18 when
      `decimals()` fails. */
  function DecimalsOf(chain: Chain): (d: int)
    ensures chain.decimals.Err? ==> d == DEFAULT_DECIMALS
    ensures chain.decimals.Ok? ==> d == chain.decimals.value
  {
    if chain.decimals.Ok? then chain.decimals.value else DEFAULT_DECIMALS
  }

  /** `throw new Error(error.message || fallback)`. */
  function Rethrow(e: Error, fallback: string): (r: Error)
    ensures r.code == None && r.message.Some?
    ensures fallback != "" ==> r.message.value != ""
  {
    NewError(MessageOr(e, fallback))
  }

  /** A rethrown error keeps a non-empty message and nothing else: its code is lost. */
  lemma RethrowKeepsMessage(e: Error, fallback: string)
    requires e.message.Some? && e.message.value != ""
    ensures Rethrow(e, fallback) == NewError(e.message.value)
    ensures e.code.Some? ==> Rethrow(e, fallback) != e
  {
  }

  /** A read of an amount followed by `decimals()` and `formatUnits`: `"0"` when
      the address is missing or the read or the formatting fails. */
  function FormattedRead(address: string, read: Result<int>, first: ContractCall, chain: Chain, units: Units): (r: Reading<string>)
    ensures address == "" ==> r == Reading("0", [])
    ensures address != "" && read.Err? ==> r == Reading("0", [first])
    ensures address != "" && read.Ok? ==> r.calls == [first, Decimals]
    ensures address != "" && read.Ok? ==>
      r.value == (match units.format(read.value, DecimalsOf(chain))
                  case Ok(s) => s
                  case Err(_) => "0")
  {
    match GetContract(address)
    case Err(_) => Reading("0", [])
    case Ok(_) =>
      match read
      case Err(_) => Reading("0", [first])
      case Ok(raw) =>
        match units.format(raw, DecimalsOf(chain))
        case Ok(s) => Reading(s, [first, Decimals])
        case Err(_) => Reading("0", [first, Decimals])
  }

  /** `getBalance(owner)`: never fails; `"0"` on any failure. */
  function Balance(address: string, chain: Chain, units: Units, owner: string): Reading<string> {
    FormattedRead(address, chain.balanceOf(owner), BalanceOf(owner), chain, units)
  }

  /** `getTotalSupply()`: never fails; `"0"` on any failure. */
  function TotalSupplyOf(address: string, chain: Chain, units: Units): Reading<string> {
    FormattedRead(address, chain.totalSupply, TotalSupply, chain, units)
  }

  /** A failing `decimals()` does not stop a read: the amount is formatted with 18
      decimals. */
  lemma BalanceWithDefaultDecimals(address: string, chain: Chain, units: Units, owner: string, s: string)
    requires address != "" && chain.balanceOf(owner).Ok? && chain.decimals.Err?
    requires units.format(chain.balanceOf(owner).value, 18) == Ok(s)
    ensures Balance(address, chain, units, owner) == Reading(s, [BalanceOf(owner), Decimals])
  {
  }

  /** Whatever fails on the way, the balance shown is `"0"` and nothing is thrown. */
  lemma BalanceFailuresReadZero(address: string, chain: Chain, units: Units, owner: string)
    requires address == "" || chain.balanceOf(owner).Err?
      || units.format(chain.balanceOf(owner).value, DecimalsOf(chain)).Err?
    ensures Balance(address, chain, units, owner).value == "0"
  {
  }

  /** `getTokenInfo()`: decimals default to 18; `name()` is read first, and
      `symbol()` only when it succeeded; a failing name keeps both defaults, a
      failing symbol keeps the fetched name. A missing address gives all defaults. */
  function TokenInfoOf(address: string, chain: Chain): (r: Reading<TokenInfo>)
    ensures r.value.address == address
    ensures address == "" ==> r == Reading(TokenInfo(DEFAULT_NAME, DEFAULT_SYMBOL, DEFAULT_DECIMALS, address), [])
    ensures address != "" ==> r.value.decimals == DecimalsOf(chain)
    ensures address != "" ==> r.calls == [Decimals, Name] + (if chain.name.Ok? then [Symbol] else [])
    ensures chain.name.Err? ==> r.value.name == DEFAULT_NAME && r.value.symbol == DEFAULT_SYMBOL
    ensures address != "" && chain.name.Ok? ==>
      r.value.name == chain.name.value
      && r.value.symbol == (if chain.symbol.Ok? then chain.symbol.value else DEFAULT_SYMBOL)
  {
    match GetContract(address)
    case Err(_) => Reading(TokenInfo(DEFAULT_NAME, DEFAULT_SYMBOL, DEFAULT_DECIMALS, address), [])
    case Ok(_) =>
      match chain.name
      case Err(_) => Reading(TokenInfo(DEFAULT_NAME, DEFAULT_SYMBOL, DecimalsOf(chain), address), [Decimals, Name])
      case Ok(name) =>
        var symbol := if chain.symbol.Ok? then chain.symbol.value else DEFAULT_SYMBOL;
        Reading(TokenInfo(name, symbol, DecimalsOf(chain), address), [Decimals, Name, Symbol])
  }

  /** The common shape of `mintTokens` and `burnTokens`: the contract guard,
      `decimals()`, `parseUnits`, then the write; every failure is rethrown with
      its message or `fallback`. */
  function Write(address: string, chain: Chain, units: Units, amount: string,
                 call: int -> ContractCall, send: int -> Result<string>, fallback: string): (r: Reading<Result<string>>)
    requires fallback != ""
    ensures r.value.Err? ==> r.value.error.code == None && r.value.error.message.Some? && r.value.error.message.value != ""
    ensures address == "" ==> r == Reading(Err(NewError(NO_ADDRESS)), [])
    ensures address != "" ==> var wei := units.parse(amount, DecimalsOf(chain));
      r.calls == [Decimals] + (if wei.Ok? then [call(wei.value)] else [])
    ensures address != "" && units.parse(amount, DecimalsOf(chain)).Err? ==>
      r.value == Err(Rethrow(units.parse(amount, DecimalsOf(chain)).error, fallback))
    ensures r.value.Ok? <==>
      (address != "" && units.parse(amount, DecimalsOf(chain)).Ok?
       && send(units.parse(amount, DecimalsOf(chain)).value).Ok?)
    ensures r.value.Ok? ==> r.value == send(units.parse(amount, DecimalsOf(chain)).value)
    ensures address != "" && units.parse(amount, DecimalsOf(chain)).Ok? ==>
      var sent := send(units.parse(amount, DecimalsOf(chain)).value);
      sent.Err? ==> r.value == Err(Rethrow(sent.error, fallback))
  {
    match GetContract(address)
    case Err(e) =>
      RethrowKeepsMessage(e, fallback);
      Reading(Err(Rethrow(e, fallback)), [])
    case Ok(_) =>
      match units.parse(amount, DecimalsOf(chain))
      case Err(e) => Reading(Err(Rethrow(e, fallback)), [Decimals])
      case Ok(wei) =>
        match send(wei)
        case Ok(tx) => Reading(Ok(tx), [Decimals, call(wei)])
        case Err(e) => Reading(Err(Rethrow(e, fallback)), [Decimals, call(wei)])
  }

  function MintCall(to: string): int -> ContractCall {
    wei => Mint(to, wei)
  }

  function BurnCall(): int -> ContractCall {
    wei => Burn(wei)
  }

  /** `mintTokens(signer, to, amount)`. */
  function MintTx(address: string, chain: Chain, units: Units, to: string, amount: string): Reading<Result<string>> {
    Write(address, chain, units, amount, MintCall(to), wei => chain.mint(to, wei), FAILED_MINT)
  }

  /** `burnTokens(signer, amount)`. */
  function BurnTx(address: string, chain: Chain, units: Units, amount: string): Reading<Result<string>> {
    Write(address, chain, units, amount, BurnCall(), chain.burn, FAILED_BURN)
  }

  /** A wallet that refuses the mint transaction with code 4001 reaches the caller
      as a plain error: the message survives, the code does not. */
  lemma RejectedMintLosesCode(address: string, chain: Chain, units: Units, to: string, amount: string, wei: int, m: string)
    requires address != "" && units.parse(amount, DecimalsOf(chain)) == Ok(wei)
    requires chain.mint(to, wei) == Err(Error(Some(4001), Some(m))) && m != ""
    ensures MintTx(address, chain, units, to, amount).value == Err(NewError(m))
  {
  }

  // ---------------------------------------------------------------- the code

  /** The body shared by `getBalance` and `getTotalSupply`: `decimals` starts at 18
      and is overwritten only when `decimals()` answers. */
  method ReadAndFormat(address: string, read: Result<int>, first: ContractCall, chain: Chain, units: Units)
    returns (amount: string, calls: seq<ContractCall>)
    ensures Reading(amount, calls) == FormattedRead(address, read, first, chain, units)
  {
    calls := [];
    var contract := GetContract(address);
    if contract.Err? {
      return "0", calls;
    }
    calls := calls + [first];
    if read.Err? {
      return "0", calls;
    }
    var decimals := DEFAULT_DECIMALS;
    calls := calls + [Decimals];
    if chain.decimals.Ok? {
      decimals := chain.decimals.value;
    }
    var formatted := units.format(read.value, decimals);
    amount := if formatted.Ok? then formatted.value else "0";
  }

  method GetBalance(address: string, chain: Chain, units: Units, owner: string)
    returns (balance: string, calls: seq<ContractCall>)
    ensures Reading(balance, calls) == Balance(address, chain, units, owner)
  {
    balance, calls := ReadAndFormat(address, chain.balanceOf(owner), BalanceOf(owner), chain, units);
  }

  method GetTotalSupply(address: string, chain: Chain, units: Units)
    returns (supply: string, calls: seq<ContractCall>)
    ensures Reading(supply, calls) == TotalSupplyOf(address, chain, units)
  {
    supply, calls := ReadAndFormat(address, chain.totalSupply, TotalSupply, chain, units);
  }

  method GetTokenInfo(address: string, chain: Chain) returns (info: TokenInfo, calls: seq<ContractCall>)
    ensures Reading(info, calls) == TokenInfoOf(address, chain)
  {
    calls := [];
    var contract := GetContract(address);
    if contract.Err? {
      return TokenInfo(DEFAULT_NAME, DEFAULT_SYMBOL, DEFAULT_DECIMALS, address), calls;
    }
    var decimals := DEFAULT_DECIMALS;
    calls := calls + [Decimals];
    if chain.decimals.Ok? {
      decimals := chain.decimals.value;
    }
    var name := DEFAULT_NAME;
    var symbol := DEFAULT_SYMBOL;
    calls := calls + [Name];
    if chain.name.Ok? {
      name := chain.name.value;
      calls := calls + [Symbol];
      if chain.symbol.Ok? {
        symbol := chain.symbol.value;
      }
    }
    info := TokenInfo(name, symbol, decimals, address);
  }

  /** The body shared by `mintTokens` and `burnTokens`. */
  method SendWrite(address: string, chain: Chain, units: Units, amount: string,
                   call: int -> ContractCall, send: int -> Result<string>, fallback: string)
    returns (tx: Result<string>, calls: seq<ContractCall>)
    requires fallback != ""
    ensures Reading(tx, calls) == Write(address, chain, units, amount, call, send, fallback)
  {
    calls := [];
    var contract := GetContract(address);
    if contract.Err? {
      return Err(Rethrow(contract.error, fallback)), calls;
    }
    var decimals := DEFAULT_DECIMALS;
    calls := calls + [Decimals];
    if chain.decimals.Ok? {
      decimals := chain.decimals.value;
    }
    var amountWei := units.parse(amount, decimals);
    if amountWei.Err? {
      return Err(Rethrow(amountWei.error, fallback)), calls;
    }
    calls := calls + [call(amountWei.value)];
    var sent := send(amountWei.value);
    tx := if sent.Ok? then Ok(sent.value) else Err(Rethrow(sent.error, fallback));
  }

  method MintTokens(address: string, chain: Chain, units: Units, to: string, amount: string)
    returns (tx: Result<string>, calls: seq<ContractCall>)
    ensures Reading(tx, calls) == MintTx(address, chain, units, to, amount)
  {
    tx, calls := SendWrite(address, chain, units, amount, MintCall(to), wei => chain.mint(to, wei), FAILED_MINT);
  }

  method BurnTokens(address: string, chain: Chain, units: Units, amount: string)
    returns (tx: Result<string>, calls: seq<ContractCall>)
    ensures Reading(tx, calls) == BurnTx(address, chain, units, amount)
  {
    tx, calls := SendWrite(address, chain, units, amount, BurnCall(), chain.burn, FAILED_BURN);
  }
}
