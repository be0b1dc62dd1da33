/** Orders, chain events, and the statuses derived for orders. */
module OrderTypes {
  import opened Wrappers

  type Byte = n: nat | n < 0x100
  type U32 = n: nat | n < 0x1_0000_0000
  type U64 = n: nat | n < 0x1_0000_0000_0000_0000
  type Address = n: nat | n < 0x1_0000000000_0000000000_0000000000_0000000000
  type U256 = n: nat | n < 0x1_0000000000000000_0000000000000000_0000000000000000_0000000000000000

  /** A 32-byte hash, left unbounded so that a collision-free hash function exists. */
  type Hash = nat

  datatype Chain = Rollup | Host

  datatype Output = Output(token: Address, amount: U256, recipient: Address, chainId: U32)

  datatype Permitted = Permitted(token: Address, amount: U256)

  /** A signed order. `hash` is its order hash, the rest is what its permit carries. */
  datatype Order = Order(hash: Hash, owner: Address, deadline: U64, permitted: seq<Permitted>, outputs: seq<Output>)

  datatype BlockTip = BlockTip(rollup: U64, host: U64)

  datatype FilledEvent = FilledEvent(chain: Chain, blockNumber: U64, txHash: Hash, outputs: seq<Output>)

  datatype MaybeBool = False | True | Unknown

  /** One token's balance (or allowance to Permit2) against the amount the order needs. */
  datatype TokenCheck =
    TokenCheck(sufficient: bool, token: Address, symbol: string, available: U256, required: U256)

  datatype TokenChecks = TokenChecks(allSufficient: MaybeBool, checkedAt: U64, checks: seq<TokenCheck>)

  datatype DeadlineCheck = DeadlineCheck(expiresIn: nat, deadline: U64, checkedAt: U64)

  datatype Diagnostics =
    Diagnostics(isInCache: MaybeBool, deadlineCheck: DeadlineCheck, balances: TokenChecks, allowances: TokenChecks)

  datatype ChainTransaction = ChainTransaction(chain: Chain, txHash: Hash)

  datatype FillOutput = FillOutput(token: Address, symbol: string, amount: U256, recipient: Address, chain: Chain)

  datatype FillInfo = FillInfo(
    blockNumber: U64,
    rollupInitiationTx: Option<Hash>,
    fillTx: Option<ChainTransaction>,
    outputs: seq<FillOutput>)

  datatype OrderStatus =
    | Pending(hash: Hash, owner: Address, diagnostics: Diagnostics)
    | Filled(hash: Hash, owner: Address, fillInfo: Option<FillInfo>)
    | Expired(hash: Hash, owner: Address, diagnostics: Diagnostics)
  {
    predicate IsTerminal() {
      Filled? || Expired?
    }

    predicate SameKind(other: OrderStatus) {
      Pending? == other.Pending? && Filled? == other.Filled? && Expired? == other.Expired?
    }
  }
}
