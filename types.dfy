/**
 * The record shapes shared by the hooks and utilities: datasets and their
 * details as the storage service reports them, the balance record of the
 * warm-storage service, the derived storage metrics, and the all-zero
 * balances shown before anything has been fetched. Amounts are bigints in
 * the source and `int` here; `number` fields are `real` (exact) or, where
 * they can be infinite or NaN, `JsNumber.Num`.
 */
module Types {
  import opened Wrappers
  import opened JsNumber

  datatype Piece = Piece(rootId: int, rootCid: string, subRootCid: string, subRootOffset: int)

  datatype Provider = Provider(owner: string, pdpUrl: string)

  datatype DatasetDetails = DatasetDetails(id: int, roots: seq<Piece>, nextChallengeEpoch: int, pdpUrl: string)

  /** `rootMetadata` is `any[]` in the source; its entries are kept opaque as strings. */
  datatype DataSet = DataSet(
    railId: int,
    payer: string,
    payee: string,
    commissionBps: int,
    metadata: string,
    rootMetadata: seq<string>,
    clientDataSetId: int,
    withCDN: bool,
    pdpVerifierProofSetId: nat,
    nextRootId: int,
    currentRootCount: int,
    isLive: bool,
    isManaged: bool,
    details: Option<DatasetDetails>,
    pdpUrl: Option<string>,
    provider: Option<Provider>)

  datatype Costs = Costs(perEpoch: int, perDay: int, perMonth: int)

  /** The warm-storage balance record returned by the SDK. */
  datatype FilecoinWarmStorageBalance = FilecoinWarmStorageBalance(
    rateAllowanceNeeded: int,
    lockupAllowanceNeeded: int,
    currentRateAllowance: int,
    currentLockupAllowance: int,
    currentRateUsed: int,
    currentLockupUsed: int,
    sufficient: bool,
    message: Option<string>,
    costs: Costs,
    depositAmountNeeded: int)

  datatype StorageCalculationResult = StorageCalculationResult(
    rateNeeded: int,
    rateUsed: int,
    currentStorageBytes: int,
    currentStorageGB: real,
    totalLockupNeeded: int,
    depositNeeded: int,
    persistenceDaysLeft: Num,
    persistenceDaysLeftAtCurrentRate: Num,
    isRateSufficient: bool,
    isLockupSufficient: bool,
    isSufficient: bool,
    currentRateAllowanceGB: real,
    currentLockupAllowance: int)

  datatype UseBalancesResponse = UseBalancesResponse(
    filBalance: int,
    usdfcBalance: int,
    filecoinWarmStorageBalance: int,
    filBalanceFormatted: real,
    usdfcBalanceFormatted: real,
    filecoinWarmStorageBalanceFormatted: real,
    persistenceDaysLeft: Num,
    persistenceDaysLeftAtCurrentRate: Num,
    isSufficient: bool,
    isRateSufficient: bool,
    isLockupSufficient: bool,
    rateNeeded: int,
    totalLockupNeeded: int,
    depositNeeded: int,
    currentRateAllowanceGB: real,
    currentStorageGB: real,
    currentLockupAllowance: int)

  /**
   * The wallet connection the hooks read: whether a signer exists, the
   * account address, the chain id and the network name resolved from it.
   */
  datatype Session = Session(signer: bool, address: Option<string>, chainId: Option<int>, network: Option<string>)

  /**
   * Values the hooks import from the application's configuration and
   * utilities: the CDN preference and the one-time dataset creation fee.
   */
  datatype Config = Config(withCDN: bool, datasetCreationFee: int)

  /** The balances shown while nothing has been fetched yet. */
  function DefaultBalances(): (b: UseBalancesResponse)
    ensures b.filBalance == 0 && b.usdfcBalance == 0 && b.filecoinWarmStorageBalance == 0
    ensures b.rateNeeded == 0 && b.totalLockupNeeded == 0 && b.depositNeeded == 0 && b.currentLockupAllowance == 0
    ensures !b.isSufficient && !b.isRateSufficient && !b.isLockupSufficient
    ensures b.isSufficient == (b.isRateSufficient && b.isLockupSufficient)
    ensures b.filBalanceFormatted == 0.0 && b.usdfcBalanceFormatted == 0.0 && b.filecoinWarmStorageBalanceFormatted == 0.0
    ensures b.persistenceDaysLeft == Finite(0.0) && b.persistenceDaysLeftAtCurrentRate == Finite(0.0)
    ensures b.currentRateAllowanceGB == 0.0 && b.currentStorageGB == 0.0
  {
    UseBalancesResponse(
      filBalance := 0,
      usdfcBalance := 0,
      filecoinWarmStorageBalance := 0,
      filBalanceFormatted := 0.0,
      usdfcBalanceFormatted := 0.0,
      filecoinWarmStorageBalanceFormatted := 0.0,
      persistenceDaysLeft := Finite(0.0),
      persistenceDaysLeftAtCurrentRate := Finite(0.0),
      isSufficient := false,
      isRateSufficient := false,
      isLockupSufficient := false,
      rateNeeded := 0,
      totalLockupNeeded := 0,
      depositNeeded := 0,
      currentRateAllowanceGB := 0.0,
      currentStorageGB := 0.0,
      currentLockupAllowance := 0)
  }
}
