/** Stablecoin transfers: the chain of checks, the payload, and the job that is enqueued
    (internal/stablecoin/service.go). */
module Transfer {
  import opened Wrappers
  import opened Numerals
  import opened Queue
  import opened Store
  import opened Submission
  import Ledger
  import Amount
  import Calldata
  import Payments
  import Registry

  const UINT64_LIMIT: nat := 0x1_0000_0000_0000_0000
  const GAS_LIMIT := 100_000
  const MIN_EVM_RELAYER_WEI := 0x0B1A2BC2EC50000
  const MIN_SOLANA_RELAYER_LAMPORTS := 50_000_000

  datatype Req = Req(
    projectID: string, walletID: string, token: string, to: string, amount: string, chainID: string, chainType: string,
    gasless: bool, key: Option<string>)

  datatype Wallet = Wallet(chainType: string, isMaster: bool)

  /** A database look-up: it fails, finds nothing, or finds a value. */
  datatype Lookup<T> = Broken | Absent | Got(value: T)

  /** What the call sees of the world. The registry is asked three times, and its entry may change in between:
      before the amount check, for the balance, and for the payload. */
  datatype World = World(
    wallet: Lookup<Wallet>, first: Option<Registry.Entry>, second: Option<Registry.Entry>, third: Option<Registry.Entry>,
    relayer: Lookup<string>, relayerAgain: Lookup<string>, relayerBalance: Option<nat>, senderBalance: Option<nat>,
    freshID: string, createOk: bool, pushOk: bool)

  datatype Payload =
    | EvmPayload(contract: string, value: string, data: string, chainID: int, gasLimit: int, symbol: string, to: string, asked: string)
    | SolanaPayload(to: string, amount: nat, mint: string, gasless: bool, symbol: string, asked: string)

  datatype TransferError =
    | InvalidToken | UnsupportedChain | GaslessRequired | InvalidRecipient
    | WalletError | WalletNotFound | WrongChain | MasterWallet
    | NotRegistered | InvalidAmount(cause: Amount.AmountError)
    | RelayerError | NoRelayer | RelayerLow
    | BalanceError | ZeroBalance | Insufficient
    | EncodeFailed(reason: Calldata.EncodeError) | InvalidChainID

  // ---- Recipients ----

  predicate AnyHex(c: char) {
    '0' <= c <= '9' || 'a' <= c <= 'f' || 'A' <= c <= 'F'
  }

  predicate AllHex(s: string) {
    forall i :: 0 <= i < |s| ==> AnyHex(s[i])
  }

  function AfterPrefix(s: string): string {
    if |s| >= 2 && s[0] == '0' && (s[1] == 'x' || s[1] == 'X') then s[2..] else s
  }

  /** An optional 0x in either case, then 40 hexadecimal digits in either case. */
  predicate IsEvmAddress(s: string) {
    |AfterPrefix(s)| == 40 && AllHex(AfterPrefix(s))
  }

  predicate IsBase58(c: char) {
    '1' <= c <= '9' || ('A' <= c <= 'Z' && c != 'I' && c != 'O') || ('a' <= c <= 'z' && c != 'l')
  }

  predicate IsSolanaAddress(s: string) {
    32 <= |s| <= 44 && forall i :: 0 <= i < |s| ==> IsBase58(s[i])
  }

  lemma LowerHex(s: string)
    requires AllHex(s)
    ensures Calldata.IsHex(Calldata.Lower(s))
  {
    forall i | 0 <= i < |s| ensures Calldata.IsHexDigit(Calldata.Lower(s)[i]) {
      assert AnyHex(s[i]);
    }
  }

  /** A recipient that passes is one the calldata encoder accepts. */
  lemma EvmAddressEncodes(s: string)
    requires IsEvmAddress(s)
    ensures |Calldata.Normalised(s)| == 40 && Calldata.IsHex(Calldata.Normalised(s))
  {
    var digits := AfterPrefix(s);
    LowerHex(digits);
    assert Calldata.Normalised(s) == Calldata.Lower(digits) by {
      if |s| == 42 {
        assert Calldata.Lower(s)[2..] == Calldata.Lower(digits);
      } else {
        assert AnyHex(digits[1]);
      }
    }
  }

  // ---- The check chain ----

  function CheckedRelayer(req: Req, w: World): Option<TransferError> {
    if !req.gasless && req.chainType != "solana" then None
    else if w.relayer.Broken? then Some(RelayerError)
    else if w.relayer.Absent? then Some(NoRelayer)
    else if !w.relayerAgain.Got? || w.relayerBalance.None? then Some(RelayerError)
    else if w.relayerBalance.value < (if req.chainType == "evm" then MIN_EVM_RELAYER_WEI else MIN_SOLANA_RELAYER_LAMPORTS) then
      Some(RelayerLow)
    else None
  }

  /** The checks of the request's own text. */
  function CheckedText(req: Req): Option<TransferError> {
    if !Registry.Normal(Registry.Lower(Amount.TrimSpace(req.token))) then Some(InvalidToken)
    else if req.chainType != "evm" && req.chainType != "solana" then Some(UnsupportedChain)
    else if req.chainType == "solana" && !req.gasless then Some(GaslessRequired)
    else if !(if req.chainType == "evm" then IsEvmAddress(req.to) else IsSolanaAddress(req.to)) then Some(InvalidRecipient)
    else None
  }

  function CheckedWallet(req: Req, w: World): Option<TransferError> {
    if w.wallet.Broken? then Some(WalletError)
    else if w.wallet.Absent? then Some(TransferError.WalletNotFound)
    else if w.wallet.value.chainType != req.chainType then Some(WrongChain)
    else if w.wallet.value.isMaster then Some(MasterWallet)
    else None
  }

  function CheckedRequest(req: Req, w: World): Option<TransferError> {
    var bad := CheckedText(req);
    if bad.Some? then bad else CheckedWallet(req, w)
  }

  /** Uint64 keeps the low 64 bits. */
  function Uint64(n: nat): nat {
    n % UINT64_LIMIT
  }

  function BuiltEVM(req: Req, entry: Registry.Entry): Result<(string, Payload), TransferError> {
    match Amount.Parsed(req.amount, entry.decimals)
    case Err(e) => Err(InvalidAmount(e))
    case Ok(amount) =>
      match Calldata.EncodeERC20Transfer(req.to, amount)
      case Err(e) => Err(EncodeFailed(e))
      case Ok(data) =>
        match Payments.ScanInt(req.chainID)
        case None => Err(InvalidChainID)
        case Some(id) => Ok(("sign_tx_evm", EvmPayload(entry.contract, "0x0", data, id, GAS_LIMIT, entry.symbol, req.to, req.amount)))
  }

  function BuiltSolana(req: Req, entry: Registry.Entry): Result<(string, Payload), TransferError> {
    match Amount.Parsed(req.amount, entry.decimals)
    case Err(e) => Err(InvalidAmount(e))
    case Ok(amount) =>
      Ok(("sign_tx_solana", SolanaPayload(req.to, Uint64(amount), entry.contract, true, entry.symbol, req.amount)))
  }

  function CheckedBalance(w: World, amount: nat): Option<TransferError> {
    if w.second.None? || w.senderBalance.None? then Some(BalanceError)
    else if w.senderBalance.value == 0 then Some(ZeroBalance)
    else if w.senderBalance.value < amount then Some(Insufficient)
    else None
  }

  /** Everything before the job is created: the first check that fails, or the operation and the payload. */
  function Prepared(req: Req, w: World): Result<(string, Payload), TransferError> {
    var bad := CheckedRequest(req, w);
    if bad.Some? then Err(bad.value)
    else if w.first.None? then Err(NotRegistered)
    else
      match Amount.Parsed(req.amount, w.first.value.decimals)
      case Err(e) => Err(InvalidAmount(e))
      case Ok(amount) =>
        var bad := CheckedRelayer(req, w);
        if bad.Some? then Err(bad.value)
        else
          var bad := CheckedBalance(w, amount);
          if bad.Some? then Err(bad.value)
          else if w.third.None? then Err(NotRegistered)
          else if req.chainType == "evm" then BuiltEVM(req, w.third.value)
          else BuiltSolana(req, w.third.value)
  }

  // ---- The checks as a list ----

  datatype Check =
    | TokenValid | ChainSupported | SolanaGasless | RecipientValid
    | WalletRead | WalletPresent | WalletOnChain | WalletNotMaster
    | TokenRegistered | AmountParses
    | RelayerRead | RelayerPresent | RelayerReadAgain | RelayerFunded
    | BalanceRead | BalancePositive | BalanceCovers
    | StillRegistered | StillParses | PayloadEncodes | ChainIDParses

  /** The order of the checks. */
  function Rank(c: Check): nat {
    match c
    case TokenValid => 0
    case ChainSupported => 1
    case SolanaGasless => 2
    case RecipientValid => 3
    case WalletRead => 4
    case WalletPresent => 5
    case WalletOnChain => 6
    case WalletNotMaster => 7
    case TokenRegistered => 8
    case AmountParses => 9
    case RelayerRead => 10
    case RelayerPresent => 11
    case RelayerReadAgain => 12
    case RelayerFunded => 13
    case BalanceRead => 14
    case BalancePositive => 15
    case BalanceCovers => 16
    case StillRegistered => 17
    case StillParses => 18
    case PayloadEncodes => 19
    case ChainIDParses => 20
  }

  predicate NeedsRelayer(req: Req) {
    req.gasless || req.chainType == "solana"
  }

  /** Hexadecimal digits from there to the end. */
  predicate HexFrom(to: string, from: nat) {
    forall i :: from <= i < |to| ==> '0' <= to[i] <= '9' || 'a' <= to[i] <= 'f' || 'A' <= to[i] <= 'F'
  }

  /** Forty hexadecimal digits, after nothing, "0x" or "0X". */
  predicate IsEvmRecipient(to: string) {
    || (|to| == 40 && HexFrom(to, 0))
    || (|to| == 42 && (to[..2] == "0x" || to[..2] == "0X") && HexFrom(to, 2))
  }

  lemma HexFromIff(to: string, from: nat)
    requires from <= |to|
    ensures AllHex(to[from..]) <==> HexFrom(to, from)
  {
    if AllHex(to[from..]) {
      forall i | from <= i < |to| ensures AnyHex(to[i]) { assert to[i] == to[from..][i - from]; }
    }
  }

  lemma PrefixIff(to: string)
    requires |to| >= 2
    ensures to[..2] == "0x" <==> to[0] == '0' && to[1] == 'x'
    ensures to[..2] == "0X" <==> to[0] == '0' && to[1] == 'X'
  {
    var prefix := to[..2];
    assert prefix[0] == to[0] && prefix[1] == to[1];
  }

  lemma EvmRecipientIff(to: string)
    ensures IsEvmAddress(to) <==> IsEvmRecipient(to)
  {
    if |to| == 42 {
      PrefixIff(to);
      HexFromIff(to, 2);
    } else if |to| == 40 {
      HexFromIff(to, 0);
      assert to[0..] == to;
      if AfterPrefix(to) != to { assert !AnyHex(to[1]); }
    }
  }

  /** Letters and digits without the four that are easily confused. */
  predicate IsSolanaRecipient(to: string) {
    32 <= |to| <= 44 && forall i :: 0 <= i < |to| ==>
      ('0' <= to[i] <= '9' || 'A' <= to[i] <= 'Z' || 'a' <= to[i] <= 'z') && to[i] !in "0OIl"
  }

  lemma SolanaRecipientIff(to: string)
    ensures IsSolanaAddress(to) <==> IsSolanaRecipient(to)
  {
  }

  /** What each check asks for. */
  predicate Passes(c: Check, req: Req, w: World) {
    match c
    case TokenValid =>
      var token := Registry.Lower(Amount.TrimSpace(req.token));
      2 <= |token| <= 10 && forall i :: 0 <= i < |token| ==> 'a' <= token[i] <= 'z' || '0' <= token[i] <= '9'
    case ChainSupported => req.chainType == "evm" || req.chainType == "solana"
    case SolanaGasless => req.chainType == "solana" ==> req.gasless
    case RecipientValid => if req.chainType == "evm" then IsEvmRecipient(req.to) else IsSolanaRecipient(req.to)
    case WalletRead => !w.wallet.Broken?
    case WalletPresent => w.wallet.Got?
    case WalletOnChain => w.wallet.Got? && w.wallet.value.chainType == req.chainType
    case WalletNotMaster => w.wallet.Got? && !w.wallet.value.isMaster
    case TokenRegistered => w.first.Some?
    case AmountParses => w.first.Some? && Amount.Parsed(req.amount, w.first.value.decimals).Ok?
    case RelayerRead => NeedsRelayer(req) ==> !w.relayer.Broken?
    case RelayerPresent => NeedsRelayer(req) ==> w.relayer.Got?
    case RelayerReadAgain => NeedsRelayer(req) ==> w.relayerAgain.Got? && w.relayerBalance.Some?
    case RelayerFunded => NeedsRelayer(req) ==>
      w.relayerBalance.Some? && w.relayerBalance.value >= (if req.chainType == "evm" then 50_000_000_000_000_000 else 50_000_000)
    case BalanceRead => w.second.Some? && w.senderBalance.Some?
    case BalancePositive => w.senderBalance.Some? && w.senderBalance.value > 0
    case BalanceCovers => w.senderBalance.Some? && w.first.Some? && Amount.Parsed(req.amount, w.first.value.decimals).Ok?
      && w.senderBalance.value >= Amount.Parsed(req.amount, w.first.value.decimals).value
    case StillRegistered => w.third.Some?
    case StillParses => w.third.Some? && Amount.Parsed(req.amount, w.third.value.decimals).Ok?
    case PayloadEncodes => req.chainType == "evm" && w.third.Some? && Amount.Parsed(req.amount, w.third.value.decimals).Ok? ==>
      Amount.Parsed(req.amount, w.third.value.decimals).value < Calldata.UINT256_LIMIT
    case ChainIDParses => req.chainType == "evm" ==> Payments.ScanInt(req.chainID).Some?
  }

  /** The amount is refused, for this cause. */
  predicate ParsesAs(amount: string, decimals: nat, e: TransferError) {
    Amount.Parsed(amount, decimals).Err? && e == InvalidAmount(Amount.Parsed(amount, decimals).error)
  }

  /** How a check that fails is answered. */
  predicate Answers(c: Check, e: TransferError, req: Req, w: World) {
    match c
    case TokenValid => e == InvalidToken
    case ChainSupported => e == UnsupportedChain
    case SolanaGasless => e == GaslessRequired
    case RecipientValid => e == InvalidRecipient
    case WalletRead => e == WalletError
    case WalletPresent => e == TransferError.WalletNotFound
    case WalletOnChain => e == WrongChain
    case WalletNotMaster => e == MasterWallet
    case TokenRegistered => e == NotRegistered
    case AmountParses => w.first.Some? && ParsesAs(req.amount, w.first.value.decimals, e)
    case RelayerRead => e == RelayerError
    case RelayerPresent => e == NoRelayer
    case RelayerReadAgain => e == RelayerError
    case RelayerFunded => e == RelayerLow
    case BalanceRead => e == BalanceError
    case BalancePositive => e == ZeroBalance
    case BalanceCovers => e == Insufficient
    case StillRegistered => e == NotRegistered
    case StillParses => w.third.Some? && ParsesAs(req.amount, w.third.value.decimals, e)
    case PayloadEncodes => e == EncodeFailed(Calldata.AmountTooLarge)
    case ChainIDParses => e == InvalidChainID
  }

  /** Of the checks that rank from lo on and below hi, this is the first that fails. */
  ghost predicate FailsFirst(c: Check, lo: nat, hi: nat, req: Req, w: World) {
    lo <= Rank(c) < hi && !Passes(c, req, w) && AllPass(lo, Rank(c), req, w)
  }

  ghost predicate AllPass(lo: nat, hi: nat, req: Req, w: World) {
    forall c :: lo <= Rank(c) < hi ==> Passes(c, req, w)
  }

  /** Either all these checks pass and there is no error, or the first that fails answers. */
  ghost predicate Decides(lo: nat, hi: nat, req: Req, w: World, bad: Option<TransferError>) {
    if bad.None? then AllPass(lo, hi, req, w)
    else exists c :: FailsFirst(c, lo, hi, req, w) && Answers(c, bad.value, req, w)
  }

  lemma RelayerChecks(req: Req, w: World)
    requires Passes(ChainSupported, req, w)
    ensures Decides(10, 14, req, w, CheckedRelayer(req, w))
  {
    var bad := CheckedRelayer(req, w);
    if bad.Some? {
      var c := if w.relayer.Broken? then RelayerRead else if w.relayer.Absent? then RelayerPresent
               else if bad.value == RelayerLow then RelayerFunded else RelayerReadAgain;
      assert FailsFirst(c, 10, 14, req, w);
    }
  }

  lemma BalanceChecks(req: Req, w: World)
    requires Passes(AmountParses, req, w)
    ensures Decides(14, 17, req, w, CheckedBalance(w, Amount.Parsed(req.amount, w.first.value.decimals).value))
  {
    var bad := CheckedBalance(w, Amount.Parsed(req.amount, w.first.value.decimals).value);
    AllPassNone(14, req, w);
    if !Passes(BalanceRead, req, w) {
      FailsAt(BalanceRead, 14, 17, req, w, bad);
    } else {
      OneMore(BalanceRead, 14, req, w);
      if !Passes(BalancePositive, req, w) {
        FailsAt(BalancePositive, 14, 17, req, w, bad);
      } else {
        OneMore(BalancePositive, 14, req, w);
        if bad.None? { OneMore(BalanceCovers, 14, req, w); } else { FailsAt(BalanceCovers, 14, 17, req, w, bad); }
      }
    }
  }

  function ErrorOf<T>(r: Result<T, TransferError>): Option<TransferError> {
    if r.Ok? then None else Some(r.error)
  }

  function Built(req: Req, entry: Registry.Entry): Result<(string, Payload), TransferError> {
    if req.chainType == "evm" then BuiltEVM(req, entry) else BuiltSolana(req, entry)
  }

  lemma EncodingChecked(req: Req, entry: Registry.Entry)
    requires IsEvmAddress(req.to) && Amount.Parsed(req.amount, entry.decimals).Ok?
    ensures var amount := Amount.Parsed(req.amount, entry.decimals).value;
      && (Calldata.EncodeERC20Transfer(req.to, amount).Ok? <==> amount < Calldata.UINT256_LIMIT)
      && (Calldata.EncodeERC20Transfer(req.to, amount).Err? ==>
            Calldata.EncodeERC20Transfer(req.to, amount).error == Calldata.AmountTooLarge)
  {
    EvmAddressEncodes(req.to);
    Calldata.EncodeSucceedsIff(req.to, Amount.Parsed(req.amount, entry.decimals).value);
  }

  lemma Sooner(lo: nat, mid: nat, hi: nat, req: Req, w: World, bad: Option<TransferError>)
    requires Decides(lo, mid, req, w, bad) && bad.Some? && mid <= hi
    ensures Decides(lo, hi, req, w, bad)
  {
    var c :| FailsFirst(c, lo, mid, req, w) && Answers(c, bad.value, req, w);
    assert FailsFirst(c, lo, hi, req, w);
  }

  lemma Later(lo: nat, mid: nat, hi: nat, req: Req, w: World, bad: Option<TransferError>)
    requires AllPass(lo, mid, req, w) && Decides(mid, hi, req, w, bad) && lo <= mid
    ensures Decides(lo, hi, req, w, bad)
  {
    if bad.Some? {
      var c :| FailsFirst(c, mid, hi, req, w) && Answers(c, bad.value, req, w);
      assert FailsFirst(c, lo, hi, req, w);
    }
  }

  lemma FailsAt(c: Check, lo: nat, hi: nat, req: Req, w: World, bad: Option<TransferError>)
    requires AllPass(lo, Rank(c), req, w) && !Passes(c, req, w) && lo <= Rank(c) < hi && bad.Some? && Answers(c, bad.value, req, w)
    ensures Decides(lo, hi, req, w, bad)
  {
    assert FailsFirst(c, lo, hi, req, w);
  }

  lemma OneMore(c: Check, lo: nat, req: Req, w: World)
    requires AllPass(lo, Rank(c), req, w) && Passes(c, req, w)
    ensures AllPass(lo, Rank(c) + 1, req, w)
  {
    forall d | lo <= Rank(d) < Rank(c) + 1 ensures Passes(d, req, w) {
      if Rank(d) == Rank(c) { SameRank(c, d); }
    }
  }

  lemma SameRank(c: Check, d: Check)
    requires Rank(c) == Rank(d)
    ensures c == d
  {
  }

  lemma SolanaBuilds(req: Req, w: World)
    requires w.third.Some? && req.chainType != "evm"
    ensures var bad := ErrorOf(Built(req, w.third.value));
      if !Passes(StillParses, req, w) then bad.Some? && ParsesAs(req.amount, w.third.value.decimals, bad.value) else bad == None
    ensures Passes(PayloadEncodes, req, w) && Passes(ChainIDParses, req, w)
  {
  }

  /** The error of the payload's construction, in the order of its steps. */
  predicate StepsFail(req: Req, entry: Registry.Entry, bad: Option<TransferError>) {
    var amount := Amount.Parsed(req.amount, entry.decimals);
    && (amount.Err? ==> bad == Some(InvalidAmount(amount.error)))
    && (amount.Ok? && amount.value >= Calldata.UINT256_LIMIT ==> bad == Some(EncodeFailed(Calldata.AmountTooLarge)))
    && (amount.Ok? && amount.value < Calldata.UINT256_LIMIT ==>
          bad == if Payments.ScanInt(req.chainID).None? then Some(InvalidChainID) else None)
  }

  lemma EvmErrors(req: Req, entry: Registry.Entry)
    requires IsEvmAddress(req.to)
    ensures StepsFail(req, entry, ErrorOf(BuiltEVM(req, entry)))
  {
    if Amount.Parsed(req.amount, entry.decimals).Ok? { EncodingChecked(req, entry); }
  }

  lemma EvmBuilds(req: Req, w: World, bad: Option<TransferError>)
    requires w.third.Some? && req.chainType == "evm" && StepsFail(req, w.third.value, bad)
    ensures if !Passes(StillParses, req, w) then bad.Some? && ParsesAs(req.amount, w.third.value.decimals, bad.value)
      else if !Passes(PayloadEncodes, req, w) then bad == Some(EncodeFailed(Calldata.AmountTooLarge))
      else if !Passes(ChainIDParses, req, w) then bad == Some(InvalidChainID)
      else bad == None
  {
  }

  lemma BuildChecks(req: Req, w: World)
    requires w.third.Some? && Passes(RecipientValid, req, w)
    ensures Decides(18, 21, req, w, ErrorOf(Built(req, w.third.value)))
  {
    var bad := ErrorOf(Built(req, w.third.value));
    if req.chainType == "evm" {
      EvmRecipientIff(req.to);
      EvmErrors(req, w.third.value);
      EvmBuilds(req, w, bad);
    } else {
      SolanaBuilds(req, w);
    }
    AllPassNone(18, req, w);
    if !Passes(StillParses, req, w) {
      FailsAt(StillParses, 18, 21, req, w, bad);
    } else {
      OneMore(StillParses, 18, req, w);
      if !Passes(PayloadEncodes, req, w) {
        FailsAt(PayloadEncodes, 18, 21, req, w, bad);
      } else {
        OneMore(PayloadEncodes, 18, req, w);
        if !Passes(ChainIDParses, req, w) {
          FailsAt(ChainIDParses, 18, 21, req, w, bad);
        } else {
          OneMore(ChainIDParses, 18, req, w);
        }
      }
    }
  }

  lemma AllPassNone(lo: nat, req: Req, w: World)
    ensures AllPass(lo, lo, req, w)
  {
  }

  lemma RecipientPassesIff(req: Req, w: World)
    ensures Passes(RecipientValid, req, w) <==> if req.chainType == "evm" then IsEvmAddress(req.to) else IsSolanaAddress(req.to)
  {
    EvmRecipientIff(req.to);
    SolanaRecipientIff(req.to);
  }

  lemma TextChecks(req: Req, w: World)
    ensures Decides(0, 4, req, w, CheckedText(req))
  {
    var bad := CheckedText(req);
    AllPassNone(0, req, w);
    RecipientPassesIff(req, w);
    if bad == Some(InvalidToken) {
      FailsAt(TokenValid, 0, 4, req, w, bad);
    } else {
      OneMore(TokenValid, 0, req, w);
      if bad == Some(UnsupportedChain) {
        FailsAt(ChainSupported, 0, 4, req, w, bad);
      } else {
        OneMore(ChainSupported, 0, req, w);
        if bad == Some(GaslessRequired) {
          FailsAt(SolanaGasless, 0, 4, req, w, bad);
        } else {
          OneMore(SolanaGasless, 0, req, w);
          if bad.Some? { FailsAt(RecipientValid, 0, 4, req, w, bad); } else { OneMore(RecipientValid, 0, req, w); }
        }
      }
    }
  }

  lemma WalletChecks(req: Req, w: World)
    ensures Decides(4, 8, req, w, CheckedWallet(req, w))
  {
    var bad := CheckedWallet(req, w);
    if bad.Some? {
      var c := if bad.value == WalletError then WalletRead else if bad.value == TransferError.WalletNotFound then WalletPresent
               else if bad.value == WrongChain then WalletOnChain else WalletNotMaster;
      assert FailsFirst(c, 4, 8, req, w);
    }
  }

  lemma RequestChecks(req: Req, w: World)
    ensures Decides(0, 8, req, w, CheckedRequest(req, w))
  {
    TextChecks(req, w);
    WalletChecks(req, w);
    if CheckedText(req).Some? {
      Sooner(0, 4, 8, req, w, CheckedText(req));
    } else {
      Later(0, 4, 8, req, w, CheckedWallet(req, w));
    }
  }

  /** What is left of the checks once the amount is parsed, and once the relayer was looked at. */
  function RestFromRelayer(req: Req, w: World, amount: nat): Option<TransferError> {
    var bad := CheckedRelayer(req, w);
    if bad.Some? then bad else RestFromBalance(req, w, amount)
  }

  function RestFromBalance(req: Req, w: World, amount: nat): Option<TransferError> {
    var bad := CheckedBalance(w, amount);
    if bad.Some? then bad
    else if w.third.None? then Some(NotRegistered)
    else ErrorOf(Built(req, w.third.value))
  }

  lemma ChecksFromBalance(req: Req, w: World)
    requires Passes(AmountParses, req, w) && Passes(RecipientValid, req, w) && Passes(ChainSupported, req, w)
    ensures Decides(14, 21, req, w, RestFromBalance(req, w, Amount.Parsed(req.amount, w.first.value.decimals).value))
  {
    var amount := Amount.Parsed(req.amount, w.first.value.decimals).value;
    var rest := RestFromBalance(req, w, amount);
    BalanceChecks(req, w);
    if CheckedBalance(w, amount).Some? {
      Sooner(14, 17, 21, req, w, rest);
    } else if w.third.None? {
      FailsAt(StillRegistered, 14, 21, req, w, rest);
    } else {
      BuildChecks(req, w);
      Later(14, 18, 21, req, w, rest);
    }
  }

  lemma ChecksFromRelayer(req: Req, w: World)
    requires Passes(AmountParses, req, w) && Passes(RecipientValid, req, w) && Passes(ChainSupported, req, w)
    ensures Decides(10, 21, req, w, RestFromRelayer(req, w, Amount.Parsed(req.amount, w.first.value.decimals).value))
  {
    var rest := RestFromRelayer(req, w, Amount.Parsed(req.amount, w.first.value.decimals).value);
    RelayerChecks(req, w);
    if CheckedRelayer(req, w).Some? {
      Sooner(10, 14, 21, req, w, rest);
    } else {
      ChecksFromBalance(req, w);
      Later(10, 14, 21, req, w, rest);
    }
  }

  /** What is left once the request itself is checked. */
  function RestFromRegistry(req: Req, w: World): Option<TransferError> {
    if w.first.None? then Some(NotRegistered)
    else
      match Amount.Parsed(req.amount, w.first.value.decimals)
      case Err(e) => Some(InvalidAmount(e))
      case Ok(amount) => RestFromRelayer(req, w, amount)
  }

  lemma PreparedInStages(req: Req, w: World)
    ensures ErrorOf(Prepared(req, w)) == if CheckedRequest(req, w).Some? then CheckedRequest(req, w) else RestFromRegistry(req, w)
  {
  }

  lemma ChecksFromRegistry(req: Req, w: World)
    requires Passes(RecipientValid, req, w) && Passes(ChainSupported, req, w)
    ensures Decides(8, 21, req, w, RestFromRegistry(req, w))
  {
    var rest := RestFromRegistry(req, w);
    AllPassNone(8, req, w);
    if !Passes(TokenRegistered, req, w) {
      FailsAt(TokenRegistered, 8, 21, req, w, rest);
    } else {
      OneMore(TokenRegistered, 8, req, w);
      if !Passes(AmountParses, req, w) {
        FailsAt(AmountParses, 8, 21, req, w, rest);
      } else {
        OneMore(AmountParses, 8, req, w);
        ChecksFromRelayer(req, w);
        Later(8, 10, 21, req, w, rest);
      }
    }
  }

  /** A transfer is accepted for signing if and only if all its checks pass; otherwise it is answered by the first check, in
      their order, that fails. */
  lemma ChecksDecide(req: Req, w: World)
    ensures Decides(0, 21, req, w, ErrorOf(Prepared(req, w)))
  {
    PreparedInStages(req, w);
    RequestChecks(req, w);
    if CheckedRequest(req, w).Some? {
      Sooner(0, 8, 21, req, w, CheckedRequest(req, w));
    } else {
      assert Passes(RecipientValid, req, w) && Passes(ChainSupported, req, w);
      ChecksFromRegistry(req, w);
      Later(0, 8, 21, req, w, RestFromRegistry(req, w));
    }
  }

  datatype Answer = Rejected(error: TransferError) | Replied(reply: Reply)

  /** `marshal` stands for json.Marshal of the payload. */
  ghost function Transferred(q: Lists, rows: Table, req: Req, w: World, marshal: Payload -> string): (Lists, Table, Answer) {
    match Prepared(req, w)
    case Err(e) => (q, rows, Rejected(e))
    case Ok((operation, payload)) =>
      var (q', rows', reply) :=
        Entered(q, rows, req.projectID, req.walletID, operation, marshal(payload), req.key, w.freshID, w.createOk, w.pushOk);
      (q', rows', Replied(reply))
  }

  // ---- Amount fidelity ----

  /** The amount a payload moves: what its calldata decodes to, or its amount field. */
  function Moved(p: Payload): Option<nat> {
    match p
    case EvmPayload(_, _, data, _, _, _, _, _) =>
      (match Calldata.Decoded(data) case Some(t) => Some(t.amount) case None => None)
    case SolanaPayload(_, amount, _, _, _, _) => Some(amount)
  }

  function Receiver(p: Payload): Option<string> {
    match p
    case EvmPayload(_, _, data, _, _, _, _, _) =>
      (match Calldata.Decoded(data) case Some(t) => Some(t.to) case None => None)
    case SolanaPayload(to, _, _, _, _, _) => Some(to)
  }

  lemma {:induction false} ShrinkOfTenfold(n: nat, k: nat)
    ensures Shrink(10 * n, k) >= 10 * Shrink(n, k)
    decreases k
  {
    if k > 0 {
      ShrinkOfTenfold(n / 10, k - 1);
      ShrinkMonotone(10 * (n / 10), 10 * n / 10, k - 1);
    }
  }

  lemma {:induction false} ShrinkMonotone(a: nat, b: nat, k: nat)
    requires a <= b
    ensures Shrink(a, k) <= Shrink(b, k)
    decreases k
  {
    if k > 0 { ShrinkMonotone(a / 10, b / 10, k - 1); }
  }

  /** The same digits mean strictly more units when the token has more decimals. */
  lemma {:induction false} UnitsGrow(t: string, d1: nat, d2: nat)
    requires AllDigits(Amount.IntPart(t)) && AllDigits(Amount.FracPart(t)) && d1 < d2 && Amount.Units(t, d1) > 0
    ensures Amount.Units(t, d2) > Amount.Units(t, d1)
    decreases d2
  {
    var k := |Amount.FracPart(t)|;
    ShrinkOfTenfold(Scale(Amount.Written(t), d2 - 1), k);
    if d1 < d2 - 1 { UnitsGrow(t, d1, d2 - 1); }
  }

  /** Parsing one amount string with two numbers of decimals gives the same amount only if they are equal. */
  lemma SameAmountIffSameDecimals(amount: string, d1: nat, d2: nat)
    requires Amount.Parsed(amount, d1).Ok? && Amount.Parsed(amount, d2).Ok?
    ensures Amount.Parsed(amount, d1) == Amount.Parsed(amount, d2) <==> d1 == d2
  {
    var t := Amount.TrimSpace(amount);
    if d1 < d2 { UnitsGrow(t, d1, d2); }
    if d2 < d1 { UnitsGrow(t, d2, d1); }
  }

  /** The calldata of a payload moves what the third entry's decimals make of the request. */
  lemma EvmPayloadMoves(req: Req, entry: Registry.Entry)
    requires IsEvmAddress(req.to)
    ensures BuiltEVM(req, entry).Ok? ==>
      var p := BuiltEVM(req, entry).value.1;
      && Amount.Parsed(req.amount, entry.decimals).Ok?
      && Moved(p) == Some(Amount.Parsed(req.amount, entry.decimals).value)
      && Receiver(p) == Some(Calldata.Normalised(req.to)) && p.contract == entry.contract
  {
    if BuiltEVM(req, entry).Ok? {
      var amount := Amount.Parsed(req.amount, entry.decimals).value;
      EvmAddressEncodes(req.to);
      Calldata.EncodeSucceedsIff(req.to, amount);
      Calldata.CalldataRoundTrip(req.to, amount);
    }
  }

  /** What else an accepted EVM payload carries: no value, the chain of the request as a number, the fixed gas limit, and
      the symbol, recipient and amount it echoes. */
  lemma EvmPayloadCarries(req: Req, w: World, n: Ledger.Int64)
    requires req.chainType == "evm" && Prepared(req, w).Ok?
    ensures var (operation, p) := Prepared(req, w).value;
      && operation == "sign_tx_evm" && p.EvmPayload? && w.third.Some?
      && p.contract == w.third.value.contract && p.symbol == w.third.value.symbol
      && p.value == "0x0" && p.gasLimit == 100_000 && p.to == req.to && p.asked == req.amount
      && (req.chainID == Amount.PrintInt(n) ==> p.chainID == n)
  {
    assert w.third.Some? && Prepared(req, w) == BuiltEVM(req, w.third.value);
    BuiltEvmCarries(req, w.third.value, n);
  }

  lemma BuiltEvmCarries(req: Req, entry: Registry.Entry, n: Ledger.Int64)
    requires BuiltEVM(req, entry).Ok?
    ensures var (operation, p) := BuiltEVM(req, entry).value;
      && operation == "sign_tx_evm" && p.EvmPayload? && p.contract == entry.contract && p.symbol == entry.symbol
      && p.value == "0x0" && p.gasLimit == 100_000 && p.to == req.to && p.asked == req.amount
      && (req.chainID == Amount.PrintInt(n) ==> p.chainID == n)
  {
    ScanOfPrinted(n);
    assert Payments.ScanInt(req.chainID).Some?;
  }

  lemma ScanOfPrinted(n: Ledger.Int64)
    ensures Payments.ScanInt(Amount.PrintInt(n)).Some? ==> Payments.ScanInt(Amount.PrintInt(n)) == Some(n)
  {
    Payments.MetadataRoundTrip(n);
  }

  /** A Solana payload: the mint, the requested recipient, and the relayer as fee payer. */
  lemma SolanaPayloadCarries(req: Req, w: World)
    requires req.chainType == "solana" && Prepared(req, w).Ok?
    ensures var (operation, p) := Prepared(req, w).value;
      && operation == "sign_tx_solana" && p.SolanaPayload? && w.third.Some?
      && p.mint == w.third.value.contract && p.symbol == w.third.value.symbol
      && p.to == req.to && p.asked == req.amount && p.gasless
  {
  }

  /** The amount the checks were made on. */
  function CheckedAmount(req: Req, w: World): Result<nat, Amount.AmountError>
    requires w.first.Some?
  {
    Amount.Parsed(req.amount, w.first.value.decimals)
  }

  /** On EVM the payload goes to the requested address, and moves exactly the amount that was checked against the
      balance if and only if the token's decimals were the same at the check and at the payload. */
  lemma EvmAmountIffDecimals(req: Req, w: World)
    requires req.chainType == "evm" && Prepared(req, w).Ok?
    ensures w.first.Some? && w.third.Some? && w.senderBalance.Some? && CheckedAmount(req, w).Ok?
    ensures var p := Prepared(req, w).value.1;
      && Receiver(p) == Some(Calldata.Normalised(req.to))
      && 0 < CheckedAmount(req, w).value <= w.senderBalance.value
      && (Moved(p) == Some(CheckedAmount(req, w).value) <==> w.third.value.decimals == w.first.value.decimals)
  {
    EvmPayloadMoves(req, w.third.value);
    SameAmountIffSameDecimals(req.amount, w.first.value.decimals, w.third.value.decimals);
  }

  lemma SolanaPayloadMoves(req: Req, entry: Registry.Entry)
    ensures BuiltSolana(req, entry).Ok? ==>
      var p := BuiltSolana(req, entry).value.1;
      && Amount.Parsed(req.amount, entry.decimals).Ok? && Receiver(p) == Some(req.to)
      && Moved(p) == Some(Uint64(Amount.Parsed(req.amount, entry.decimals).value))
  {
  }

  lemma WrapsToIff(checked: nat, now: nat)
    requires checked < UINT64_LIMIT
    ensures Uint64(now) == checked <==> now == checked || (now >= UINT64_LIMIT && now % UINT64_LIMIT == checked)
  {
  }

  /** On Solana, where the balance is a uint64, the payload moves exactly the checked amount if and only if the decimals
      agree, or what the third entry's decimals make of the request exceeds 64 bits and wraps round to it. */
  lemma SolanaAmountIff(req: Req, w: World)
    requires req.chainType == "solana" && Prepared(req, w).Ok?
    requires w.senderBalance.Some? ==> w.senderBalance.value < UINT64_LIMIT
    ensures w.first.Some? && w.third.Some? && w.senderBalance.Some? && CheckedAmount(req, w).Ok?
    ensures Amount.Parsed(req.amount, w.third.value.decimals).Ok?
    ensures var (p, checked, now) := (Prepared(req, w).value.1, CheckedAmount(req, w).value,
                                      Amount.Parsed(req.amount, w.third.value.decimals).value);
      && Receiver(p) == Some(req.to)
      && 0 < checked <= w.senderBalance.value
      && (Moved(p) == Some(checked) <==>
          (w.third.value.decimals == w.first.value.decimals || (now >= UINT64_LIMIT && now % UINT64_LIMIT == checked)))
  {
    SolanaPayloadMoves(req, w.third.value);
    SameAmountIffSameDecimals(req.amount, w.first.value.decimals, w.third.value.decimals);
    WrapsToIff(CheckedAmount(req, w).value, Amount.Parsed(req.amount, w.third.value.decimals).value);
  }

  /** Without decimals, the number is what one decimal makes of it less the last digit. */
  lemma OneDecimalLess(t: string)
    requires AllDigits(Amount.IntPart(t)) && AllDigits(Amount.FracPart(t))
    ensures Amount.Units(t, 0) == Amount.Units(t, 1) / 10
  {
    var scale := Pow(10, |Amount.FracPart(t)|);
    var w, n, m := Amount.Written(t), Amount.Units(t, 0), Amount.Units(t, 1);
    Amount.UnitsAreFloor(t, 0);
    Amount.UnitsAreFloor(t, 1);
    assert Pow(10, 0) == 1 && Pow(10, 1) == 10;
    Floors(n, m, w, scale);
  }

  lemma Floors(n: nat, m: nat, w: nat, scale: nat)
    requires n * scale <= w < (n + 1) * scale && m * scale <= 10 * w < (m + 1) * scale
    ensures n == m / 10
  {
    if m + 1 <= 10 * n { MulMonotone(m + 1, 10 * n, scale); }
    if 10 * (n + 1) <= m { MulMonotone(10 * (n + 1), m, scale); }
  }

  /** That wrap does happen: an amount that one more decimal takes past 64 bits and back to the checked amount. */
  lemma WrapCanCoincide()
    ensures var amount := Amount.FormatAmount(20496382304121724017, 1);
      var (checked, now) := (Amount.Parsed(amount, 0), Amount.Parsed(amount, 1));
      && checked.Ok? && now.Ok? && now.value >= UINT64_LIMIT && Uint64(now.value) == checked.value
  {
    var amount := Amount.FormatAmount(20496382304121724017, 1);
    Amount.RoundTrip(20496382304121724017, 1);
    OneDecimalLess(Amount.TrimSpace(amount));
  }

  /** With decimals that grow between check and payload, the payload moves more than was checked, whatever the amount. */
  lemma MoreDecimalsMoveMore(req: Req, w: World)
    requires req.chainType == "evm" && Prepared(req, w).Ok?
    requires w.first.Some? && w.third.Some? && w.first.value.decimals < w.third.value.decimals
    ensures CheckedAmount(req, w).Ok? && Moved(Prepared(req, w).value.1).Some?
    ensures Moved(Prepared(req, w).value.1).value > CheckedAmount(req, w).value
  {
    EvmPayloadMoves(req, w.third.value);
    UnitsGrow(Amount.TrimSpace(req.amount), w.first.value.decimals, w.third.value.decimals);
  }

  // ---- The three look-ups ----

  function ChainOf(req: Req): Registry.Chain {
    if req.chainType == "evm" then Registry.Evm else Registry.Solana
  }

  function ChainIDOf(req: Req): string {
    if req.chainType == "evm" then req.chainID else ""
  }

  /** The amount check and the payload get their entries from look-ups of a run in which nobody upserts or disables. */
  ghost predicate LooksUp(s: Registry.State, states: seq<Registry.State>, ops: seq<Registry.Op>, i: nat, j: nat, req: Req, w: World) {
    var token := Registry.Lower(Amount.TrimSpace(req.token));
    && Registry.Asked(s, states, ops, i, token, ChainOf(req), ChainIDOf(req)) && ops[i].answer == w.first
    && Registry.Asked(s, states, ops, j, token, ChainOf(req), ChainIDOf(req)) && ops[j].answer == w.third
  }

  lemma LookupsKeepDecimals(
    s: Registry.State, states: seq<Registry.State>, ops: seq<Registry.Op>, i: nat, j: nat, req: Req, w: World)
    requires Registry.Coherent(s) && LooksUp(s, states, ops, i, j, req, w) && Prepared(req, w).Ok?
    requires Registry.OneScale(s.rows, Registry.Lower(Amount.TrimSpace(req.token)), ChainOf(req), ChainIDOf(req))
    ensures w.first.Some? && w.third.Some? && w.first.value.decimals == w.third.value.decimals
  {
    Registry.DecimalsAgreeIff(s, Registry.Lower(Amount.TrimSpace(req.token)), ChainOf(req), ChainIDOf(req));
    assert Registry.SameDecimals(ops[i].answer, ops[j].answer);
  }

  /** An EVM transfer names its chain, so whatever the cache drops in between, it moves exactly the amount that was checked
      as long as nobody upserts or disables. */
  lemma EvmMovesChecked(
    s: Registry.State, states: seq<Registry.State>, ops: seq<Registry.Op>, i: nat, j: nat, req: Req, w: World)
    requires Registry.Coherent(s) && Registry.UniqueRows(s.rows) && LooksUp(s, states, ops, i, j, req, w)
    requires req.chainType == "evm" && Prepared(req, w).Ok?
    ensures w.first.Some? && CheckedAmount(req, w).Ok? && Moved(Prepared(req, w).value.1) == Some(CheckedAmount(req, w).value)
  {
    assert Payments.ScanInt("") == None;
    Registry.ChainIDsMatchOnce(s.rows, Registry.Lower(Amount.TrimSpace(req.token)), ChainOf(req), ChainIDOf(req));
    LookupsKeepDecimals(s, states, ops, i, j, req, w);
    EvmAmountIffDecimals(req, w);
  }

  /** From the admin's upsert to the payload: until somebody writes the registry again, a transfer of a token that was
      upserted with its chain id goes to the contract that was upserted, and moves what the upserted decimals make of the
      amount. */
  lemma UpsertedTokenIsMoved(
    s: Registry.State, op: Registry.Op, s1: Registry.State, states: seq<Registry.State>, ops: seq<Registry.Op>,
    i: nat, j: nat, req: Req, w: World)
    requires Registry.Coherent(s) && Registry.UniqueRows(s.rows) && op.Upsert? && Registry.Next(s, op, s1)
    requires Registry.Lower(Amount.TrimSpace(op.rawToken)) == Registry.Lower(Amount.TrimSpace(req.token))
    requires op.chain == Registry.Evm && Amount.TrimSpace(op.rawChainID) == req.chainID
    requires LooksUp(s1, states, ops, i, j, req, w) && req.chainType == "evm" && Prepared(req, w).Ok?
    ensures var p := Prepared(req, w).value.1;
      && p.EvmPayload? && p.contract == op.contract && p.symbol == op.symbol
      && Amount.Parsed(req.amount, op.decimals).Ok? && Moved(p) == Some(Amount.Parsed(req.amount, op.decimals).value)
  {
    assert Payments.ScanInt("") == None;
    Registry.UpsertedIsAnswered(s, op, s1, states, ops, j);
    EvmPayloadMoves(req, w.third.value);
  }

  /** A Solana transfer does if all enabled rows of its token have the same decimals. */
  lemma SolanaMovesChecked(
    s: Registry.State, states: seq<Registry.State>, ops: seq<Registry.Op>, i: nat, j: nat, req: Req, w: World)
    requires Registry.Coherent(s) && LooksUp(s, states, ops, i, j, req, w)
    requires Registry.OneScale(s.rows, Registry.Lower(Amount.TrimSpace(req.token)), ChainOf(req), ChainIDOf(req))
    requires req.chainType == "solana" && Prepared(req, w).Ok?
    requires w.senderBalance.Some? ==> w.senderBalance.value < UINT64_LIMIT
    ensures w.first.Some? && CheckedAmount(req, w).Ok? && Moved(Prepared(req, w).value.1) == Some(CheckedAmount(req, w).value)
  {
    LookupsKeepDecimals(s, states, ops, i, j, req, w);
    SolanaAmountIff(req, w);
  }

  // ---- From payload to job ----

  /** Every row that the request's key hits holds this payload already. */
  ghost predicate NoOlderPayload(rows: Table, req: Req, text: string) {
    forall id :: id in rows && Conflicts(rows[id], req.projectID, req.key) ==> rows[id].payload == text
  }

  /** The job that is enqueued carries the payload just built exactly when the idempotency key found no older row, or
      found one with the same payload: an older row keeps its own. */
  lemma JobCarriesPayloadIff(q: Lists, rows: Table, req: Req, w: World, marshal: Payload -> string)
    requires UniqueKeys(rows) && w.freshID !in rows && Prepared(req, w).Ok?
    requires var a := Transferred(q, rows, req, w, marshal).2; a.Replied? && a.reply.Accepted?
    ensures var (q', rows', a) := Transferred(q, rows, req, w, marshal);
      var text := marshal(Prepared(req, w).value.1);
      && a.reply.id in rows'
      && q'.main == q.main + [Canonical(Job(a.reply.id, req.projectID, req.walletID, Prepared(req, w).value.0))]
      && (rows'[a.reply.id].payload == text <==> NoOlderPayload(rows, req, text))
  {
  }

  // ---- The service object ----

  class StablecoinService {
    const submitter: Submitter

    constructor (submitter: Submitter)
      ensures this.submitter == submitter
    {
      this.submitter := submitter;
    }

    method BuildEVMPayload(req: Req, entry: Registry.Entry) returns (r: Result<(string, Payload), TransferError>)
      ensures r == BuiltEVM(req, entry)
    {
      var amount := Amount.ParseAmount(req.amount, entry.decimals);
      if amount.Err? {
        return Err(InvalidAmount(amount.error));
      }
      var data := Calldata.EncodeERC20Transfer(req.to, amount.value);
      if data.Err? {
        return Err(EncodeFailed(data.error));
      }
      var chainID := Payments.ScanInt(req.chainID);
      if chainID.None? {
        return Err(InvalidChainID);
      }
      return Ok(("sign_tx_evm",
                 EvmPayload(entry.contract, "0x0", data.value, chainID.value, GAS_LIMIT, entry.symbol, req.to, req.amount)));
    }

    method BuildSolanaPayload(req: Req, entry: Registry.Entry) returns (r: Result<(string, Payload), TransferError>)
      ensures r == BuiltSolana(req, entry)
    {
      var amount := Amount.ParseAmount(req.amount, entry.decimals);
      if amount.Err? {
        return Err(InvalidAmount(amount.error));
      }
      return Ok(("sign_tx_solana",
                 SolanaPayload(req.to, amount.value % UINT64_LIMIT, entry.contract, true, entry.symbol, req.amount)));
    }

    method Prepare(req: Req, w: World) returns (r: Result<(string, Payload), TransferError>)
      ensures r == Prepared(req, w)
    {
      var bad := CheckedRequest(req, w);
      if bad.Some? {
        return Err(bad.value);
      }
      if w.first.None? {
        return Err(NotRegistered);
      }
      var amount := Amount.ParseAmount(req.amount, w.first.value.decimals);
      if amount.Err? {
        return Err(InvalidAmount(amount.error));
      }
      bad := CheckedRelayer(req, w);
      if bad.Some? {
        return Err(bad.value);
      }
      bad := CheckedBalance(w, amount.value);
      if bad.Some? {
        return Err(bad.value);
      }
      if w.third.None? {
        return Err(NotRegistered);
      }
      if req.chainType == "evm" {
        r := BuildEVMPayload(req, w.third.value);
      } else {
        r := BuildSolanaPayload(req, w.third.value);
      }
    }

    method Transfer(req: Req, w: World, marshal: Payload -> string) returns (a: Answer)
      requires UniqueKeys(submitter.store.jobs) && w.freshID !in submitter.store.jobs
      modifies submitter.store, submitter.queue
      ensures (submitter.queue.State(), submitter.store.jobs, a)
           == Transferred(old(submitter.queue.State()), old(submitter.store.jobs), req, w, marshal)
      ensures UniqueKeys(submitter.store.jobs)
    {
      var built := Prepare(req, w);
      if built.Err? {
        return Rejected(built.error);
      }
      var (operation, payload) := built.value;
      var reply := submitter.CreateAndEnqueue(
        req.projectID, req.walletID, operation, marshal(payload), req.key, w.freshID, w.createOk, w.pushOk);
      return Replied(reply);
    }
  }
}
