/**
 * The token bridge form: moves the platform token between Ethereum and BSC.
 * It keeps the typed amount, the fee and the net amount, the wallet
 * balance and the bridge allowance; it derives the destination network, the
 * circulating supply report for both networks, and the one action button
 * the form shows.
 */
module Bridge {
  import opened Common

  /** The two networks the bridge links, as the chain configuration names them. */
  datatype BridgeNetworks = BridgeNetworks(bscChainId: int, ethereumChainId: int)

  const EthereumMainnet: int := 1
  const IssuedTokens: real := 100000000.0
  const FeeDecimals: int := 18

  predicate IsEthereum(chainId: int)
  {
    chainId == EthereumMainnet
  }

  predicate IsRightNetwork(chainId: int, nets: BridgeNetworks)
  {
    chainId == nets.bscChainId || chainId == nets.ethereumChainId
  }

  /** The network tokens are sent to (and whose fees are read): BSC from Ethereum, Ethereum otherwise. */
  function Destination(chainId: int, nets: BridgeNetworks): (d: int)
    ensures IsEthereum(chainId) ==> d == nets.bscChainId
    ensures !IsEthereum(chainId) ==> d == nets.ethereumChainId
  {
    if IsEthereum(chainId) then nets.bscChainId else nets.ethereumChainId
  }

  /** Sending from the destination goes back to the source when both ends are the two bridge networks. */
  lemma DestinationRoundTrip(nets: BridgeNetworks)
    requires nets.ethereumChainId == EthereumMainnet && nets.bscChainId != EthereumMainnet
    ensures Destination(Destination(nets.ethereumChainId, nets), nets) == nets.ethereumChainId
    ensures Destination(Destination(nets.bscChainId, nets), nets) == nets.bscChainId
  {
  }

  /** What the amount input hands its change handler; `shown` is the number's `toString()`. */
  datatype AmountInput = Absent | Text(s: string) | Number(n: real, shown: string)

  predicate TruthyInput(v: AmountInput)
  {
    match v
    case Absent => false
    case Text(s) => s != ""
    case Number(n, _) => n != 0.0
  }

  /** The amount text stored for an input: empty for a falsy input, else its text with the first comma made a dot. */
  function AmountText(v: AmountInput): (r: string)
    ensures !TruthyInput(v) ==> r == ""
    ensures v.Text? && v.s != "" ==> r == ReplaceFirst(v.s, ',', '.')
    ensures v.Number? && v.n != 0.0 ==> r == ReplaceFirst(v.shown, ',', '.')
  {
    match v
    case Absent => ""
    case Text(s) => if s != "" then ReplaceFirst(s, ',', '.') else ""
    case Number(n, shown) => if n != 0.0 then ReplaceFirst(shown, ',', '.') else ""
  }

  /** The fee for one transfer, in whole tokens: fixed part plus variable rate, both in 18-decimal units. */
  function BridgeFee(fixedFeeAmount: real, variableFeeRate: real): real
  {
    Scale(fixedFeeAmount + variableFeeRate, -FeeDecimals)
  }

  lemma BridgeFeeUnits(fixedFeeAmount: real, variableFeeRate: real)
    ensures Scale(BridgeFee(fixedFeeAmount, variableFeeRate), FeeDecimals) == fixedFeeAmount + variableFeeRate
  {
    ScaleInverse(fixedFeeAmount + variableFeeRate, -FeeDecimals);
  }

  /** The amount received: amount minus fee, floored at zero. */
  function NetAmount(amount: real, fee: real): (net: real)
    ensures net >= 0.0 && net >= amount - fee
    ensures net == 0.0 || net == amount - fee
  {
    if amount - fee < 0.0 then 0.0 else amount - fee
  }

  /** With a non-negative fee the net amount never exceeds a non-negative amount, and adding the fee back recovers it when it covers the fee. */
  lemma NetAmountBounds(amount: real, fee: real)
    requires amount >= 0.0 && fee >= 0.0
    ensures NetAmount(amount, fee) <= amount
    ensures amount >= fee ==> NetAmount(amount, fee) + fee == amount
    ensures amount < fee ==> NetAmount(amount, fee) == 0.0
  {
  }

  // ---------------------------------------------------------------------
  // Circulating supply report
  // ---------------------------------------------------------------------

  /** The four ledger reads the report takes per network. */
  datatype ChainBalances = ChainBalances(totalSupply: real, operator: real, vault: real, multisig: real)

  function Burned(b: ChainBalances): real
  {
    IssuedTokens - b.totalSupply
  }

  function Locked(b: ChainBalances): real
  {
    b.operator + b.vault + b.multisig
  }

  /** Issued minus burned minus locked. */
  function Circulating(b: ChainBalances): (supply: real)
    ensures supply == b.totalSupply - Locked(b)
  {
    IssuedTokens - (Burned(b) + Locked(b))
  }

  /**
   * A BigNumber share: a finite value, or what dividing by a zero total
   * gives — plus or minus infinity for a non-zero part, NaN for a zero one.
   * Multiplying by 100 keeps each of the three.
   */
  datatype Percentage = Finite(value: real) | PlusInfinity | MinusInfinity | NotANumber

  /** `part.div(total).multipliedBy(100)`. */
  function PercentageOf(part: real, total: real): Percentage
  {
    if total != 0.0 then Finite(part / total * 100.0)
    else if part > 0.0 then PlusInfinity
    else if part < 0.0 then MinusInfinity
    else NotANumber
  }

  datatype SupplyReport = SupplyReport(
    ethSupply: real, bscSupply: real, totalSupply: real,
    ethPercentage: Percentage, bscPercentage: Percentage)

  /**
   * The report.  Over a zero combined supply a share is NaN when its own
   * supply is zero too and an infinity of the supply's sign otherwise.
   */
  function SupplyReportOf(eth: ChainBalances, bsc: ChainBalances): (r: SupplyReport)
    ensures r.ethSupply == Circulating(eth) && r.bscSupply == Circulating(bsc)
    ensures r.totalSupply == r.ethSupply + r.bscSupply
    ensures r.ethPercentage.Finite? <==> r.totalSupply != 0.0
    ensures r.bscPercentage.Finite? <==> r.totalSupply != 0.0
    ensures r.totalSupply != 0.0 ==>
      (r.ethPercentage == Finite(r.ethSupply / r.totalSupply * 100.0)
       && r.bscPercentage == Finite(r.bscSupply / r.totalSupply * 100.0))
    ensures r.totalSupply == 0.0 ==>
      ((r.ethPercentage.NotANumber? <==> r.ethSupply == 0.0)
       && (r.ethPercentage.PlusInfinity? <==> r.ethSupply > 0.0)
       && (r.ethPercentage.MinusInfinity? <==> r.ethSupply < 0.0))
    ensures r.totalSupply == 0.0 ==>
      ((r.bscPercentage.NotANumber? <==> r.bscSupply == 0.0)
       && (r.bscPercentage.PlusInfinity? <==> r.bscSupply > 0.0)
       && (r.bscPercentage.MinusInfinity? <==> r.bscSupply < 0.0))
  {
    var e := Circulating(eth);
    var b := Circulating(bsc);
    var t := e + b;
    SupplyReport(e, b, t, PercentageOf(e, t), PercentageOf(b, t))
  }

  /** The two shares of a non-zero combined supply add up to 100. */
  lemma PercentagesSumToHundred(eth: ChainBalances, bsc: ChainBalances)
    requires SupplyReportOf(eth, bsc).totalSupply != 0.0
    ensures var r := SupplyReportOf(eth, bsc);
      r.ethPercentage.value + r.bscPercentage.value == 100.0
  {
    var r := SupplyReportOf(eth, bsc);
    var e, b, t := r.ethSupply, r.bscSupply, r.totalSupply;
    assert e / t * 100.0 + b / t * 100.0 == (e + b) / t * 100.0;
  }

  /** The three holders' balances as the ledger keeps them: none negative, together at most the supply. */
  predicate LedgerConsistent(b: ChainBalances)
  {
    0.0 <= b.operator && 0.0 <= b.vault && 0.0 <= b.multisig && Locked(b) <= b.totalSupply
  }

  /**
   * With ledger-consistent balances no share is infinite: a zero combined
   * supply makes both shares NaN.
   */
  lemma ConsistentSharesAreNeverInfinite(eth: ChainBalances, bsc: ChainBalances)
    requires LedgerConsistent(eth) && LedgerConsistent(bsc)
    ensures var r := SupplyReportOf(eth, bsc);
      r.totalSupply == 0.0 ==> r.ethPercentage.NotANumber? && r.bscPercentage.NotANumber?
    ensures var r := SupplyReportOf(eth, bsc);
      !r.ethPercentage.PlusInfinity? && !r.ethPercentage.MinusInfinity?
      && !r.bscPercentage.PlusInfinity? && !r.bscPercentage.MinusInfinity?
  {
  }

  /** Without that, a zero combined supply can split into opposite infinities. */
  lemma InconsistentSharesCanBeInfinite()
    ensures var r := SupplyReportOf(ChainBalances(10.0, 0.0, 0.0, 0.0), ChainBalances(20.0, 30.0, 0.0, 0.0));
      r.totalSupply == 0.0 && r.ethPercentage == PlusInfinity && r.bscPercentage == MinusInfinity
  {
    var eth, bsc := ChainBalances(10.0, 0.0, 0.0, 0.0), ChainBalances(20.0, 30.0, 0.0, 0.0);
    assert Circulating(eth) == 10.0;
    assert Circulating(bsc) == -10.0;
  }

  // ---------------------------------------------------------------------
  // The action button
  // ---------------------------------------------------------------------

  datatype ActionButton =
    | ConnectWallet
    | WrongNetwork
    | UnlockBridge(onEthereum: bool)
    | TransferFunds(disabled: bool, toBsc: bool)

  /** The transfer button is disabled for an empty amount, a zero or NaN balance, or an amount below the fee. */
  predicate TransferDisabled(amount: string, balance: string, fee: real)
  {
    var a := ParseDecimal(amount);
    var b := ParseDecimal(balance);
    amount == "" || b.None? || DecimalValue(b.value) == 0.0
    || (a.Some? && DecimalValue(a.value) < fee)
  }

  /** Each button's own display condition, as the JSX writes it. */
  predicate Shown(button: ActionButton, account: Option<string>, chainId: int, nets: BridgeNetworks,
                  approved: bool, amount: string, balance: string, fee: real)
  {
    match button
    case ConnectWallet => !Truthy(account)
    case WrongNetwork => Truthy(account) && !IsRightNetwork(chainId, nets)
    case UnlockBridge(onEth) =>
      IsRightNetwork(chainId, nets) && Truthy(account) && !approved && onEth == IsEthereum(chainId)
    case TransferFunds(disabled, toBsc) =>
      IsRightNetwork(chainId, nets) && Truthy(account) && approved
      && toBsc == IsEthereum(chainId) && disabled == TransferDisabled(amount, balance, fee)
  }

  function ActionFor(account: Option<string>, chainId: int, nets: BridgeNetworks,
                     approved: bool, amount: string, balance: string, fee: real): ActionButton
  {
    if !Truthy(account) then ConnectWallet
    else if !IsRightNetwork(chainId, nets) then WrongNetwork
    else if !approved then UnlockBridge(IsEthereum(chainId))
    else TransferFunds(TransferDisabled(amount, balance, fee), IsEthereum(chainId))
  }

  /** Exactly one button is shown, and it is the one `ActionFor` picks. */
  lemma ExactlyOneButton(button: ActionButton, account: Option<string>, chainId: int, nets: BridgeNetworks,
                         approved: bool, amount: string, balance: string, fee: real)
    ensures Shown(button, account, chainId, nets, approved, amount, balance, fee)
      <==> button == ActionFor(account, chainId, nets, approved, amount, balance, fee)
  {
  }

  /** A transfer is offered enabled only when the typed amount covers the fee and the balance is non-zero. */
  lemma EnabledTransferCoversFee(amount: string, balance: string, fee: real)
    requires !TransferDisabled(amount, balance, fee)
    requires ParseDecimal(amount).Some?
    ensures amount != "" && DecimalValue(ParseDecimal(amount).value) >= fee
    ensures ParseDecimal(balance).Some? && DecimalValue(ParseDecimal(balance).value) != 0.0
  {
  }

  // ---------------------------------------------------------------------
  // The form state
  // ---------------------------------------------------------------------

  /**
   * Which awaited call of a transfer fails, if any: the deposit throws, the
   * balance re-read throws, or the re-read never settles (as it does on a
   * chain that is not allowed).
   */
  datatype BridgeFailure = Completes | DepositThrows | BalanceReadThrows | BalanceReadHangs

  /** Whether the failing call is one the transfer actually awaits. */
  predicate BridgeThrows(failure: BridgeFailure, account: Option<string>, amount: string)
  {
    (failure == DepositThrows && Truthy(account) && amount != "")
    || (failure == BalanceReadThrows && Truthy(account))
  }

  /** Whether the transfer awaits a balance re-read that never settles. */
  predicate BridgeHangs(failure: BridgeFailure, account: Option<string>)
  {
    failure == BalanceReadHangs && Truthy(account)
  }

  /** A deposit sent to the bridge contract. */
  datatype Deposit = Deposit(account: string, amount: string, targetChainId: int)

  class BridgeForm {
    var amount: string
    var fee: real
    var net: Option<real>
    var balance: string
    var approved: bool
    var loadingApproval: bool
    var loadingBridge: bool
    var notices: seq<string>

    constructor()
      ensures amount == "" && fee == 0.0 && net == Some(0.0) && balance == "0"
      ensures !approved && !loadingApproval && !loadingBridge && notices == []
    {
      amount := "";
      fee := 0.0;
      net := Some(0.0);
      balance := "0";
      approved := false;
      loadingApproval := false;
      loadingBridge := false;
      notices := [];
    }

    /** "Max" copies the balance text into the amount. */
    method SetMaxValue()
      modifies this
      ensures amount == balance
      ensures fee == old(fee) && net == old(net) && balance == old(balance) && approved == old(approved)
      ensures loadingApproval == old(loadingApproval) && loadingBridge == old(loadingBridge) && notices == old(notices)
    {
      amount := if balance != "" then balance else "";
    }

    method HandleAmountChange(v: AmountInput)
      modifies this
      ensures amount == AmountText(v)
      ensures fee == old(fee) && net == old(net) && balance == old(balance) && approved == old(approved)
      ensures loadingApproval == old(loadingApproval) && loadingBridge == old(loadingBridge) && notices == old(notices)
    {
      if TruthyInput(v) {
        amount := ReplaceFirst(if v.Text? then v.s else v.shown, ',', '.');
      } else {
        amount := "";
      }
    }

    /**
     * Reads the destination's fees while a chain is selected; returns the
     * chain whose fees were read.  `fees` is the answer, the fixed amount and
     * the variable rate, or `None` when the read rejects and the fee stays.
     */
    method CheckFee(chainId: int, nets: BridgeNetworks, fees: Option<(real, real)>)
      returns (queried: Option<int>)
      modifies this
      ensures chainId != 0 ==> queried == Some(Destination(chainId, nets))
      ensures chainId != 0 && fees.Some? ==> fee == BridgeFee(fees.value.0, fees.value.1)
      ensures chainId != 0 && fees.None? ==> fee == old(fee)
      ensures chainId == 0 ==> queried == None && fee == old(fee)
      ensures amount == old(amount) && net == old(net) && balance == old(balance) && approved == old(approved)
      ensures loadingApproval == old(loadingApproval) && loadingBridge == old(loadingBridge) && notices == old(notices)
    {
      queried := None;
      if chainId != 0 {
        var destination := if IsEthereum(chainId) then nets.bscChainId else nets.ethereumChainId;
        queried := Some(destination);
        if fees.Some? {
          fee := Scale(fees.value.0 + fees.value.1, -FeeDecimals);
        }
      }
    }

    /**
     * Read the balance with an account and a chain.  `balanceRead` is the
     * read's text, `None` when it rejects or never settles; then nothing
     * changes.
     */
    method CheckBalance(account: Option<string>, chainId: int, balanceRead: Option<string>)
      modifies this
      ensures Truthy(account) && chainId != 0 && balanceRead.Some? ==> balance == balanceRead.value
      ensures !(Truthy(account) && chainId != 0 && balanceRead.Some?) ==> balance == old(balance)
      ensures amount == old(amount) && fee == old(fee) && net == old(net) && approved == old(approved)
      ensures loadingApproval == old(loadingApproval) && loadingBridge == old(loadingBridge) && notices == old(notices)
    {
      if Truthy(account) && chainId != 0 && balanceRead.Some? {
        balance := balanceRead.value;
      }
    }

    /** Recomputed only while an amount is typed; an amount that is not a number gives NaN (`None`). */
    method CheckNetAmount()
      modifies this
      ensures amount != "" && ParseDecimal(amount).Some? ==>
        net == Some(NetAmount(DecimalValue(ParseDecimal(amount).value), fee))
      ensures amount != "" && ParseDecimal(amount).None? ==> net == None
      ensures amount == "" ==> net == old(net)
      ensures amount == old(amount) && fee == old(fee) && balance == old(balance) && approved == old(approved)
      ensures loadingApproval == old(loadingApproval) && loadingBridge == old(loadingBridge) && notices == old(notices)
    {
      if amount != "" {
        var parsed := ParseDecimal(amount);
        if parsed.None? {
          net := None;
        } else {
          var difference := DecimalValue(parsed.value) - fee;
          net := Some(if difference < 0.0 then 0.0 else difference);
        }
      }
    }

    /**
     * Approved exactly when a wallet is connected and the bridge's allowance
     * is positive.  The allowance is read only with a wallet; `None` is a
     * rejected read, which leaves the approval as it was.
     */
    method CheckIsApproved(account: Option<string>, allowance: Option<nat>)
      modifies this
      ensures !Truthy(account) ==> !approved
      ensures Truthy(account) && allowance.Some? ==> approved == (allowance.value > 0)
      ensures Truthy(account) && allowance.None? ==> approved == old(approved)
      ensures amount == old(amount) && fee == old(fee) && net == old(net) && balance == old(balance)
      ensures loadingApproval == old(loadingApproval) && loadingBridge == old(loadingBridge) && notices == old(notices)
    {
      if !Truthy(account) {
        approved := false;
      } else if allowance.Some? {
        approved := allowance.value > 0;
      }
    }

    /**
     * Approve, re-read the allowance (`allowanceAfter`, `None` when the read
     * rejects), and clear the spinner.  The approval wrapper catches a
     * failed send itself (`approveFails`) and raises the error notice.  The
     * allowance is read only with a connected wallet; a rejected read leaves
     * the spinner on and the approval as it was.
     */
    method ApproveBridge(account: Option<string>, approveFails: bool, allowanceAfter: Option<nat>)
      modifies this
      ensures Truthy(account) && allowanceAfter.None? ==> loadingApproval && approved == old(approved)
      ensures !Truthy(account) ==> approved == false && !loadingApproval
      ensures Truthy(account) && allowanceAfter.Some? ==> approved == (allowanceAfter.value > 0) && !loadingApproval
      ensures amount == old(amount) && fee == old(fee) && net == old(net) && balance == old(balance)
      ensures loadingBridge == old(loadingBridge)
      ensures notices == old(notices) + (if approveFails then [ErrorNotice] else [])
    {
      loadingApproval := true;
      if approveFails {
        notices := notices + [ErrorNotice];
      }
      if Truthy(account) && allowanceAfter.None? {
        return;
      }
      CheckIsApproved(account, allowanceAfter);
      loadingApproval := false;
    }

    /**
     * Deposit the amount towards the destination network.  `failure` says
     * which awaited call throws, if any: the deposit (with its parameters)
     * is awaited only with an account and an amount, the balance re-read
     * only with an account.  A throw clears the amount but leaves the
     * spinner on, raises no notice and keeps the balance; a deposit already
     * sent before the re-read throws stays sent.  A re-read that never
     * settles stops the handler with the amount still typed.
     */
    method ExecuteBridge(account: Option<string>, chainId: int, nets: BridgeNetworks,
                         failure: BridgeFailure, balanceAfter: string) returns (sent: Option<Deposit>)
      modifies this
      ensures !BridgeHangs(failure, account) ==> amount == ""
      ensures BridgeHangs(failure, account) ==>
        (amount == old(amount) && loadingBridge && balance == old(balance) && notices == old(notices))
      ensures sent.Some? <==> Truthy(account) && old(amount) != "" && failure != DepositThrows
      ensures sent.Some? ==> sent.value == Deposit(account.value, old(amount), Destination(chainId, nets))
      ensures BridgeThrows(failure, account, old(amount)) ==>
        loadingBridge && balance == old(balance) && notices == old(notices)
      ensures !BridgeThrows(failure, account, old(amount)) && !BridgeHangs(failure, account) ==>
        (!loadingBridge
         && balance == (if Truthy(account) then balanceAfter else old(balance))
         && notices == old(notices) + [SentNotice(chainId)])
      ensures fee == old(fee) && net == old(net) && approved == old(approved) && loadingApproval == old(loadingApproval)
    {
      loadingBridge := true;
      var selectedChainId := if IsEthereum(chainId) then nets.bscChainId else nets.ethereumChainId;
      sent := None;
      if Truthy(account) && amount != "" {
        if failure == DepositThrows {
          amount := "";
          return;
        }
        sent := Some(Deposit(account.value, amount, selectedChainId));
      }
      if Truthy(account) {
        if failure == BalanceReadThrows {
          amount := "";
          return;
        }
        if failure == BalanceReadHangs {
          return;
        }
        balance := balanceAfter;
      }
      loadingBridge := false;
      amount := "";
      notices := notices + [SentNotice(chainId)];
    }
  }

  function SentNotice(chainId: int): string
  {
    "Your transaction is being processed on " + (if IsEthereum(chainId) then "BSC" else "ETH") + " network."
  }
}
