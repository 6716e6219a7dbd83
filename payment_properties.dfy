/**
 * What a payment does, stated on its run: which gateway calls it makes, in
 * which order and with which amounts, where it stops, which status lines it
 * shows and what the account looks like afterwards. `PaymentHook.Pay`
 * leaves the ledger's trace and account exactly as `Payment.Run` says, so
 * each lemma here is a statement about the hook.
 */
module PaymentProperties {
  import opened Wrappers
  import opened Types
  import opened Gateway
  import opened Payment
  import DatasetSelector

  /** Connect, list the client's datasets, look up the chosen dataset's provider, read allowance and balance. */
  function SetupCalls(address: string, chosen: Option<DataSet>): seq<Call>
  {
    [Connect, ListDatasets(address)]
    + (if chosen.Some? then [LookupProvider(chosen.value.payee)] else [])
    + [ReadAllowance, ReadBalance]
  }

  /** The transactions of a payment whose balance check passed, in submission order. */
  function Transactions(acc: Account, p: PaymentParams, fee: int): seq<Call>
  {
    var amount := p.depositAmount + fee;
    (if acc.tokenAllowance < MAX_UINT256 / 2 then [Approve(MAX_UINT256)] else [])
    + (if amount > 0 then [Deposit(amount)] else [])
    + [ApproveService(p.epochRateAllowance, p.lockupAllowance + fee)]
  }

  /** The progress lines those transactions show. */
  function Progress(acc: Account, p: PaymentParams, fee: int): seq<Status>
  {
    var amount := p.depositAmount + fee;
    (if acc.tokenAllowance < MAX_UINT256 / 2 then [Approving, Approved] else [])
    + (if amount > 0 then [Depositing, Deposited] else [])
    + [ApprovingService, ServiceApproved]
  }

  lemma PlannedTransaction(when: bool, before: Status, c: Call, after: Status)
    ensures PlannedCalls(Transaction(when, before, c, after)) == if when then [c] else []
    ensures PlannedEvents(Transaction(when, before, c, after)) == if when then [before, after] else []
  {
    if when {
      var last: seq<Step<Status>> := [Emit(after)] + [];
      assert Transaction(when, before, c, after) == [Emit(before)] + ([Invoke(c)] + last);
      PlannedStep<Status>(Emit(after), []);
      PlannedStep(Invoke(c), last);
      PlannedStep(Emit(before), [Invoke(c)] + last);
    }
  }

  lemma PlannedFunding(acc: Account, p: PaymentParams, fee: int)
    ensures var amount := p.depositAmount + fee;
      PlannedCalls(Funding(acc, p, fee)) == if acc.walletBalance < amount then [] else Transactions(acc, p, fee)
    ensures var amount := p.depositAmount + fee;
      PlannedEvents(Funding(acc, p, fee)) == if acc.walletBalance < amount then [] else Progress(acc, p, fee)
  {
    var amount := p.depositAmount + fee;
    if acc.walletBalance < amount {
      assert Funding(acc, p, fee)[1..] == [];
    } else {
      var low := acc.tokenAllowance < MAX_UINT256 / 2;
      var approval := ApproveService(p.epochRateAllowance, p.lockupAllowance + fee);
      var token := Transaction(low, Approving, Approve(MAX_UINT256), Approved);
      var deposit := Transaction(amount > 0, Depositing, Deposit(amount), Deposited);
      var storage := Transaction(true, ApprovingService, approval, ServiceApproved);
      assert Funding(acc, p, fee) == (token + deposit) + storage;
      PlannedTransaction(low, Approving, Approve(MAX_UINT256), Approved);
      PlannedTransaction(amount > 0, Depositing, Deposit(amount), Deposited);
      PlannedTransaction(true, ApprovingService, approval, ServiceApproved);
      PlannedCallsAppend(token + deposit, storage);
      PlannedCallsAppend(token, deposit);
      PlannedEventsAppend(token + deposit, storage);
      PlannedEventsAppend(token, deposit);
    }
  }

  lemma PlannedSetup(address: string, chosen: Option<DataSet>)
    ensures PlannedCalls(Setup(address, chosen)) == SetupCalls(address, chosen)
    ensures PlannedEvents(Setup(address, chosen)) == [Preparing]
  {
    var balance: seq<Step<Status>> := [Invoke(ReadBalance)] + [];
    var balances := [Invoke(ReadAllowance)] + balance;
    PlannedStep<Status>(Invoke(ReadBalance), []);
    PlannedStep(Invoke(ReadAllowance), balance);
    var tail := Reads(chosen);
    if chosen.Some? {
      assert tail == [Invoke(LookupProvider(chosen.value.payee))] + balances;
      PlannedStep(Invoke(LookupProvider(chosen.value.payee)), balances);
    } else {
      assert tail == balances;
    }
    assert Setup(address, chosen) == [Emit(Preparing)] + ([Invoke(Connect)] + ([Invoke(ListDatasets(address))] + tail));
    PlannedStep(Invoke(ListDatasets(address)), tail);
    PlannedStep(Invoke(Connect), [Invoke(ListDatasets(address))] + tail);
    PlannedStep(Emit(Preparing), [Invoke(Connect)] + ([Invoke(ListDatasets(address))] + tail));
  }

  /** The plan of a payment whose session checks pass. */
  lemma PlanOutline(acc: Account, datasets: seq<DataSet>, s: Session, p: PaymentParams, cfg: Config)
    requires Guard(s).None?
    ensures var chosen := DatasetSelector.SelectDataset(datasets, cfg.withCDN);
      var fee := CreationFee(chosen, cfg);
      var amount := p.depositAmount + fee;
      && PlannedCalls(Plan(acc, datasets, s, p, cfg))
         == SetupCalls(s.address.value, chosen) + (if acc.walletBalance < amount then [] else Transactions(acc, p, fee))
      && PlannedEvents(Plan(acc, datasets, s, p, cfg))
         == [Preparing] + (if acc.walletBalance < amount then [] else Progress(acc, p, fee))
  {
    var chosen := DatasetSelector.SelectDataset(datasets, cfg.withCDN);
    var fee := CreationFee(chosen, cfg);
    PlannedSetup(s.address.value, chosen);
    PlannedFunding(acc, p, fee);
    PlannedCallsAppend(Setup(s.address.value, chosen), Funding(acc, p, fee));
    PlannedEventsAppend(Setup(s.address.value, chosen), Funding(acc, p, fee));
  }

  /**
   * The trace of a payment. Without a signer, network or address nothing is
   * called. Otherwise the calls are the setup reads and, when the balance
   * covers the amount, the transactions approve, deposit, approveService in
   * that order, cut short right after the first call that throws. A payment
   * that does not fail made all of them and showed every progress line.
   */
  lemma RunTrace(acc: Account, datasets: seq<DataSet>, rejected: map<Call, string>, s: Session, p: PaymentParams, cfg: Config)
    ensures var o := Run(acc, datasets, rejected, s, p, cfg);
      Guard(s).Some? ==> o == Outcome([], [], Some(Thrown(Guard(s).value)))
    ensures var o := Run(acc, datasets, rejected, s, p, cfg);
      var chosen := DatasetSelector.SelectDataset(datasets, cfg.withCDN);
      var fee := CreationFee(chosen, cfg);
      Guard(s).None? ==>
        o.calls <= SetupCalls(s.address.value, chosen)
                   + (if acc.walletBalance < p.depositAmount + fee then [] else Transactions(acc, p, fee))
    ensures var o := Run(acc, datasets, rejected, s, p, cfg);
      var chosen := DatasetSelector.SelectDataset(datasets, cfg.withCDN);
      var fee := CreationFee(chosen, cfg);
      o.failure.None? ==>
        && Guard(s).None?
        && acc.walletBalance >= p.depositAmount + fee
        && o.calls == SetupCalls(s.address.value, chosen) + Transactions(acc, p, fee)
        && Shown(o) == [Preparing] + Progress(acc, p, fee) + [Succeeded]
    ensures var o := Run(acc, datasets, rejected, s, p, cfg);
      o.failure.Some? && o.failure.value.Rejected? ==>
        |o.calls| > 0 && o.calls[|o.calls| - 1] == o.failure.value.call && Throws(o.failure.value.call, rejected)
  {
    var plan := Plan(acc, datasets, s, p, cfg);
    RunUnfolds(acc, datasets, rejected, s, p, cfg);
    ExecuteCalls(plan, rejected);
    ExecuteEvents(plan, rejected);
    ExecuteStops(plan, rejected);
    var guard := Guard(s);
    if guard.None? {
      PlanOutline(acc, datasets, s, p, cfg);
    } else {
      assert plan == [Abort(guard.value)];
    }
  }

  /** The funding steps fail by themselves only on a short balance; their calls fail only as gateway rejections. */
  lemma FundingFailures(acc: Account, p: PaymentParams, fee: int, rejected: map<Call, string>)
    ensures var f := FundingRun(acc, p, fee, rejected).failure;
      f.None? || f.value.Rejected? || (acc.walletBalance < p.depositAmount + fee && f == Some(Thrown(INSUFFICIENT)))
  {
    var amount := p.depositAmount + fee;
    if acc.walletBalance >= amount {
      var approval := ApproveService(p.epochRateAllowance, p.lockupAllowance + fee);
      var storage := TransactionRun(true, ApprovingService, approval, ServiceApproved, Outcome([], [], None), rejected);
      var deposit := TransactionRun(amount > 0, Depositing, Deposit(amount), Deposited, storage, rejected);
      assert storage.failure.None? || storage.failure.value.Rejected?;
      assert deposit.failure.None? || deposit.failure.value.Rejected?;
    }
  }

  /** The setup steps either fail with a gateway rejection or hand over to what follows them. */
  lemma SetupPasses(address: string, chosen: Option<DataSet>, next: Outcome<Status>, rejected: map<Call, string>)
    ensures var o := SetupRun(address, chosen, next, rejected);
      (o.failure.Some? && o.failure.value.Rejected?) || o.failure == next.failure
    ensures !Throws(Connect, rejected) && !Throws(ListDatasets(address), rejected)
            && !Throws(ReadAllowance, rejected) && !Throws(ReadBalance, rejected)
            ==> SetupRun(address, chosen, next, rejected)
                == Outcome([Preparing] + next.events, SetupCalls(address, chosen) + next.calls, next.failure)
  {
    var balances := Called(ReadAllowance, Called(ReadBalance, next, rejected), rejected);
    assert balances.failure.None? || balances.failure.value.Rejected? || balances.failure == next.failure;
  }

  /**
   * The hook throws by itself only on a failed session check or when the
   * balance is short of the amount; with a short balance and working reads
   * it stops there, before any transaction.
   */
  lemma OwnFailures(acc: Account, datasets: seq<DataSet>, rejected: map<Call, string>, s: Session, p: PaymentParams, cfg: Config)
    ensures var o := Run(acc, datasets, rejected, s, p, cfg);
      var fee := CreationFee(DatasetSelector.SelectDataset(datasets, cfg.withCDN), cfg);
      forall m :: o.failure == Some(Thrown(m)) ==>
        || (Guard(s).Some? && m == Guard(s).value)
        || (Guard(s).None? && acc.walletBalance < p.depositAmount + fee && m == INSUFFICIENT)
    ensures var o := Run(acc, datasets, rejected, s, p, cfg);
      var chosen := DatasetSelector.SelectDataset(datasets, cfg.withCDN);
      var fee := CreationFee(chosen, cfg);
      Guard(s).None? && acc.walletBalance < p.depositAmount + fee
      && !Throws(Connect, rejected) && !Throws(ListDatasets(s.address.value), rejected)
      && !Throws(ReadAllowance, rejected) && !Throws(ReadBalance, rejected)
      ==> o == Outcome([Preparing], SetupCalls(s.address.value, chosen), Some(Thrown(INSUFFICIENT)))
  {
    RunUnfolds(acc, datasets, rejected, s, p, cfg);
    if Guard(s).None? {
      var chosen := DatasetSelector.SelectDataset(datasets, cfg.withCDN);
      var fee := CreationFee(chosen, cfg);
      FundingFailures(acc, p, fee, rejected);
      SetupPasses(s.address.value, chosen, FundingRun(acc, p, fee, rejected), rejected);
      assert SetupCalls(s.address.value, chosen) + [] == SetupCalls(s.address.value, chosen);
    }
  }

  /** The calls made so far are among those planned. */
  lemma PrefixWithin(calls: seq<Call>, planned: seq<Call>)
    requires calls <= planned
    ensures forall c :: c in calls ==> c in planned
  {
    forall c | c in calls
      ensures c in planned
    {
      var i :| 0 <= i < |calls| && calls[i] == c;
      assert planned[i] == c;
    }
  }

  /** Where approvals and deposits can occur among the planned calls. */
  lemma PlannedTransfers(address: string, chosen: Option<DataSet>, acc: Account, p: PaymentParams, fee: int, sufficient: bool)
    ensures var planned := SetupCalls(address, chosen) + (if sufficient then Transactions(acc, p, fee) else []);
      && (forall x :: Approve(x) in planned ==> sufficient && x == MAX_UINT256 && acc.tokenAllowance < MAX_UINT256 / 2)
      && (forall x :: Deposit(x) in planned ==> sufficient && x == p.depositAmount + fee && x > 0)
    ensures sufficient ==>
      && (Approve(MAX_UINT256) in Transactions(acc, p, fee) <==> acc.tokenAllowance < MAX_UINT256 / 2)
      && (Deposit(p.depositAmount + fee) in Transactions(acc, p, fee) <==> p.depositAmount + fee > 0)
  {
    var setup := SetupCalls(address, chosen);
    assert forall c :: c in setup ==> Passive(c);
  }

  /** `approve(MAX_UINT256)` is the only approval, made exactly when the allowance is below half of it. */
  lemma ApproveOnlyWhenLow(acc: Account, datasets: seq<DataSet>, rejected: map<Call, string>, s: Session, p: PaymentParams, cfg: Config)
    ensures var o := Run(acc, datasets, rejected, s, p, cfg);
      forall x :: Approve(x) in o.calls ==> x == MAX_UINT256 && acc.tokenAllowance < MAX_UINT256 / 2
    ensures var o := Run(acc, datasets, rejected, s, p, cfg);
      o.failure.None? ==> (Approve(MAX_UINT256) in o.calls <==> acc.tokenAllowance < MAX_UINT256 / 2)
  {
    var o := Run(acc, datasets, rejected, s, p, cfg);
    RunTrace(acc, datasets, rejected, s, p, cfg);
    if Guard(s).None? {
      var chosen := DatasetSelector.SelectDataset(datasets, cfg.withCDN);
      var fee := CreationFee(chosen, cfg);
      var sufficient := acc.walletBalance >= p.depositAmount + fee;
      var planned := SetupCalls(s.address.value, chosen) + (if sufficient then Transactions(acc, p, fee) else []);
      PrefixWithin(o.calls, planned);
      PlannedTransfers(s.address.value, chosen, acc, p, fee, sufficient);
    }
  }

  /** A deposit is of exactly the amount (deposit plus creation fee), and is made exactly when that amount is positive. */
  lemma DepositExactAmount(acc: Account, datasets: seq<DataSet>, rejected: map<Call, string>, s: Session, p: PaymentParams, cfg: Config)
    ensures var o := Run(acc, datasets, rejected, s, p, cfg);
      var amount := p.depositAmount + CreationFee(DatasetSelector.SelectDataset(datasets, cfg.withCDN), cfg);
      forall x :: Deposit(x) in o.calls ==> x == amount && amount > 0 && acc.walletBalance >= amount
    ensures var o := Run(acc, datasets, rejected, s, p, cfg);
      var amount := p.depositAmount + CreationFee(DatasetSelector.SelectDataset(datasets, cfg.withCDN), cfg);
      o.failure.None? ==> (Deposit(amount) in o.calls <==> amount > 0)
  {
    var o := Run(acc, datasets, rejected, s, p, cfg);
    RunTrace(acc, datasets, rejected, s, p, cfg);
    if Guard(s).None? {
      var chosen := DatasetSelector.SelectDataset(datasets, cfg.withCDN);
      var fee := CreationFee(chosen, cfg);
      var sufficient := acc.walletBalance >= p.depositAmount + fee;
      var planned := SetupCalls(s.address.value, chosen) + (if sufficient then Transactions(acc, p, fee) else []);
      PrefixWithin(o.calls, planned);
      PlannedTransfers(s.address.value, chosen, acc, p, fee, sufficient);
    }
  }

  /**
   * A successful payment ends with `approveService` for the requested rate
   * and the requested lockup plus the creation fee, which a client with a
   * dataset does not pay.
   */
  lemma ServiceApprovedLast(acc: Account, datasets: seq<DataSet>, rejected: map<Call, string>, s: Session, p: PaymentParams, cfg: Config)
    ensures var o := Run(acc, datasets, rejected, s, p, cfg);
      var chosen := DatasetSelector.SelectDataset(datasets, cfg.withCDN);
      var fee := if chosen.Some? then 0 else cfg.datasetCreationFee;
      o.failure.None? ==>
        |o.calls| > 0 && o.calls[|o.calls| - 1] == ApproveService(p.epochRateAllowance, p.lockupAllowance + fee)
  {
    RunTrace(acc, datasets, rejected, s, p, cfg);
  }

  lemma SettleOne(a: Account, c: Call, rejected: map<Call, string>)
    requires !Throws(c, rejected)
    ensures Settle(a, [c], rejected) == Effect(a, c)
  {
    SettleAppend(a, [], c, rejected);
    assert [] + [c] == [c];
  }

  /** A transaction made only when `when` holds, settled. */
  lemma SettleOptional(a: Account, when: bool, c: Call, rejected: map<Call, string>)
    requires when ==> !Throws(c, rejected)
    ensures Settle(a, if when then [c] else [], rejected) == if when then Effect(a, c) else a
  {
    if when {
      SettleOne(a, c, rejected);
    }
  }

  /** Settling the transactions when none of them throws. */
  lemma SettleTransactions(acc: Account, p: PaymentParams, fee: int, rejected: map<Call, string>)
    requires forall c :: c in Transactions(acc, p, fee) ==> !Throws(c, rejected)
    ensures var amount := p.depositAmount + fee;
      var a := Settle(acc, Transactions(acc, p, fee), rejected);
      && a.tokenAllowance == (if acc.tokenAllowance < MAX_UINT256 / 2 then MAX_UINT256 else acc.tokenAllowance)
      && a.deposited == acc.deposited + (if amount > 0 then amount else 0)
      && a.walletBalance == acc.walletBalance - (if amount > 0 then amount else 0)
      && a.rateAllowance == p.epochRateAllowance
      && a.lockupAllowance == p.lockupAllowance + fee
  {
    var amount := p.depositAmount + fee;
    var low := acc.tokenAllowance < MAX_UINT256 / 2;
    var approval := ApproveService(p.epochRateAllowance, p.lockupAllowance + fee);
    var token: seq<Call> := if low then [Approve(MAX_UINT256)] else [];
    var deposit: seq<Call> := if amount > 0 then [Deposit(amount)] else [];
    var all := Transactions(acc, p, fee);
    assert all == token + deposit + [approval];
    assert low ==> all[0] == Approve(MAX_UINT256);
    assert amount > 0 ==> all[|token|] == Deposit(amount);
    assert all[|all| - 1] == approval;
    SettleConcat(acc, token + deposit, [approval], rejected);
    SettleConcat(acc, token, deposit, rejected);
    var t := Settle(acc, token, rejected);
    var d := Settle(t, deposit, rejected);
    SettleOptional(acc, low, Approve(MAX_UINT256), rejected);
    SettleOptional(t, amount > 0, Deposit(amount), rejected);
    SettleOne(d, approval, rejected);
    assert Settle(acc, token + deposit, rejected) == d;
    assert Settle(acc, all, rejected) == Effect(d, approval);
    assert t.walletBalance == acc.walletBalance && t.deposited == acc.deposited;
    assert d.tokenAllowance == t.tokenAllowance;
  }

  /** Settling a whole successful payment: its setup reads change nothing. */
  lemma SettlePayment(acc: Account, address: string, chosen: Option<DataSet>, p: PaymentParams, fee: int,
                      rejected: map<Call, string>)
    requires forall c :: c in SetupCalls(address, chosen) + Transactions(acc, p, fee) ==> !Throws(c, rejected)
    ensures var amount := p.depositAmount + fee;
      var a := Settle(acc, SetupCalls(address, chosen) + Transactions(acc, p, fee), rejected);
      && a.tokenAllowance == (if acc.tokenAllowance < MAX_UINT256 / 2 then MAX_UINT256 else acc.tokenAllowance)
      && a.tokenAllowance >= MAX_UINT256 / 2
      && a.deposited == acc.deposited + (if amount > 0 then amount else 0)
      && a.walletBalance == acc.walletBalance - (if amount > 0 then amount else 0)
      && a.rateAllowance == p.epochRateAllowance
      && a.lockupAllowance == p.lockupAllowance + fee
  {
    var setup, paid := SetupCalls(address, chosen), Transactions(acc, p, fee);
    SettleConcat(acc, setup, paid, rejected);
    assert forall i :: 0 <= i < |setup| ==> Passive(setup[i]);
    SettlePassive(acc, setup, rejected);
    assert forall c :: c in paid ==> c in setup + paid;
    SettleTransactions(acc, p, fee, rejected);
  }

  /**
   * The account after a successful payment: the token allowance is at
   * least half of MAX_UINT256, a positive amount moved from the wallet into
   * the deposit (which the balance covered), and the service is approved
   * for the requested rate and lockup plus fee.
   */
  lemma PaidAccount(acc: Account, datasets: seq<DataSet>, rejected: map<Call, string>, s: Session, p: PaymentParams, cfg: Config)
    ensures var o := Run(acc, datasets, rejected, s, p, cfg);
      var fee := CreationFee(DatasetSelector.SelectDataset(datasets, cfg.withCDN), cfg);
      var amount := p.depositAmount + fee;
      var a := Settle(acc, o.calls, rejected);
      o.failure.None? ==>
        && a.tokenAllowance == (if acc.tokenAllowance < MAX_UINT256 / 2 then MAX_UINT256 else acc.tokenAllowance)
        && a.tokenAllowance >= MAX_UINT256 / 2
        && a.deposited == acc.deposited + (if amount > 0 then amount else 0)
        && a.walletBalance + a.deposited == acc.walletBalance + acc.deposited
        && (amount > 0 ==> a.walletBalance >= 0)
        && a.rateAllowance == p.epochRateAllowance
        && a.lockupAllowance == p.lockupAllowance + fee
  {
    var o := Run(acc, datasets, rejected, s, p, cfg);
    if o.failure.None? {
      RunTrace(acc, datasets, rejected, s, p, cfg);
      ExecuteStops(Plan(acc, datasets, s, p, cfg), rejected);
      var chosen := DatasetSelector.SelectDataset(datasets, cfg.withCDN);
      SettlePayment(acc, s.address.value, chosen, p, CreationFee(chosen, cfg), rejected);
    }
  }

  /** A failed payment's last status line is its error line, which starts with the cross mark. */
  lemma FailureShown(o: Outcome<Status>)
    requires o.failure.Some?
    ensures Shown(o)[|Shown(o)| - 1] == Failed(o.failure.value.message)
    ensures Text(Shown(o)[|Shown(o)| - 1])[..2] == "❌ "
    ensures o.failure.value.message != "" ==> Text(Shown(o)[|Shown(o)| - 1])[2..] == o.failure.value.message
  {
    var last := Failed(o.failure.value.message);
    assert Shown(o)[|Shown(o)| - 1] == last;
    assert Text(last) == ErrorText(o.failure.value.message);
  }
}
