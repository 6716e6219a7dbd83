/**
 * The payment hook: make sure the client can pay for storage. It checks the
 * session, picks the client's dataset (a client without one also pays the
 * dataset creation fee), checks the wallet balance, then approves the token,
 * deposits and approves the storage service, in that order, showing a status
 * line at each step.
 */
module Payment {
  import opened Wrappers
  import opened Types
  import opened Gateway
  import DatasetSelector

  const MAX_UINT256: int := 0xFFFF_FFFF_FFFF_FFFF_FFFF_FFFF_FFFF_FFFF_FFFF_FFFF_FFFF_FFFF_FFFF_FFFF_FFFF_FFFF

  datatype PaymentParams = PaymentParams(lockupAllowance: int, epochRateAllowance: int, depositAmount: int)

  /** The hook's status line, as a value; `Text` gives the line the user sees. */
  datatype Status =
    | Idle
    | Preparing
    | Approving
    | Approved
    | Depositing
    | Deposited
    | ApprovingService
    | ServiceApproved
    | Succeeded
    | Failed(message: string)

  const INSUFFICIENT: string := "Insufficient USDFC balance"
  const FALLBACK_ERROR: string := "Transaction failed. Please try again."

  /** The status line shown when the payment fails with `message`. */
  function ErrorText(message: string): (t: string)
    ensures |t| >= 3 && t[..2] == "❌ "
    ensures message != "" ==> t[2..] == message
    ensures message == "" ==> t[2..] == FALLBACK_ERROR
  {
    "❌ " + (if message == "" then FALLBACK_ERROR else message)
  }

  function Text(st: Status): string
  {
    match st
    case Idle => ""
    case Preparing => "🔄 Preparing transaction..."
    case Approving => "💰 Approving USDFC to cover storage costs..."
    case Approved => "💰 Successfully approved USDFC to cover storage costs"
    case Depositing => "💰 Depositing USDFC to cover storage costs..."
    case Deposited => "💰 Successfully deposited USDFC to cover storage costs"
    case ApprovingService => "💰 Approving Filecoin Warm Storage service USDFC spending rates..."
    case ServiceApproved => "💰 Successfully approved Filecoin Warm Storage spending rates"
    case Succeeded => "✅ Payment was successful!"
    case Failed(m) => ErrorText(m)
  }

  /** The session checks, in the order the hook makes them. */
  function Guard(s: Session): (m: Option<string>)
    ensures m.None? <==> s.signer && Present(s.network) && Present(s.address)
    ensures !s.signer ==> m == Some("Signer not found")
    ensures s.signer && !Present(s.network) ==> m == Some("Network not found")
    ensures s.signer && Present(s.network) && !Present(s.address) ==> m == Some("Address not found")
  {
    if !s.signer then Some("Signer not found")
    else if !Present(s.network) then Some("Network not found")
    else if !Present(s.address) then Some("Address not found")
    else None
  }

  /** The dataset creation fee is owed only by a client without a dataset. */
  function CreationFee(chosen: Option<DataSet>, cfg: Config): int
  {
    if chosen.Some? then 0 else cfg.datasetCreationFee
  }

  /** Connect, list the client's datasets, look up the chosen dataset's provider, read allowance and balance. */
  function Setup(address: string, chosen: Option<DataSet>): seq<Step<Status>>
  {
    [Emit(Preparing), Invoke(Connect), Invoke(ListDatasets(address))] + Reads(chosen)
  }

  /** The provider lookup (only when a dataset was chosen), then the allowance and balance reads. */
  function Reads(chosen: Option<DataSet>): seq<Step<Status>>
  {
    (if chosen.Some? then [Invoke(LookupProvider(chosen.value.payee))] else [])
    + [Invoke(ReadAllowance), Invoke(ReadBalance)]
  }

  /** A transaction the hook makes when `when` holds: a status line, the call (and the wait), a status line. */
  function Transaction(when: bool, before: Status, c: Call, after: Status): seq<Step<Status>>
  {
    if when then [Emit(before), Invoke(c), Emit(after)] else []
  }

  /** What happens once balance and allowance are known. */
  function Funding(acc: Account, p: PaymentParams, fee: int): seq<Step<Status>>
  {
    var amount := p.depositAmount + fee;
    if acc.walletBalance < amount then [Abort(INSUFFICIENT)]
    else
      Transaction(acc.tokenAllowance < MAX_UINT256 / 2, Approving, Approve(MAX_UINT256), Approved)
      + Transaction(amount > 0, Depositing, Deposit(amount), Deposited)
      + Transaction(true, ApprovingService, ApproveService(p.epochRateAllowance, p.lockupAllowance + fee), ServiceApproved)
  }

  /** The whole payment, as planned from the account it starts from. */
  function Plan(acc: Account, datasets: seq<DataSet>, s: Session, p: PaymentParams, cfg: Config): seq<Step<Status>>
  {
    match Guard(s)
    case Some(m) => [Abort(m)]
    case None =>
      var chosen := DatasetSelector.SelectDataset(datasets, cfg.withCDN);
      Setup(s.address.value, chosen) + Funding(acc, p, CreationFee(chosen, cfg))
  }

  function Run(acc: Account, datasets: seq<DataSet>, rejected: map<Call, string>, s: Session, p: PaymentParams, cfg: Config): Outcome<Status>
  {
    Execute(Plan(acc, datasets, s, p, cfg), rejected)
  }

  /** Every status line the run shows: its progress lines, then the success or error line. */
  function Shown(o: Outcome<Status>): seq<Status>
  {
    o.events + [if o.failure.None? then Succeeded else Failed(o.failure.value.message)]
  }

  // The runs of the plan's pieces, step by step; the hook's methods are proved against these.

  function TransactionRun(when: bool, before: Status, c: Call, after: Status, next: Outcome<Status>,
                          rejected: map<Call, string>): Outcome<Status>
  {
    if when then Emitted(before, Called(c, Emitted(after, next), rejected)) else next
  }

  function FundingRun(acc: Account, p: PaymentParams, fee: int, rejected: map<Call, string>): Outcome<Status>
  {
    var amount := p.depositAmount + fee;
    if acc.walletBalance < amount then Outcome([], [], Some(Thrown(INSUFFICIENT)))
    else
      TransactionRun(acc.tokenAllowance < MAX_UINT256 / 2, Approving, Approve(MAX_UINT256), Approved,
        TransactionRun(amount > 0, Depositing, Deposit(amount), Deposited,
          TransactionRun(true, ApprovingService, ApproveService(p.epochRateAllowance, p.lockupAllowance + fee), ServiceApproved,
            Outcome([], [], None), rejected), rejected), rejected)
  }

  function ReadsRun(chosen: Option<DataSet>, next: Outcome<Status>, rejected: map<Call, string>): Outcome<Status>
  {
    var readings := Called(ReadAllowance, Called(ReadBalance, next, rejected), rejected);
    if chosen.Some? then Called(LookupProvider(chosen.value.payee), readings, rejected) else readings
  }

  function SetupRun(address: string, chosen: Option<DataSet>, next: Outcome<Status>, rejected: map<Call, string>): Outcome<Status>
  {
    Emitted(Preparing, Called(Connect, Called(ListDatasets(address), ReadsRun(chosen, next, rejected), rejected), rejected))
  }

  lemma ExecuteTransaction(when: bool, before: Status, c: Call, after: Status, rest: seq<Step<Status>>, rejected: map<Call, string>)
    ensures Execute(Transaction(when, before, c, after) + rest, rejected)
         == TransactionRun(when, before, c, after, Execute(rest, rejected), rejected)
  {
    if when {
      assert Transaction(when, before, c, after) + rest == [Emit(before)] + ([Invoke(c)] + ([Emit(after)] + rest));
      ExecuteEmit(before, [Invoke(c)] + ([Emit(after)] + rest), rejected);
      ExecuteInvoke(c, [Emit(after)] + rest, rejected);
      ExecuteEmit(after, rest, rejected);
    } else {
      assert Transaction(when, before, c, after) + rest == rest;
    }
  }

  lemma ExecuteFunding(acc: Account, p: PaymentParams, fee: int, rejected: map<Call, string>)
    ensures Execute(Funding(acc, p, fee), rejected) == FundingRun(acc, p, fee, rejected)
  {
    var amount := p.depositAmount + fee;
    if acc.walletBalance >= amount {
      var token := Transaction(acc.tokenAllowance < MAX_UINT256 / 2, Approving, Approve(MAX_UINT256), Approved);
      var deposit := Transaction(amount > 0, Depositing, Deposit(amount), Deposited);
      var storage := Transaction(true, ApprovingService, ApproveService(p.epochRateAllowance, p.lockupAllowance + fee), ServiceApproved);
      assert Funding(acc, p, fee) == token + (deposit + (storage + []));
      ExecuteTransaction(acc.tokenAllowance < MAX_UINT256 / 2, Approving, Approve(MAX_UINT256), Approved, deposit + (storage + []), rejected);
      ExecuteTransaction(amount > 0, Depositing, Deposit(amount), Deposited, storage + [], rejected);
      ExecuteTransaction(true, ApprovingService, ApproveService(p.epochRateAllowance, p.lockupAllowance + fee), ServiceApproved, [], rejected);
    }
  }

  lemma ExecuteBalances(rest: seq<Step<Status>>, rejected: map<Call, string>)
    ensures Execute([Invoke(ReadAllowance), Invoke(ReadBalance)] + rest, rejected)
         == Called(ReadAllowance, Called(ReadBalance, Execute(rest, rejected), rejected), rejected)
  {
    assert [Invoke(ReadAllowance), Invoke(ReadBalance)] + rest == [Invoke(ReadAllowance)] + ([Invoke(ReadBalance)] + rest);
    ExecuteInvoke(ReadAllowance, [Invoke(ReadBalance)] + rest, rejected);
    ExecuteInvoke(ReadBalance, rest, rejected);
  }

  lemma ExecuteReads(chosen: Option<DataSet>, rest: seq<Step<Status>>, rejected: map<Call, string>)
    ensures Execute(Reads(chosen) + rest, rejected) == ReadsRun(chosen, Execute(rest, rejected), rejected)
  {
    var tail := [Invoke(ReadAllowance), Invoke(ReadBalance)] + rest;
    ExecuteBalances(rest, rejected);
    if chosen.Some? {
      assert Reads(chosen) + rest == [Invoke(LookupProvider(chosen.value.payee))] + tail;
      ExecuteInvoke(LookupProvider(chosen.value.payee), tail, rejected);
    } else {
      assert Reads(chosen) + rest == tail;
    }
  }

  lemma ExecuteSetup(address: string, chosen: Option<DataSet>, rest: seq<Step<Status>>, rejected: map<Call, string>)
    ensures Execute(Setup(address, chosen) + rest, rejected) == SetupRun(address, chosen, Execute(rest, rejected), rejected)
  {
    var tail := Reads(chosen) + rest;
    ExecuteReads(chosen, rest, rejected);
    assert Setup(address, chosen) + rest == [Emit(Preparing)] + ([Invoke(Connect)] + ([Invoke(ListDatasets(address))] + tail));
    ExecuteEmit(Preparing, [Invoke(Connect)] + ([Invoke(ListDatasets(address))] + tail), rejected);
    ExecuteInvoke(Connect, [Invoke(ListDatasets(address))] + tail, rejected);
    ExecuteInvoke(ListDatasets(address), tail, rejected);
  }

  /** The payment's run, piece by piece. */
  lemma RunUnfolds(acc: Account, datasets: seq<DataSet>, rejected: map<Call, string>, s: Session, p: PaymentParams, cfg: Config)
    ensures Guard(s).Some? ==> Run(acc, datasets, rejected, s, p, cfg) == Outcome([], [], Some(Thrown(Guard(s).value)))
    ensures Guard(s).None? ==>
      var chosen := DatasetSelector.SelectDataset(datasets, cfg.withCDN);
      Run(acc, datasets, rejected, s, p, cfg)
        == SetupRun(s.address.value, chosen, FundingRun(acc, p, CreationFee(chosen, cfg), rejected), rejected)
  {
    if Guard(s).None? {
      var chosen := DatasetSelector.SelectDataset(datasets, cfg.withCDN);
      ExecuteSetup(s.address.value, chosen, Funding(acc, p, CreationFee(chosen, cfg)), rejected);
      ExecuteFunding(acc, p, CreationFee(chosen, cfg), rejected);
    }
  }

  class PaymentHook {
    var status: Status
    ghost var shown: seq<Status>

    constructor ()
      ensures status == Idle && shown == []
    {
      status := Idle;
      shown := [];
    }

    method Show(st: Status)
      modifies this
      ensures status == st && shown == old(shown) + [st]
    {
      status := st;
      shown := shown + [st];
    }

    /** The hook has shown `events` (after `s0`) and made `calls` (after `t0`). */
    ghost predicate Tracking(gw: Ledger, t0: seq<Call>, s0: seq<Status>, events: seq<Status>, calls: seq<Call>)
      reads this, gw
    {
      gw.trace == t0 + calls && gw.Valid() && shown == s0 + events
    }

    /** The run `o` is over: its calls are made, its lines shown, its final line is the status. */
    ghost predicate Settled(gw: Ledger, t0: seq<Call>, s0: seq<Status>, o: Outcome<Status>)
      reads this, gw
    {
      && gw.trace == t0 + o.calls
      && gw.Valid()
      && shown == s0 + Shown(o)
      && status == Shown(o)[|Shown(o)| - 1]
    }

    /** Pay for storage on `gw` with the session `s`. */
    method Pay(gw: Ledger, s: Session, p: PaymentParams, cfg: Config)
      requires gw.Valid()
      modifies this, gw
      ensures gw.Valid()
      ensures var o := Run(old(gw.account), gw.datasets, gw.rejected, s, p, cfg);
        && gw.trace == old(gw.trace) + o.calls
        && gw.account == Settle(old(gw.account), o.calls, gw.rejected)
        && shown == old(shown) + Shown(o)
        && status == Shown(o)[|Shown(o)| - 1]
    {
      ghost var a0, t0, s0 := gw.account, gw.trace, shown;
      ghost var target := Run(a0, gw.datasets, gw.rejected, s, p, cfg);
      RunUnfolds(a0, gw.datasets, gw.rejected, s, p, cfg);
      var chosen := DatasetSelector.SelectDataset(gw.datasets, cfg.withCDN);
      Attempt(gw, s, p, cfg, chosen, target, t0, a0, s0);
      SettleConcat(gw.opening, t0, target.calls, gw.rejected);
    }

    /** The payment itself; `Pay` adds what it means for the account. */
    method Attempt(gw: Ledger, s: Session, p: PaymentParams, cfg: Config, chosen: Option<DataSet>,
                   ghost target: Outcome<Status>, ghost t0: seq<Call>, ghost a0: Account, ghost s0: seq<Status>)
      requires Guard(s).Some? ==> target == Outcome([], [], Some(Thrown(Guard(s).value)))
      requires Guard(s).None? ==>
        target == SetupRun(s.address.value, chosen, FundingRun(a0, p, CreationFee(chosen, cfg), gw.rejected), gw.rejected)
      requires gw.Valid() && gw.account == a0 && gw.trace == t0 && shown == s0
      modifies this, gw
      ensures Settled(gw, t0, s0, target)
    {
      var guard := Guard(s);
      if guard.Some? {
        Show(Failed(guard.value));
        assert gw.trace == t0 + [];
      } else {
        var address := s.address.value;
        var fee := if chosen.Some? then 0 else cfg.datasetCreationFee;
        assert Pending(target, [], [], SetupRun(address, chosen, FundingRun(a0, p, fee, gw.rejected), gw.rejected));
        assert Tracking(gw, t0, s0, [], []);
        var ok, calls := Prepare(gw, address, chosen, target, t0, a0, s0, FundingRun(a0, p, fee, gw.rejected));
        if ok {
          Fund(gw, p, fee, target, t0, a0, s0, calls);
        }
      }
    }

    /**
     * The setup steps: show the first status, connect, list the client's
     * datasets, look up the chosen one's provider (a failed lookup is
     * swallowed), read the allowance and the balance.
     */
    method Prepare(gw: Ledger, address: string, chosen: Option<DataSet>, ghost target: Outcome<Status>,
                   ghost t0: seq<Call>, ghost a0: Account, ghost s0: seq<Status>, ghost next: Outcome<Status>)
      returns (ok: bool, ghost calls: seq<Call>)
      requires Pending(target, [], [], SetupRun(address, chosen, next, gw.rejected))
      requires Tracking(gw, t0, s0, [], []) && gw.account == a0
      modifies this, gw
      ensures ok ==> Pending(target, [Preparing], calls, next) && Tracking(gw, t0, s0, [Preparing], calls) && gw.account == a0
      ensures !ok ==> Settled(gw, t0, s0, target)
    {
      ghost var listed := ReadsRun(chosen, next, gw.rejected);
      Show(Preparing);
      AdvanceEmit(target, [], [], Preparing, Called(Connect, Called(ListDatasets(address), listed, gw.rejected), gw.rejected));
      assert [] + [Preparing] == [Preparing];
      calls := [];
      ok := Request(gw, Connect, target, t0, s0, [Preparing], calls,
                    Called(ListDatasets(address), listed, gw.rejected));
      if !ok { return; }
      calls := calls + [Connect];
      ok := Request(gw, ListDatasets(address), target, t0, s0, [Preparing], calls, listed);
      if !ok { return; }
      calls := calls + [ListDatasets(address)];

      ghost var balance := Called(ReadBalance, next, gw.rejected);
      if chosen.Some? {
        var payee := chosen.value.payee;
                AdvanceCall(target, [Preparing], calls, LookupProvider(payee), Called(ReadAllowance, balance, gw.rejected), gw.rejected);
        var _ := gw.LookupProvider(payee);
        calls := calls + [LookupProvider(payee)];
      }
      ok := Request(gw, ReadAllowance, target, t0, s0, [Preparing], calls, balance);
      if !ok { return; }
      calls := calls + [ReadAllowance];
      ok := Request(gw, ReadBalance, target, t0, s0, [Preparing], calls, next);
      if !ok { return; }
      calls := calls + [ReadBalance];
    }

    /** Check the balance, then approve the token when needed, deposit when there is something to deposit, and approve the service. */
    method Fund(gw: Ledger, p: PaymentParams, fee: int, ghost target: Outcome<Status>, ghost t0: seq<Call>,
                ghost a0: Account, ghost s0: seq<Status>, ghost calls: seq<Call>)
      requires Pending(target, [Preparing], calls, FundingRun(a0, p, fee, gw.rejected))
      requires Tracking(gw, t0, s0, [Preparing], calls) && gw.account == a0
      modifies this, gw
      ensures Settled(gw, t0, s0, target)
    {
      var amount := p.depositAmount + fee;
      var allowance, balance := gw.account.tokenAllowance, gw.account.walletBalance;
      if balance < amount {
        Finish(target, [Preparing], calls, Some(Thrown(INSUFFICIENT)));
        Show(Failed(INSUFFICIENT));
        return;
      }
      var approval := ApproveService(p.epochRateAllowance, p.lockupAllowance + fee);
      ghost var done := Outcome([], [], None);
      ghost var storage := TransactionRun(true, ApprovingService, approval, ServiceApproved, done, gw.rejected);
      ghost var deposit := TransactionRun(amount > 0, Depositing, Deposit(amount), Deposited, storage, gw.rejected);
      var ok, events, calls' := Transact(gw, allowance < MAX_UINT256 / 2, Approving, Approve(MAX_UINT256), Approved,
                                         target, t0, s0, [Preparing], calls, deposit);
      if !ok { return; }
      ok, events, calls' := Transact(gw, amount > 0, Depositing, Deposit(amount), Deposited,
                                     target, t0, s0, events, calls', storage);
      if !ok { return; }
      ok, events, calls' := Transact(gw, true, ApprovingService, approval, ServiceApproved,
                                     target, t0, s0, events, calls', done);
      if !ok { return; }
      Finish(target, events, calls', None);
      Show(Succeeded);
    }

    /** One read or call; when it throws, show the error line and settle the run. */
    method Request(gw: Ledger, c: Call, ghost target: Outcome<Status>, ghost t0: seq<Call>,
                   ghost s0: seq<Status>, ghost events: seq<Status>, ghost calls: seq<Call>, ghost next: Outcome<Status>)
      returns (ok: bool)
      requires !c.LookupProvider?
      requires Pending(target, events, calls, Called(c, next, gw.rejected))
      requires Tracking(gw, t0, s0, events, calls)
      modifies this, gw
      ensures ok ==> && Pending(target, events, calls + [c], next)
                     && Tracking(gw, t0, s0, events, calls + [c])
                     && gw.account == Effect(old(gw.account), c)
      ensures !ok ==> Settled(gw, t0, s0, target)
    {
      AdvanceCall(target, events, calls, c, next, gw.rejected);
      ok := gw.Submit(c);
      if !ok {
        Show(Failed(gw.rejected[c]));
        assert shown == s0 + (events + [Failed(gw.rejected[c])]);
      }
    }

    /**
     * One transaction, made only when `when` holds: show `before`, submit
     * `c` and wait for it, show `after`; when it fails, show the error line
     * and settle the run.
     */
    method Transact(gw: Ledger, when: bool, before: Status, c: Call, after: Status, ghost target: Outcome<Status>,
                    ghost t0: seq<Call>, ghost s0: seq<Status>,
                    ghost events: seq<Status>, ghost calls: seq<Call>, ghost next: Outcome<Status>)
      returns (ok: bool, ghost events': seq<Status>, ghost calls': seq<Call>)
      requires !c.LookupProvider?
      requires Pending(target, events, calls, TransactionRun(when, before, c, after, next, gw.rejected))
      requires Tracking(gw, t0, s0, events, calls)
      modifies this, gw
      ensures ok ==> Pending(target, events', calls', next) && Tracking(gw, t0, s0, events', calls')
      ensures !ok ==> Settled(gw, t0, s0, target)
    {
      events', calls' := events, calls;
      ok := true;
      if !when {
        return;
      }
      AdvanceEmit(target, events, calls, before, Called(c, Emitted(after, next), gw.rejected));
      AdvanceCall(target, events + [before], calls, c, Emitted(after, next), gw.rejected);
      Show(before);
      ok := gw.Submit(c);
      if !ok {
        Show(Failed(gw.rejected[c]));
        assert shown == s0 + (events + [before] + [Failed(gw.rejected[c])]);
        return;
      }
      AdvanceEmit(target, events + [before], calls + [c], after, next);
      Show(after);
      events', calls' := events + [before] + [after], calls + [c];
    }
  }
}
