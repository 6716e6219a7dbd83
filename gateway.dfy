/**
 * The SDK and the chain as the hooks see them: a ledger that answers reads,
 * accepts transactions and records every call in order. Which calls fail is
 * fixed up front by `rejected` (call -> error message), so each run of a
 * hook is deterministic. A hook's run is described by a plan of steps
 * (status updates, gateway calls, the hook's own throws); `Execute` runs a
 * plan up to the first failure.
 */
module Gateway {
  import opened Wrappers
  import opened Types

  datatype Call =
    | Connect                                                  // Synapse.create
    | ListDatasets(client: string)                             // getClientProofSetsWithDetails
    | LookupProvider(payee: string)                            // getProviderIdByAddress
    | ReadAllowance                                            // payments.allowance
    | ReadBalance                                              // payments.walletBalance
    | Approve(amount: int)                                     // payments.approve, then wait
    | Deposit(amount: int)                                     // payments.deposit, then wait
    | ApproveService(rateAllowance: int, lockupAllowance: int) // payments.approveService, then wait
    | Preflight(includeDatasetCreationFee: bool)               // preflightCheck
    | CreateStorage(providerId: Option<int>)                   // synapse.createStorage
    | UploadBytes(size: int)                                   // storageService.upload

  /** The client's funds: USDFC in the wallet, its allowance to the payments contract, funds deposited there, and the service approval. */
  datatype Account = Account(walletBalance: int, tokenAllowance: int, deposited: int, rateAllowance: int, lockupAllowance: int)

  /** What a successful call changes on chain. */
  function Effect(a: Account, c: Call): Account
  {
    match c
    case Approve(x) => a.(tokenAllowance := x)
    case Deposit(x) => a.(walletBalance := a.walletBalance - x, deposited := a.deposited + x)
    case ApproveService(r, l) => a.(rateAllowance := r, lockupAllowance := l)
    case _ => a
  }

  /** Whether the gateway makes `c` throw. Provider lookups are answered from the registry instead. */
  predicate Throws(c: Call, rejected: map<Call, string>)
  {
    c in rejected && !c.LookupProvider?
  }

  /** The account after `calls` in order; a call that throws changes nothing. */
  function Settle(a: Account, calls: seq<Call>, rejected: map<Call, string>): Account
    decreases |calls|
  {
    if calls == [] then a
    else
      var before := Settle(a, calls[..|calls| - 1], rejected);
      var c := calls[|calls| - 1];
      if Throws(c, rejected) then before else Effect(before, c)
  }

  datatype Step<E> = Emit(event: E) | Invoke(call: Call) | Abort(message: string)

  /** Why a run stopped: the hook threw by itself, or a gateway call threw. */
  datatype Failure = Thrown(message: string) | Rejected(call: Call, message: string)

  datatype Outcome<E> = Outcome(events: seq<E>, calls: seq<Call>, failure: Option<Failure>)

  /** The calls a plan would make if nothing failed. */
  function PlannedCalls<E>(plan: seq<Step<E>>): seq<Call>
    decreases |plan|
  {
    if plan == [] then []
    else (if plan[0].Invoke? then [plan[0].call] else []) + PlannedCalls(plan[1..])
  }

  /** The status updates a plan would show if nothing failed. */
  function PlannedEvents<E>(plan: seq<Step<E>>): seq<E>
    decreases |plan|
  {
    if plan == [] then []
    else (if plan[0].Emit? then [plan[0].event] else []) + PlannedEvents(plan[1..])
  }

  /** One step in front of a plan. */
  lemma PlannedStep<E>(st: Step<E>, rest: seq<Step<E>>)
    ensures PlannedCalls([st] + rest) == (if st.Invoke? then [st.call] else []) + PlannedCalls(rest)
    ensures PlannedEvents([st] + rest) == (if st.Emit? then [st.event] else []) + PlannedEvents(rest)
  {
    assert ([st] + rest)[1..] == rest;
  }

  lemma {:induction false} PlannedCallsAppend<E>(p1: seq<Step<E>>, p2: seq<Step<E>>)
    ensures PlannedCalls(p1 + p2) == PlannedCalls(p1) + PlannedCalls(p2)
    decreases |p1|
  {
    if p1 == [] {
      assert p1 + p2 == p2;
    } else {
      var head := if p1[0].Invoke? then [p1[0].call] else [];
      assert (p1 + p2)[0] == p1[0];
      assert (p1 + p2)[1..] == p1[1..] + p2;
      PlannedCallsAppend(p1[1..], p2);
      assert PlannedCalls(p1 + p2) == head + (PlannedCalls(p1[1..]) + PlannedCalls(p2));
      assert PlannedCalls(p1) == head + PlannedCalls(p1[1..]);
    }
  }

  lemma {:induction false} PlannedEventsAppend<E>(p1: seq<Step<E>>, p2: seq<Step<E>>)
    ensures PlannedEvents(p1 + p2) == PlannedEvents(p1) + PlannedEvents(p2)
    decreases |p1|
  {
    if p1 == [] {
      assert p1 + p2 == p2;
    } else {
      var head := if p1[0].Emit? then [p1[0].event] else [];
      assert (p1 + p2)[0] == p1[0];
      assert (p1 + p2)[1..] == p1[1..] + p2;
      PlannedEventsAppend(p1[1..], p2);
      assert PlannedEvents(p1 + p2) == head + (PlannedEvents(p1[1..]) + PlannedEvents(p2));
      assert PlannedEvents(p1) == head + PlannedEvents(p1[1..]);
    }
  }

  /**
   * Run `plan`: events and calls in order, stopping right after the first
   * call that throws or at the first `Abort`. Nothing runs after a failure.
   */
  function Execute<E>(plan: seq<Step<E>>, rejected: map<Call, string>): (o: Outcome<E>)
    decreases |plan|
  {
    if plan == [] then Outcome([], [], None)
    else
      match plan[0]
      case Emit(e) =>
        var o := Execute(plan[1..], rejected);
        o.(events := [e] + o.events)
      case Abort(m) =>
        Outcome([], [], Some(Thrown(m)))
      case Invoke(c) =>
        if Throws(c, rejected) then Outcome([], [c], Some(Rejected(c, rejected[c])))
        else
          var o := Execute(plan[1..], rejected);
          o.(calls := [c] + o.calls)
  }

  /**
   * The calls a run makes are the planned ones up to the failure; a run
   * without failure made all of them.
   */
  lemma {:induction false} ExecuteCalls<E>(plan: seq<Step<E>>, rejected: map<Call, string>)
    ensures Execute(plan, rejected).calls <= PlannedCalls(plan)
    ensures var o := Execute(plan, rejected);
      o.failure.None? ==> o.calls == PlannedCalls(plan)
    decreases |plan|
  {
    if plan != [] {
      var o, t := Execute(plan, rejected), Execute(plan[1..], rejected);
      var planned := PlannedCalls(plan[1..]);
      ExecuteCalls(plan[1..], rejected);
      match plan[0]
      case Emit(e) =>
        assert o.calls == t.calls && PlannedCalls(plan) == planned;
      case Abort(m) =>
      case Invoke(c) =>
        assert PlannedCalls(plan) == [c] + planned;
        if !Throws(c, rejected) {
          assert o.calls == [c] + t.calls;
        }
    }
  }

  /** A run without failure showed every planned status update. */
  lemma {:induction false} ExecuteEvents<E>(plan: seq<Step<E>>, rejected: map<Call, string>)
    ensures var o := Execute(plan, rejected);
      o.failure.None? ==> o.events == PlannedEvents(plan)
    decreases |plan|
  {
    if plan != [] {
      var o, t := Execute(plan, rejected), Execute(plan[1..], rejected);
      ExecuteEvents(plan[1..], rejected);
      match plan[0]
      case Emit(e) =>
        assert o.events == [e] + t.events && o.failure == t.failure;
      case Abort(m) =>
      case Invoke(c) =>
        if !Throws(c, rejected) {
          assert o.events == t.events && o.failure == t.failure;
        }
    }
  }

  /**
   * Every call before the last went through; a gateway failure is the last
   * call made, with the message the gateway gave; in a run that did not end
   * on a gateway failure no call threw.
   */
  lemma {:induction false} ExecuteStops<E>(plan: seq<Step<E>>, rejected: map<Call, string>)
    ensures var o := Execute(plan, rejected);
      forall i :: 0 <= i < |o.calls| - 1 ==> !Throws(o.calls[i], rejected)
    ensures var o := Execute(plan, rejected);
      o.failure.None? || o.failure.value.Thrown? ==> forall c :: c in o.calls ==> !Throws(c, rejected)
    ensures var o := Execute(plan, rejected);
      o.failure.Some? && o.failure.value.Rejected? ==>
        && |o.calls| > 0
        && o.calls[|o.calls| - 1] == o.failure.value.call
        && Throws(o.failure.value.call, rejected)
        && o.failure.value.message == rejected[o.failure.value.call]
    decreases |plan|
  {
    if plan != [] {
      var o, t := Execute(plan, rejected), Execute(plan[1..], rejected);
      ExecuteStops(plan[1..], rejected);
      match plan[0]
      case Emit(e) =>
        assert o.calls == t.calls && o.failure == t.failure;
      case Abort(m) =>
      case Invoke(c) =>
        if !Throws(c, rejected) {
          assert o.calls == [c] + t.calls && o.failure == t.failure;
          assert forall i :: 1 <= i < |o.calls| ==> o.calls[i] == t.calls[i - 1];
        }
    }
  }

  /** A plan that fails hides whatever is appended to it. */
  lemma {:induction false} ExecuteAppendFailed<E>(p1: seq<Step<E>>, p2: seq<Step<E>>, rejected: map<Call, string>)
    requires Execute(p1, rejected).failure.Some?
    ensures Execute(p1 + p2, rejected) == Execute(p1, rejected)
    decreases |p1|
  {
    var p := p1 + p2;
    assert p[0] == p1[0];
    assert p[1..] == p1[1..] + p2;
    match p1[0]
    case Emit(e) =>
      ExecuteAppendFailed(p1[1..], p2, rejected);
    case Abort(m) =>
    case Invoke(c) =>
      if !Throws(c, rejected) {
        ExecuteAppendFailed(p1[1..], p2, rejected);
      }
  }

  /** Running two plans back to back is running the first, then the second when the first did not fail. */
  lemma {:induction false} ExecuteAppend<E>(p1: seq<Step<E>>, p2: seq<Step<E>>, rejected: map<Call, string>)
    requires Execute(p1, rejected).failure.None?
    ensures var o1, o2 := Execute(p1, rejected), Execute(p2, rejected);
      Execute(p1 + p2, rejected) == Outcome(o1.events + o2.events, o1.calls + o2.calls, o2.failure)
    decreases |p1|
  {
    if p1 == [] {
      assert p1 + p2 == p2;
    } else {
      var p := p1 + p2;
      assert p[0] == p1[0];
      assert p[1..] == p1[1..] + p2;
      var o1, o2 := Execute(p1, rejected), Execute(p2, rejected);
      var t, r := Execute(p1[1..], rejected), Execute(p1[1..] + p2, rejected);
      ExecuteAppend(p1[1..], p2, rejected);
      match p1[0]
      case Emit(e) =>
        assert o1 == t.(events := [e] + t.events);
        assert Execute(p, rejected) == r.(events := [e] + r.events);
        assert o1.events + o2.events == [e] + (t.events + o2.events);
      case Invoke(c) =>
        assert o1 == t.(calls := [c] + t.calls);
        assert Execute(p, rejected) == r.(calls := [c] + r.calls);
        assert o1.calls + o2.calls == [c] + (t.calls + o2.calls);
    }
  }

  /** A status update followed by whatever `next` yields. */
  function Emitted<E>(e: E, next: Outcome<E>): Outcome<E>
  {
    next.(events := [e] + next.events)
  }

  /** A gateway call followed, when it does not throw, by whatever `next` yields. */
  function Called<E>(c: Call, next: Outcome<E>, rejected: map<Call, string>): Outcome<E>
  {
    if Throws(c, rejected) then Outcome([], [c], Some(Rejected(c, rejected[c])))
    else next.(calls := [c] + next.calls)
  }

  lemma ExecuteEmit<E>(e: E, rest: seq<Step<E>>, rejected: map<Call, string>)
    ensures Execute([Emit(e)] + rest, rejected) == Emitted(e, Execute(rest, rejected))
  {
    assert ([Emit(e)] + rest)[1..] == rest;
  }

  lemma ExecuteInvoke<E>(c: Call, rest: seq<Step<E>>, rejected: map<Call, string>)
    ensures Execute([Invoke(c)] + rest, rejected) == Called(c, Execute(rest, rejected), rejected)
  {
    assert ([Invoke(c)] + rest)[1..] == rest;
  }

  /** A plan step per event, in order: callbacks the SDK fires during a call. */
  function Emits<E>(evs: seq<E>): (plan: seq<Step<E>>)
    ensures |plan| == |evs|
    ensures forall i :: 0 <= i < |evs| ==> plan[i] == Emit(evs[i])
  {
    if evs == [] then [] else [Emit(evs[0])] + Emits(evs[1..])
  }

  /** Callbacks make no calls and show exactly themselves. */
  lemma {:induction false} PlannedEmits<E>(evs: seq<E>)
    ensures PlannedCalls(Emits(evs)) == []
    ensures PlannedEvents(Emits(evs)) == evs
    decreases |evs|
  {
    if evs != [] {
      PlannedEmits(evs[1..]);
      PlannedStep(Emit(evs[0]), Emits(evs[1..]));
      assert Emits(evs) == [Emit(evs[0])] + Emits(evs[1..]);
      assert [evs[0]] + evs[1..] == evs;
    }
  }

  /** Status updates `evs`, then whatever `next` yields. */
  function EmittedAll<E>(evs: seq<E>, next: Outcome<E>): Outcome<E>
  {
    next.(events := evs + next.events)
  }

  lemma {:induction false} ExecuteEmits<E>(evs: seq<E>, rest: seq<Step<E>>, rejected: map<Call, string>)
    ensures Execute(Emits(evs) + rest, rejected) == EmittedAll(evs, Execute(rest, rejected))
    decreases |evs|
  {
    if evs == [] {
      assert Emits(evs) + rest == rest;
    } else {
      var tail := Emits(evs[1..]) + rest;
      assert Emits(evs) + rest == [Emit(evs[0])] + tail;
      ExecuteEmit(evs[0], tail, rejected);
      ExecuteEmits(evs[1..], rest, rejected);
      assert [evs[0]] + (evs[1..] + Execute(rest, rejected).events) == evs + Execute(rest, rejected).events;
    }
  }

  lemma AdvanceEmits<E>(o: Outcome<E>, events: seq<E>, calls: seq<Call>, evs: seq<E>, i: nat, r: Outcome<E>)
    requires i < |evs|
    requires Pending(o, events + evs[..i], calls, EmittedAll(evs[i..], r))
    ensures Pending(o, events + evs[..i + 1], calls, EmittedAll(evs[i + 1..], r))
  {
    assert evs[i..] == [evs[i]] + evs[i + 1..];
    assert evs[..i + 1] == evs[..i] + [evs[i]];
    assert events + evs[..i] + (evs[i..] + r.events) == events + evs[..i + 1] + (evs[i + 1..] + r.events);
  }

  /**
   * `o` is the run's outcome once `events` were shown and `calls` made and
   * what remains yields `r`: the bookkeeping a hook's method keeps while it
   * walks its plan.
   */
  ghost predicate Pending<E>(o: Outcome<E>, events: seq<E>, calls: seq<Call>, r: Outcome<E>)
  {
    o == Outcome(events + r.events, calls + r.calls, r.failure)
  }

  lemma AdvanceEmit<E>(o: Outcome<E>, events: seq<E>, calls: seq<Call>, e: E, r: Outcome<E>)
    requires Pending(o, events, calls, Emitted(e, r))
    ensures Pending(o, events + [e], calls, r)
  {
    assert events + ([e] + r.events) == events + [e] + r.events;
  }

  lemma AdvanceCall<E>(o: Outcome<E>, events: seq<E>, calls: seq<Call>, c: Call, r: Outcome<E>, rejected: map<Call, string>)
    requires Pending(o, events, calls, Called(c, r, rejected))
    ensures Throws(c, rejected) ==> o == Outcome(events, calls + [c], Some(Rejected(c, rejected[c])))
    ensures !Throws(c, rejected) ==> Pending(o, events, calls + [c], r)
  {
    assert events + [] == events;
    assert calls + ([c] + r.calls) == calls + [c] + r.calls;
  }

  lemma Finish<E>(o: Outcome<E>, events: seq<E>, calls: seq<Call>, failure: Option<Failure>)
    requires Pending(o, events, calls, Outcome([], [], failure))
    ensures o == Outcome(events, calls, failure)
  {
    assert events + [] == events && calls + [] == calls;
  }

  lemma {:induction false} SettleAppend(a: Account, calls: seq<Call>, c: Call, rejected: map<Call, string>)
    ensures Settle(a, calls + [c], rejected)
         == if Throws(c, rejected) then Settle(a, calls, rejected) else Effect(Settle(a, calls, rejected), c)
  {
    assert (calls + [c])[..|calls|] == calls;
  }

  /** Reads, lookups and uploads leave the account as it is. */
  predicate Passive(c: Call)
  {
    !(c.Approve? || c.Deposit? || c.ApproveService?)
  }

  lemma {:induction false} SettlePassive(a: Account, calls: seq<Call>, rejected: map<Call, string>)
    requires forall i :: 0 <= i < |calls| ==> Passive(calls[i])
    ensures Settle(a, calls, rejected) == a
    decreases |calls|
  {
    if calls != [] {
      SettlePassive(a, calls[..|calls| - 1], rejected);
    }
  }

  /** Settling two runs of calls one after the other. */
  lemma {:induction false} SettleConcat(a: Account, xs: seq<Call>, ys: seq<Call>, rejected: map<Call, string>)
    ensures Settle(a, xs + ys, rejected) == Settle(Settle(a, xs, rejected), ys, rejected)
    decreases |ys|
  {
    if ys == [] {
      assert xs + ys == xs;
    } else {
      var init := ys[..|ys| - 1];
      assert xs + ys == (xs + init) + [ys[|ys| - 1]];
      assert ys == init + [ys[|ys| - 1]];
      SettleAppend(a, xs + init, ys[|ys| - 1], rejected);
      SettleAppend(Settle(a, xs, rejected), init, ys[|ys| - 1], rejected);
      SettleConcat(a, xs, init, rejected);
    }
  }

  /** The connected client's view of the SDK and the chain. */
  class Ledger {
    var account: Account
    const datasets: seq<DataSet>
    const providerIds: map<string, int>
    const rejected: map<Call, string>
    var trace: seq<Call>
    ghost const opening: Account

    /** The account is the opening account with every call made so far settled. */
    ghost predicate Valid()
      reads this
    {
      account == Settle(opening, trace, rejected)
    }

    constructor (account: Account, datasets: seq<DataSet>, providerIds: map<string, int>, rejected: map<Call, string>)
      ensures Valid()
      ensures this.account == account && this.datasets == datasets
      ensures this.providerIds == providerIds && this.rejected == rejected
      ensures trace == []
    {
      opening := account;
      this.account := account;
      this.datasets := datasets;
      this.providerIds := providerIds;
      this.rejected := rejected;
      trace := [];
    }

    /** Make a call (for a transaction: submit it and wait for it); `ok` is false when it throws. */
    method Submit(c: Call) returns (ok: bool)
      requires Valid() && !c.LookupProvider?
      modifies this
      ensures Valid()
      ensures trace == old(trace) + [c]
      ensures ok == !Throws(c, rejected)
      ensures account == if ok then Effect(old(account), c) else old(account)
    {
      SettleAppend(opening, trace, c, rejected);
      trace := trace + [c];
      ok := c !in rejected;
      if ok {
        account := Effect(account, c);
      }
    }

    /** `getProviderIdByAddress`: throws (None) for an address the registry does not know. */
    method LookupProvider(payee: string) returns (id: Option<int>)
      requires Valid()
      modifies this
      ensures Valid()
      ensures trace == old(trace) + [Call.LookupProvider(payee)]
      ensures account == old(account)
      ensures id == if payee in providerIds then Some(providerIds[payee]) else None
    {
      SettleAppend(opening, trace, Call.LookupProvider(payee), rejected);
      trace := trace + [Call.LookupProvider(payee)];
      id := if payee in providerIds then Some(providerIds[payee]) else None;
    }
  }
}
