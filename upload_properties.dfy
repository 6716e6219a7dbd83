/**
 * What an upload does, stated on its run: which SDK calls it makes and with
 * which arguments, what the progress bar, the status line and the upload
 * record look like afterwards, and how the progress moves along the way.
 * `Uploader.Upload` leaves the ledger's trace and the hook's state exactly
 * as `FileUpload.UploadRun` and `FileUpload.Replay` say, so each lemma here
 * is a statement about the hook.
 */
module UploadProperties {
  import opened Wrappers
  import opened Types
  import opened Gateway
  import opened FileUpload
  import DatasetSelector

  /**
   * The calls of an upload whose session checks pass, if nothing fails:
   * connect, list the datasets, look up the provider of the dataset
   * `getDataset` chose, the preflight check (with the creation fee when
   * `getDataset` found no provider id), create the storage service for that
   * provider id, upload the bytes.
   */
  function UploadCalls(address: string, sel: DatasetSelector.Selection, file: FileMeta): seq<Call>
  {
    [Connect, ListDatasets(address)]
    + (if sel.queried.Some? then [LookupProvider(sel.queried.value)] else [])
    + [Preflight(IncludeCreationFee(sel.providerId)), CreateStorage(sel.providerId), UploadBytes(file.size)]
  }

  /** The events of an upload that does not fail, before `onSuccess`. */
  function UploadEvents(creation: seq<Event>, uploading: seq<Event>, commp: string): seq<Event>
  {
    [Begin, CheckFunds, SetUp] + creation + [StartUpload] + uploading + [Stored(commp)]
  }

  lemma PlannedChecks(providerId: Option<int>)
    ensures PlannedCalls(CheckSteps(providerId)) == [Preflight(IncludeCreationFee(providerId))]
    ensures PlannedEvents(CheckSteps(providerId)) == [CheckFunds, SetUp]
  {
    var preflight := Preflight(IncludeCreationFee(providerId));
    var last: seq<Step<Event>> := [Emit(SetUp)] + [];
    assert CheckSteps(providerId) == [Emit(CheckFunds)] + ([Invoke(preflight)] + last);
    PlannedStep<Event>(Emit(SetUp), []);
    PlannedStep(Invoke(preflight), last);
    PlannedStep(Emit(CheckFunds), [Invoke(preflight)] + last);
  }

  lemma PlannedLookup(chosen: Option<DataSet>)
    ensures PlannedCalls(LookupSteps(chosen)) == if chosen.Some? then [LookupProvider(chosen.value.payee)] else []
    ensures PlannedEvents(LookupSteps(chosen)) == []
  {
    if chosen.Some? {
      PlannedStep<Event>(Invoke(LookupProvider(chosen.value.payee)), []);
      assert LookupSteps(chosen) == [Invoke(LookupProvider(chosen.value.payee))] + [];
    }
  }

  lemma PlannedStart(address: string, chosen: Option<DataSet>, providerId: Option<int>)
    ensures PlannedCalls(StartSteps(address, chosen, providerId))
         == [Connect, ListDatasets(address)] + PlannedCalls(LookupSteps(chosen)) + [Preflight(IncludeCreationFee(providerId))]
    ensures PlannedEvents(StartSteps(address, chosen, providerId)) == [Begin, CheckFunds, SetUp]
  {
    var tail := LookupSteps(chosen) + CheckSteps(providerId);
    PlannedChecks(providerId);
    PlannedLookup(chosen);
    PlannedCallsAppend(LookupSteps(chosen), CheckSteps(providerId));
    PlannedEventsAppend(LookupSteps(chosen), CheckSteps(providerId));
    assert StartSteps(address, chosen, providerId) == [Emit(Begin)] + ([Invoke(Connect)] + ([Invoke(ListDatasets(address))] + tail));
    PlannedStep(Invoke(ListDatasets(address)), tail);
    PlannedStep(Invoke(Connect), [Invoke(ListDatasets(address))] + tail);
    PlannedStep(Emit(Begin), [Invoke(Connect)] + ([Invoke(ListDatasets(address))] + tail));
  }

  lemma PlannedCreation(creation: seq<Event>, providerId: Option<int>)
    ensures PlannedCalls(CreationSteps(creation, providerId)) == [CreateStorage(providerId)]
    ensures PlannedEvents(CreationSteps(creation, providerId)) == creation + [StartUpload]
  {
    var last: seq<Step<Event>> := [Emit(StartUpload)] + [];
    var tail := [Invoke(CreateStorage(providerId))] + last;
    assert CreationSteps(creation, providerId) == Emits(creation) + tail;
    PlannedStep<Event>(Emit(StartUpload), []);
    PlannedStep(Invoke(CreateStorage(providerId)), last);
    PlannedEmits(creation);
    PlannedCallsAppend(Emits(creation), tail);
    PlannedEventsAppend(Emits(creation), tail);
  }

  lemma PlannedSend(uploading: seq<Event>, file: FileMeta, commp: string)
    ensures PlannedCalls(SendSteps(uploading, file, commp)) == [UploadBytes(file.size)]
    ensures PlannedEvents(SendSteps(uploading, file, commp)) == uploading + [Stored(commp)]
  {
    var last: seq<Step<Event>> := [Emit(Stored(commp))] + [];
    var tail := [Invoke(UploadBytes(file.size))] + last;
    assert SendSteps(uploading, file, commp) == Emits(uploading) + tail;
    PlannedStep<Event>(Emit(Stored(commp)), []);
    PlannedStep(Invoke(UploadBytes(file.size)), last);
    PlannedEmits(uploading);
    PlannedCallsAppend(Emits(uploading), tail);
    PlannedEventsAppend(Emits(uploading), tail);
  }

  /** The plan of an upload whose session checks pass. */
  lemma UploadOutline(datasets: seq<DataSet>, providerIds: map<string, int>, s: Session, file: FileMeta, withCDN: bool,
                      creation: seq<Event>, uploading: seq<Event>, commp: string)
    requires Guard(s).None?
    ensures var plan := UploadPlan(datasets, providerIds, s, file, withCDN, creation, uploading, commp);
      && PlannedCalls(plan) == UploadCalls(s.address.value, DatasetSelector.GetDataset(datasets, withCDN, providerIds), file)
      && PlannedEvents(plan) == UploadEvents(creation, uploading, commp)
  {
    var chosen := DatasetSelector.SelectDataset(datasets, withCDN);
    var providerId := ProviderOf(chosen, providerIds);
    var start := StartSteps(s.address.value, chosen, providerId);
    var create := CreationSteps(creation, providerId);
    var send := SendSteps(uploading, file, commp);
    PlannedStart(s.address.value, chosen, providerId);
    PlannedCreation(creation, providerId);
    PlannedSend(uploading, file, commp);
    PlannedLookup(chosen);
    PlannedCallsAppend(create, send);
    PlannedCallsAppend(start, create + send);
    PlannedEventsAppend(create, send);
    PlannedEventsAppend(start, create + send);
    SelectionCalls(s.address.value, chosen, providerId, DatasetSelector.GetDataset(datasets, withCDN, providerIds), file);
  }

  /** `UploadCalls` in the shape of the plan's pieces. */
  lemma SelectionCalls(address: string, chosen: Option<DataSet>, providerId: Option<int>, sel: DatasetSelector.Selection,
                       file: FileMeta)
    requires sel.queried == (if chosen.Some? then Some(chosen.value.payee) else None) && sel.providerId == providerId
    ensures UploadCalls(address, sel, file)
         == ([Connect, ListDatasets(address)] + (if chosen.Some? then [LookupProvider(chosen.value.payee)] else [])
             + [Preflight(IncludeCreationFee(providerId))])
            + ([CreateStorage(providerId)] + [UploadBytes(file.size)])
  {
  }

  /**
   * The trace of an upload. Without a signer, address, chain id or network
   * nothing is called. Otherwise the calls are connect, the dataset
   * listing, the provider lookup for the dataset `getDataset` chose, the
   * preflight check with the creation fee exactly when `getDataset` found no
   * provider id, `createStorage` for that provider id and the upload, cut
   * short right after the first call that throws. An upload that does not
   * fail made all of them and went through every step and callback in order.
   */
  lemma UploadTrace(datasets: seq<DataSet>, providerIds: map<string, int>, rejected: map<Call, string>, s: Session,
                    file: FileMeta, withCDN: bool, creation: seq<Event>, uploading: seq<Event>, commp: string)
    ensures var o := UploadRun(datasets, providerIds, rejected, s, file, withCDN, creation, uploading, commp);
      Guard(s).Some? ==> o == Outcome([], [], Some(Thrown(Guard(s).value)))
    ensures var o := UploadRun(datasets, providerIds, rejected, s, file, withCDN, creation, uploading, commp);
      Guard(s).None? ==>
        && o.calls <= UploadCalls(s.address.value, DatasetSelector.GetDataset(datasets, withCDN, providerIds), file)
        && |o.events| > 0 && o.events[0] == Begin
    ensures var o := UploadRun(datasets, providerIds, rejected, s, file, withCDN, creation, uploading, commp);
      o.failure.None? ==>
        && Guard(s).None?
        && o.calls == UploadCalls(s.address.value, DatasetSelector.GetDataset(datasets, withCDN, providerIds), file)
        && o.events == UploadEvents(creation, uploading, commp)
  {
    var plan := UploadPlan(datasets, providerIds, s, file, withCDN, creation, uploading, commp);
    ExecuteCalls(plan, rejected);
    ExecuteEvents(plan, rejected);
    UploadRunUnfolds(datasets, providerIds, rejected, s, file, withCDN, creation, uploading, commp);
    if Guard(s).None? {
      UploadOutline(datasets, providerIds, s, file, withCDN, creation, uploading, commp);
    }
  }

  /** The upload makes no payment: whatever it calls, the account stays as it was. */
  lemma UploadLeavesFunds(a: Account, datasets: seq<DataSet>, providerIds: map<string, int>, rejected: map<Call, string>,
                          s: Session, file: FileMeta, withCDN: bool, creation: seq<Event>, uploading: seq<Event>, commp: string)
    ensures var o := UploadRun(datasets, providerIds, rejected, s, file, withCDN, creation, uploading, commp);
      Settle(a, o.calls, rejected) == a
  {
    var o := UploadRun(datasets, providerIds, rejected, s, file, withCDN, creation, uploading, commp);
    UploadTrace(datasets, providerIds, rejected, s, file, withCDN, creation, uploading, commp);
    if Guard(s).None? {
      PassiveUpload(a, s.address.value, DatasetSelector.GetDataset(datasets, withCDN, providerIds), file, o.calls, rejected);
    }
  }

  lemma PassiveUpload(a: Account, address: string, sel: DatasetSelector.Selection, file: FileMeta, calls: seq<Call>,
                      rejected: map<Call, string>)
    requires calls <= UploadCalls(address, sel, file)
    ensures Settle(a, calls, rejected) == a
  {
    var all := UploadCalls(address, sel, file);
    assert forall i :: 0 <= i < |calls| ==> calls[i] == all[i];
    SettlePassive(a, calls, rejected);
  }

  /** The state after `a` then `b` is the state after `b` from the state after `a`. */
  lemma {:induction false} ReplayConcat(v: View, file: FileMeta, a: seq<Event>, b: seq<Event>)
    ensures Replay(v, file, a + b) == Replay(Replay(v, file, a), file, b)
    decreases |b|
  {
    if b == [] {
      assert a + b == a;
    } else {
      var init, last := b[..|b| - 1], b[|b| - 1];
      assert a + b == (a + init) + [last];
      assert b == init + [last];
      ReplayAppend(v, file, a + init, last);
      ReplayAppend(Replay(v, file, a), file, init, last);
      ReplayConcat(v, file, a, init);
    }
  }

  /**
   * A failed run (a session check, or an SDK call that threw) ends with
   * progress 0 and the error as the status; the upload record stays as the
   * run's steps left it, and a failed session check leaves it as it was.
   */
  lemma FailureView(datasets: seq<DataSet>, providerIds: map<string, int>, rejected: map<Call, string>, s: Session,
                    file: FileMeta, withCDN: bool, creation: seq<Event>, uploading: seq<Event>, commp: string, v: View)
    ensures var o := UploadRun(datasets, providerIds, rejected, s, file, withCDN, creation, uploading, commp);
      o.failure.Some? ==>
        Replay(v, file, Concluded(o)) == Replay(v, file, o.events).(progress := 0, status := UploadFailed(o.failure.value.message))
    ensures Guard(s).Some? ==>
      var o := UploadRun(datasets, providerIds, rejected, s, file, withCDN, creation, uploading, commp);
      Replay(v, file, Concluded(o)) == v.(progress := 0, status := UploadFailed(Guard(s).value))
  {
    var o := UploadRun(datasets, providerIds, rejected, s, file, withCDN, creation, uploading, commp);
    UploadTrace(datasets, providerIds, rejected, s, file, withCDN, creation, uploading, commp);
    if o.failure.Some? {
      FailedView(o, v, file);
    }
  }

  lemma FailedView(o: Outcome<Event>, v: View, file: FileMeta)
    requires o.failure.Some?
    ensures Replay(v, file, Concluded(o)) == Replay(v, file, o.events).(progress := 0, status := UploadFailed(o.failure.value.message))
  {
    ReplayAppend(v, file, o.events, Failed(o.failure.value.message));
  }

  /** Whether `ev` leaves the recorded transaction hash alone: everything but `onRootAdded` with a response, the start and a reset. */
  predicate KeepsRecord(ev: Event)
  {
    !ev.Begin? && !ev.Reset?
  }

  /** The hash of the last `onRootAdded` with a response among `evs`, or `h` when there is none. */
  function LastHash(h: Option<string>, evs: seq<Event>): Option<string>
    decreases |evs|
  {
    if evs == [] then h
    else
      var last := evs[|evs| - 1];
      if last.RootAdded? && last.txHash.Some? then last.txHash else LastHash(h, evs[..|evs| - 1])
  }

  /** The recorded hash is the last one reported; uploads and the final record merge over it. */
  lemma {:induction false} RecordedHash(v: View, file: FileMeta, evs: seq<Event>)
    requires forall i :: 0 <= i < |evs| ==> KeepsRecord(evs[i])
    ensures Spread(Replay(v, file, evs).info).txHash == LastHash(Spread(v.info).txHash, evs)
    decreases |evs|
  {
    if evs != [] {
      RecordedHash(v, file, evs[..|evs| - 1]);
    }
  }

  lemma {:induction false} LastHashConcat(h: Option<string>, a: seq<Event>, b: seq<Event>)
    ensures LastHash(h, a + b) == LastHash(LastHash(h, a), b)
    decreases |b|
  {
    if b == [] {
      assert a + b == a;
    } else {
      assert (a + b)[..|a + b| - 1] == a + b[..|b| - 1];
      LastHashConcat(h, a, b[..|b| - 1]);
    }
  }

  lemma {:induction false} NoHashReported(h: Option<string>, evs: seq<Event>)
    requires forall i :: 0 <= i < |evs| ==> !evs[i].RootAdded?
    ensures LastHash(h, evs) == h
    decreases |evs|
  {
    if evs != [] {
      NoHashReported(h, evs[..|evs| - 1]);
    }
  }

  /**
   * A successful upload ends at 100 with the stored status, and its record
   * holds the file's name and size, the piece commitment `upload` returned
   * and the hash of the last `onRootAdded` with a response (none if there
   * was none): the record is rebuilt from nothing at the start and each
   * later update spreads the previous one.
   */
  lemma SuccessView(datasets: seq<DataSet>, providerIds: map<string, int>, rejected: map<Call, string>, s: Session,
                    file: FileMeta, withCDN: bool, creation: seq<Event>, uploading: seq<Event>, commp: string, v: View)
    requires forall i :: 0 <= i < |creation| ==> CreationCallback(creation[i])
    requires forall i :: 0 <= i < |uploading| ==> UploadCallback(uploading[i])
    ensures var o := UploadRun(datasets, providerIds, rejected, s, file, withCDN, creation, uploading, commp);
      o.failure.None? ==>
        Replay(v, file, Concluded(o))
        == View(100, StoredOnFilecoin, Some(UploadedInfo(Some(file.name), Some(file.size), Some(commp), LastHash(None, uploading))))
  {
    var o := UploadRun(datasets, providerIds, rejected, s, file, withCDN, creation, uploading, commp);
    UploadTrace(datasets, providerIds, rejected, s, file, withCDN, creation, uploading, commp);
    if o.failure.None? {
      SucceededView(o, creation, uploading, commp, v, file);
    }
  }

  lemma SucceededView(o: Outcome<Event>, creation: seq<Event>, uploading: seq<Event>, commp: string, v: View, file: FileMeta)
    requires forall i :: 0 <= i < |creation| ==> CreationCallback(creation[i])
    requires forall i :: 0 <= i < |uploading| ==> UploadCallback(uploading[i])
    requires o.failure.None? && o.events == UploadEvents(creation, uploading, commp)
    ensures Replay(v, file, Concluded(o))
         == View(100, StoredOnFilecoin, Some(UploadedInfo(Some(file.name), Some(file.size), Some(commp), LastHash(None, uploading))))
  {
    var rest := [CheckFunds, SetUp] + creation + [StartUpload] + uploading;
    assert Concluded(o) == ([Begin] + rest) + [Stored(commp)] + [Succeeded];
    BeginsAfresh(v, file, rest);
    UploadedHash(creation, uploading, file);
    FinalRecord(v, file, [Begin] + rest, commp);
  }

  /** The final record spreads the previous one, so its hash survives; then success. */
  lemma FinalRecord(v: View, file: FileMeta, pre: seq<Event>, commp: string)
    ensures Replay(v, file, pre + [Stored(commp)] + [Succeeded])
         == View(100, StoredOnFilecoin,
                 Some(UploadedInfo(Some(file.name), Some(file.size), Some(commp), Spread(Replay(v, file, pre).info).txHash)))
  {
    var w := Replay(v, file, pre);
    var record := WithFile(w.info, file, commp);
    ReplayAppend(v, file, pre, Stored(commp));
    var stored := Apply(w, file, Stored(commp));
    assert stored == w.(progress := 95, info := Some(record));
    ReplayAppend(v, file, pre + [Stored(commp)], Succeeded);
    assert Apply(stored, file, Succeeded) == stored.(status := StoredOnFilecoin, progress := 100);
    assert record == UploadedInfo(Some(file.name), Some(file.size), Some(commp), Spread(w.info).txHash);
  }

  /** Whatever the state before, the start leaves progress 0, the first status and no record. */
  lemma BeginsAfresh(v: View, file: FileMeta, rest: seq<Event>)
    ensures Replay(v, file, [Begin] + rest) == Replay(View(0, Initializing, None), file, rest)
  {
    assert [Begin][..0] == [];
    ReplayConcat(v, file, [Begin], rest);
  }

  /** Up to the final record, the recorded hash is the last one the upload's callbacks reported. */
  lemma UploadedHash(creation: seq<Event>, uploading: seq<Event>, file: FileMeta)
    requires forall i :: 0 <= i < |creation| ==> CreationCallback(creation[i])
    requires forall i :: 0 <= i < |uploading| ==> UploadCallback(uploading[i])
    ensures var rest := [CheckFunds, SetUp] + creation + [StartUpload] + uploading;
      Spread(Replay(View(0, Initializing, None), file, rest).info).txHash == LastHash(None, uploading)
  {
    var before := [CheckFunds, SetUp] + creation + [StartUpload];
    var rest := before + uploading;
    assert forall i :: 0 <= i < |rest| ==> KeepsRecord(rest[i]) by {
      forall i | 0 <= i < |rest| ensures KeepsRecord(rest[i]) {
        if i >= |before| {
          assert rest[i] == uploading[i - |before|];
        }
      }
    }
    RecordedHash(View(0, Initializing, None), file, rest);
    NoHashReported(None, before);
    LastHashConcat(None, before, uploading);
  }

  /** The checkpoints of `evs` never go down along the sequence. */
  ghost predicate Ordered(evs: seq<Event>)
  {
    forall i, j :: 0 <= i < j < |evs| && Checkpoint(evs[i]).Some? && Checkpoint(evs[j]).Some?
      ==> Checkpoint(evs[i]).value <= Checkpoint(evs[j]).value
  }

  /** Every checkpoint of `evs` lies between `lo` and `hi`. */
  ghost predicate Within(evs: seq<Event>, lo: int, hi: int)
  {
    forall i :: 0 <= i < |evs| && Checkpoint(evs[i]).Some? ==> lo <= Checkpoint(evs[i]).value <= hi
  }

  /** The progress after a prefix is the starting one or a checkpoint of that prefix. */
  lemma {:induction false} ProgressReached(v: View, file: FileMeta, evs: seq<Event>, n: nat)
    requires n <= |evs|
    ensures var p := Replay(v, file, evs[..n]).progress;
      p == v.progress || exists k :: 0 <= k < n && Checkpoint(evs[k]) == Some(p)
    decreases n
  {
    if n > 0 {
      assert evs[..n] == evs[..n - 1] + [evs[n - 1]];
      ReplayAppend(v, file, evs[..n - 1], evs[n - 1]);
      ProgressReached(v, file, evs, n - 1);
    }
  }

  lemma ProgressStep(v: View, file: FileMeta, evs: seq<Event>, n: nat)
    requires n < |evs| && Ordered(evs) && Within(evs, v.progress, 100)
    ensures Replay(v, file, evs[..n]).progress <= Replay(v, file, evs[..n + 1]).progress
  {
    assert evs[..n + 1] == evs[..n] + [evs[n]];
    ReplayAppend(v, file, evs[..n], evs[n]);
    ProgressReached(v, file, evs, n);
  }

  /**
   * Progress never goes down while the events arrive in checkpoint order,
   * all at or above where the bar started.
   */
  lemma {:induction false} ProgressRises(v: View, file: FileMeta, evs: seq<Event>, i: nat, j: nat)
    requires i <= j <= |evs| && Ordered(evs) && Within(evs, v.progress, 100)
    ensures Replay(v, file, evs[..i]).progress <= Replay(v, file, evs[..j]).progress
    decreases j
  {
    if i < j {
      ProgressRises(v, file, evs, i, j - 1);
      ProgressStep(v, file, evs, j - 1);
    }
  }

  lemma {:induction false} OrderedConcat(a: seq<Event>, b: seq<Event>, lo: int, mid: int, hi: int)
    requires lo <= mid <= hi && Ordered(a) && Ordered(b) && Within(a, lo, mid) && Within(b, mid, hi)
    ensures Ordered(a + b) && Within(a + b, lo, hi)
  {
    var ab := a + b;
    forall i, j | 0 <= i < j < |ab| && Checkpoint(ab[i]).Some? && Checkpoint(ab[j]).Some?
      ensures Checkpoint(ab[i]).value <= Checkpoint(ab[j]).value
    {
      if j < |a| {
        assert ab[i] == a[i] && ab[j] == a[j];
      } else if i >= |a| {
        assert ab[i] == b[i - |a|] && ab[j] == b[j - |a|];
      } else {
        assert ab[i] == a[i] && ab[j] == b[j - |a|];
      }
    }
    forall i | 0 <= i < |ab| && Checkpoint(ab[i]).Some?
      ensures lo <= Checkpoint(ab[i]).value <= hi
    {
      if i < |a| {
        assert ab[i] == a[i];
      } else {
        assert ab[i] == b[i - |a|];
      }
    }
  }

  /**
   * When the SDK fires its callbacks in checkpoint order (resolved at 30, or
   * created at 35, then 45, then 50; uploaded at 80, then confirmed at 90),
   * a successful upload's progress never goes down after the start: 0, 5,
   * 25, the dataset's checkpoints, 55, the upload's, 95, 100.
   */
  lemma SuccessRises(datasets: seq<DataSet>, providerIds: map<string, int>, rejected: map<Call, string>, s: Session,
                     file: FileMeta, withCDN: bool, creation: seq<Event>, uploading: seq<Event>, commp: string, v: View,
                     i: nat, j: nat)
    requires forall k :: 0 <= k < |creation| ==> CreationCallback(creation[k])
    requires forall k :: 0 <= k < |uploading| ==> UploadCallback(uploading[k])
    requires Ordered(creation) && Ordered(uploading)
    requires var o := UploadRun(datasets, providerIds, rejected, s, file, withCDN, creation, uploading, commp);
      o.failure.None? && 1 <= i <= j <= |Concluded(o)|
    ensures var o := UploadRun(datasets, providerIds, rejected, s, file, withCDN, creation, uploading, commp);
      Replay(v, file, Concluded(o)[..i]).progress <= Replay(v, file, Concluded(o)[..j]).progress
  {
    var o := UploadRun(datasets, providerIds, rejected, s, file, withCDN, creation, uploading, commp);
    UploadTrace(datasets, providerIds, rejected, s, file, withCDN, creation, uploading, commp);
    RisesAlong(o, creation, uploading, commp, v, file, i, j);
  }

  lemma RisesAlong(o: Outcome<Event>, creation: seq<Event>, uploading: seq<Event>, commp: string, v: View, file: FileMeta,
                   i: nat, j: nat)
    requires forall k :: 0 <= k < |creation| ==> CreationCallback(creation[k])
    requires forall k :: 0 <= k < |uploading| ==> UploadCallback(uploading[k])
    requires Ordered(creation) && Ordered(uploading)
    requires o.failure.None? && o.events == UploadEvents(creation, uploading, commp)
    requires 1 <= i <= j <= |Concluded(o)|
    ensures Replay(v, file, Concluded(o)[..i]).progress <= Replay(v, file, Concluded(o)[..j]).progress
  {
    var rest := [CheckFunds, SetUp] + creation + [StartUpload] + uploading + [Stored(commp), Succeeded];
    assert Concluded(o) == [Begin] + rest;
    CheckpointOrder(creation, uploading, commp);
    RisesAfterBegin(v, file, rest, i, j);
  }

  /** After the start, progress never goes down while the checkpoints come in order. */
  lemma RisesAfterBegin(v: View, file: FileMeta, rest: seq<Event>, i: nat, j: nat)
    requires Ordered(rest) && Within(rest, 0, 100)
    requires 1 <= i <= j <= |rest| + 1
    ensures Replay(v, file, ([Begin] + rest)[..i]).progress <= Replay(v, file, ([Begin] + rest)[..j]).progress
  {
    BeginPrefix(v, file, rest, i);
    BeginPrefix(v, file, rest, j);
    ProgressRises(View(0, Initializing, None), file, rest, i - 1, j - 1);
  }

  lemma BeginPrefix(v: View, file: FileMeta, rest: seq<Event>, i: nat)
    requires 1 <= i <= |rest| + 1
    ensures Replay(v, file, ([Begin] + rest)[..i]) == Replay(View(0, Initializing, None), file, rest[..i - 1])
  {
    assert ([Begin] + rest)[..i] == [Begin] + rest[..i - 1];
    BeginsAfresh(v, file, rest[..i - 1]);
  }

  /** The fixed checkpoints 5, 25, 55, 95 and 100 frame the callbacks' own. */
  lemma CheckpointOrder(creation: seq<Event>, uploading: seq<Event>, commp: string)
    requires forall k :: 0 <= k < |creation| ==> CreationCallback(creation[k])
    requires forall k :: 0 <= k < |uploading| ==> UploadCallback(uploading[k])
    requires Ordered(creation) && Ordered(uploading)
    ensures var rest := [CheckFunds, SetUp] + creation + [StartUpload] + uploading + [Stored(commp), Succeeded];
      Ordered(rest) && Within(rest, 0, 100)
  {
    var fixed1: seq<Event> := [CheckFunds, SetUp];
    var fixed2: seq<Event> := [StartUpload];
    var fixed3: seq<Event> := [Stored(commp), Succeeded];
    assert Within(creation, 25, 55);
    assert Within(uploading, 55, 95);
    OrderedConcat(fixed1, creation, 5, 25, 55);
    OrderedConcat(fixed1 + creation, fixed2, 5, 55, 55);
    OrderedConcat(fixed1 + creation + fixed2, uploading, 5, 55, 95);
    OrderedConcat(fixed1 + creation + fixed2 + uploading, fixed3, 5, 95, 100);
  }
}
