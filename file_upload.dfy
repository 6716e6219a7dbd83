/**
 * The upload hook: check the session, reset the progress, connect, find the
 * client's dataset, run the preflight check (with the dataset creation fee
 * when no provider id was found), create the storage service, upload the
 * bytes, and move a progress bar, a status line and a record of what was
 * uploaded along the way. The SDK's callbacks arrive as events.
 */
module FileUpload {
  import opened Wrappers
  import opened Types
  import opened Gateway
  import DatasetSelector

  /** The file being uploaded: only its name and size matter to the hook. */
  datatype FileMeta = FileMeta(name: string, size: int)

  /** `UploadedInfo`: every field optional. */
  datatype UploadedInfo = UploadedInfo(fileName: Option<string>, fileSize: Option<int>, commp: Option<string>, txHash: Option<string>)

  const NO_INFO: UploadedInfo := UploadedInfo(None, None, None, None)

  /** `{...prev}`: spreading `null` gives the empty record. */
  function Spread(prev: Option<UploadedInfo>): UploadedInfo
  {
    if prev.Some? then prev.value else NO_INFO
  }

  /** `{...prev, fileName, fileSize, commp}`. */
  function WithFile(prev: Option<UploadedInfo>, file: FileMeta, commp: string): (r: UploadedInfo)
    ensures r.fileName == Some(file.name) && r.fileSize == Some(file.size) && r.commp == Some(commp)
    ensures r.txHash == Spread(prev).txHash
  {
    Spread(prev).(fileName := Some(file.name), fileSize := Some(file.size), commp := Some(commp))
  }

  /** The hook's status line, as a value. */
  datatype UploadStatus =
    | Blank
    | Initializing
    | CheckingFunds
    | SettingUp
    | DatasetResolved
    | CreatingDataset
    | DatasetConfirmed
    | DatasetReady(seconds: int)
    | ProviderChosen
    | Uploading
    | FileUploaded
    | AwaitingConfirmation(txHash: Option<string>)
    | PiecesAdded
    | StoredOnFilecoin
    | UploadFailed(message: string)

  const FALLBACK: string := "Please try again"

  /** The error line: `❌ Upload failed: ` and the message, or a fallback when the message is empty. */
  function FailureText(message: string): (t: string)
    ensures |t| > 17 && t[..17] == "❌ Upload failed: "
    ensures message != "" ==> t[17..] == message
    ensures message == "" ==> t[17..] == FALLBACK
  {
    "❌ Upload failed: " + (if message == "" then FALLBACK else message)
  }

  /** `Math.round(ms / 1000)`: the nearest whole second, halves rounded up. */
  function RoundSeconds(ms: int): (r: int)
    ensures r * 1000 - 500 <= ms < r * 1000 + 500
  {
    (ms + 500) / 1000
  }

  /** What changes the hook's state: its own steps, the SDK's callbacks, success, error and reset. */
  datatype Event =
    | Begin                                                                   // after the session checks
    | CheckFunds                                                              // before the preflight check
    | SetUp                                                                   // after the preflight check
    | Resolved                                                                // onProofSetResolved
    | CreationStarted                                                         // onProofSetCreationStarted
    | CreationProgress(transactionSuccess: bool, serverConfirmed: bool, elapsedMs: int) // onProofSetCreationProgress
    | ProviderSelected                                                        // onProviderSelected
    | StartUpload                                                             // before upload
    | UploadComplete(commp: string)                                           // onUploadComplete
    | RootAdded(txHash: Option<string>)                                       // onRootAdded; None: no response
    | RootConfirmed                                                           // onRootConfirmed
    | Stored(commp: string)                                                   // after upload returned
    | Succeeded                                                               // onSuccess
    | Failed(message: string)                                                 // onError
    | Reset                                                                   // handleReset

  /** The callbacks `createStorage` may fire. */
  predicate CreationCallback(ev: Event)
  {
    ev.Resolved? || ev.CreationStarted? || ev.CreationProgress? || ev.ProviderSelected?
  }

  /** The callbacks `upload` may fire. */
  predicate UploadCallback(ev: Event)
  {
    ev.UploadComplete? || ev.RootAdded? || ev.RootConfirmed?
  }

  /** The hook's state: `progress`, `status`, `uploadedInfo`. */
  datatype View = View(progress: int, status: UploadStatus, info: Option<UploadedInfo>)

  const INITIAL: View := View(0, Blank, None)

  /**
   * The progress an event moves the bar to, if it moves it: 5 before the
   * preflight check, 25 after it, 30 for a resolved dataset, 35, 45 and 50
   * while one is created, 55 before the upload, 80 once uploaded, 90 once the
   * pieces are confirmed, 95 after the upload returned, 100 on success, and
   * back to 0 at the start, on error and on reset.
   */
  function Checkpoint(ev: Event): Option<int>
  {
    match ev
    case Begin => Some(0)
    case CheckFunds => Some(5)
    case SetUp => Some(25)
    case Resolved => Some(30)
    case CreationStarted => Some(35)
    case CreationProgress(tx, confirmed, _) => if confirmed then Some(50) else if tx then Some(45) else None
    case ProviderSelected => None
    case StartUpload => Some(55)
    case UploadComplete(_) => Some(80)
    case RootAdded(_) => None
    case RootConfirmed => Some(90)
    case Stored(_) => Some(95)
    case Succeeded => Some(100)
    case Failed(_) => Some(0)
    case Reset => Some(0)
  }

  /** The state after `ev`, for an upload of `file`. */
  function Apply(v: View, file: FileMeta, ev: Event): (r: View)
    ensures r.progress == if Checkpoint(ev).Some? then Checkpoint(ev).value else v.progress
    ensures !ev.UploadComplete? && !ev.RootAdded? && !ev.Stored? && !ev.Begin? && !ev.Reset? ==> r.info == v.info
  {
    match ev
    case Begin => View(0, Initializing, None)
    case CheckFunds => v.(status := CheckingFunds, progress := 5)
    case SetUp => v.(status := SettingUp, progress := 25)
    case Resolved => v.(status := DatasetResolved, progress := 30)
    case CreationStarted => v.(status := CreatingDataset, progress := 35)
    case CreationProgress(tx, confirmed, ms) =>
      var w := if tx then v.(status := DatasetConfirmed, progress := 45) else v;
      if confirmed then w.(status := DatasetReady(RoundSeconds(ms)), progress := 50) else w
    case ProviderSelected => v.(status := ProviderChosen)
    case StartUpload => v.(status := Uploading, progress := 55)
    case UploadComplete(commp) => v.(status := FileUploaded, info := Some(WithFile(v.info, file, commp)), progress := 80)
    case RootAdded(hash) =>
      v.(status := AwaitingConfirmation(hash), info := if hash.Some? then Some(Spread(v.info).(txHash := hash)) else v.info)
    case RootConfirmed => v.(status := PiecesAdded, progress := 90)
    case Stored(commp) => v.(progress := 95, info := Some(WithFile(v.info, file, commp)))
    case Succeeded => v.(status := StoredOnFilecoin, progress := 100)
    case Failed(m) => v.(status := UploadFailed(m), progress := 0)
    case Reset => INITIAL
  }

  /** The state after `evs` in order. */
  function Replay(v: View, file: FileMeta, evs: seq<Event>): View
    decreases |evs|
  {
    if evs == [] then v else Apply(Replay(v, file, evs[..|evs| - 1]), file, evs[|evs| - 1])
  }

  lemma ReplayAppend(v: View, file: FileMeta, evs: seq<Event>, ev: Event)
    ensures Replay(v, file, evs + [ev]) == Apply(Replay(v, file, evs), file, ev)
  {
    assert (evs + [ev])[..|evs|] == evs;
  }

  /** The session checks, in the order the hook makes them; a chain id of 0 counts as missing. */
  function Guard(s: Session): (m: Option<string>)
    ensures m.None? <==> s.signer && Present(s.address) && s.chainId.Some? && s.chainId.value != 0 && Present(s.network)
    ensures !s.signer ==> m == Some("Signer not found")
    ensures s.signer && !Present(s.address) ==> m == Some("Address not found")
    ensures s.signer && Present(s.address) && (s.chainId.None? || s.chainId.value == 0) ==> m == Some("Chain ID not found")
    ensures s.signer && Present(s.address) && s.chainId.Some? && s.chainId.value != 0 && !Present(s.network)
            ==> m == Some("Network not found")
  {
    if !s.signer then Some("Signer not found")
    else if !Present(s.address) then Some("Address not found")
    else if s.chainId.None? || s.chainId.value == 0 then Some("Chain ID not found")
    else if !Present(s.network) then Some("Network not found")
    else None
  }

  /** The provider id `getDataset` reports for the chosen dataset: its payee's registry entry, if any. */
  function ProviderOf(chosen: Option<DataSet>, providerIds: map<string, int>): Option<int>
  {
    if chosen.Some? && chosen.value.payee in providerIds then Some(providerIds[chosen.value.payee]) else None
  }

  /** `!datasetExists` with `datasetExists = !!providerId`: a missing provider id, or id 0, means "pay the creation fee". */
  function IncludeCreationFee(providerId: Option<int>): bool
  {
    providerId.None? || providerId.value == 0
  }

  /** Session reset, connect, `getDataset`, the preflight check. */
  function StartSteps(address: string, chosen: Option<DataSet>, providerId: Option<int>): seq<Step<Event>>
  {
    [Emit(Begin), Invoke(Connect), Invoke(ListDatasets(address))] + (LookupSteps(chosen) + CheckSteps(providerId))
  }

  /** The provider lookup of `getDataset`, made only when a dataset was chosen. */
  function LookupSteps(chosen: Option<DataSet>): seq<Step<Event>>
  {
    if chosen.Some? then [Invoke(LookupProvider(chosen.value.payee))] else []
  }

  /** The preflight check between its two progress checkpoints. */
  function CheckSteps(providerId: Option<int>): seq<Step<Event>>
  {
    [Emit(CheckFunds), Invoke(Preflight(IncludeCreationFee(providerId))), Emit(SetUp)]
  }

  /** `createStorage` with the callbacks it fires. */
  function CreationSteps(creation: seq<Event>, providerId: Option<int>): seq<Step<Event>>
  {
    Emits(creation) + [Invoke(CreateStorage(providerId)), Emit(StartUpload)]
  }

  /** `upload` with the callbacks it fires, then the final record. */
  function SendSteps(uploading: seq<Event>, file: FileMeta, commp: string): seq<Step<Event>>
  {
    Emits(uploading) + [Invoke(UploadBytes(file.size)), Emit(Stored(commp))]
  }

  /** The whole upload, as planned; `creation` and `uploading` are the callbacks the SDK fires during its two calls. */
  function UploadPlan(datasets: seq<DataSet>, providerIds: map<string, int>, s: Session, file: FileMeta, withCDN: bool,
                      creation: seq<Event>, uploading: seq<Event>, commp: string): seq<Step<Event>>
  {
    match Guard(s)
    case Some(m) => [Abort(m)]
    case None =>
      var chosen := DatasetSelector.SelectDataset(datasets, withCDN);
      var providerId := ProviderOf(chosen, providerIds);
      StartSteps(s.address.value, chosen, providerId)
      + (CreationSteps(creation, providerId) + SendSteps(uploading, file, commp))
  }

  function UploadRun(datasets: seq<DataSet>, providerIds: map<string, int>, rejected: map<Call, string>, s: Session,
                     file: FileMeta, withCDN: bool, creation: seq<Event>, uploading: seq<Event>, commp: string): Outcome<Event>
  {
    Execute(UploadPlan(datasets, providerIds, s, file, withCDN, creation, uploading, commp), rejected)
  }

  /** Every event of the run: its steps, then `onSuccess` or `onError`. */
  function Concluded(o: Outcome<Event>): seq<Event>
  {
    o.events + [if o.failure.None? then Succeeded else Failed(o.failure.value.message)]
  }

  // The runs of the plan's pieces, step by step; the hook's methods are proved against these.

  function LookupRun(chosen: Option<DataSet>, next: Outcome<Event>, rejected: map<Call, string>): Outcome<Event>
  {
    if chosen.Some? then Called(LookupProvider(chosen.value.payee), next, rejected) else next
  }

  function StartRun(address: string, chosen: Option<DataSet>, providerId: Option<int>, next: Outcome<Event>,
                    rejected: map<Call, string>): Outcome<Event>
  {
    var checked := Emitted(CheckFunds, Called(Preflight(IncludeCreationFee(providerId)), Emitted(SetUp, next), rejected));
    Emitted(Begin, Called(Connect, Called(ListDatasets(address), LookupRun(chosen, checked, rejected), rejected), rejected))
  }

  function CreationRun(creation: seq<Event>, providerId: Option<int>, next: Outcome<Event>, rejected: map<Call, string>): Outcome<Event>
  {
    EmittedAll(creation, Called(CreateStorage(providerId), Emitted(StartUpload, next), rejected))
  }

  function SendRun(uploading: seq<Event>, file: FileMeta, commp: string, rejected: map<Call, string>): Outcome<Event>
  {
    EmittedAll(uploading, Called(UploadBytes(file.size), Emitted(Stored(commp), Outcome([], [], None)), rejected))
  }

  lemma ExecuteChecks(providerId: Option<int>, rest: seq<Step<Event>>, rejected: map<Call, string>)
    ensures Execute(CheckSteps(providerId) + rest, rejected)
         == Emitted(CheckFunds, Called(Preflight(IncludeCreationFee(providerId)), Emitted(SetUp, Execute(rest, rejected)), rejected))
  {
    var preflight := Preflight(IncludeCreationFee(providerId));
    assert CheckSteps(providerId) + rest == [Emit(CheckFunds)] + ([Invoke(preflight)] + ([Emit(SetUp)] + rest));
    ExecuteEmit(SetUp, rest, rejected);
    ExecuteInvoke(preflight, [Emit(SetUp)] + rest, rejected);
    ExecuteEmit(CheckFunds, [Invoke(preflight)] + ([Emit(SetUp)] + rest), rejected);
  }

  lemma ExecuteLookup(chosen: Option<DataSet>, rest: seq<Step<Event>>, rejected: map<Call, string>)
    ensures Execute(LookupSteps(chosen) + rest, rejected) == LookupRun(chosen, Execute(rest, rejected), rejected)
  {
    if chosen.Some? {
      ExecuteInvoke(LookupProvider(chosen.value.payee), rest, rejected);
    } else {
      assert LookupSteps(chosen) + rest == rest;
    }
  }

  lemma ExecuteStart(address: string, chosen: Option<DataSet>, providerId: Option<int>, rest: seq<Step<Event>>,
                     rejected: map<Call, string>)
    ensures Execute(StartSteps(address, chosen, providerId) + rest, rejected)
         == StartRun(address, chosen, providerId, Execute(rest, rejected), rejected)
  {
    var checks := CheckSteps(providerId) + rest;
    var tail := LookupSteps(chosen) + checks;
    ExecuteChecks(providerId, rest, rejected);
    ExecuteLookup(chosen, checks, rejected);
    assert StartSteps(address, chosen, providerId) + rest
        == [Emit(Begin)] + ([Invoke(Connect)] + ([Invoke(ListDatasets(address))] + tail));
    ExecuteInvoke(ListDatasets(address), tail, rejected);
    ExecuteInvoke(Connect, [Invoke(ListDatasets(address))] + tail, rejected);
    ExecuteEmit(Begin, [Invoke(Connect)] + ([Invoke(ListDatasets(address))] + tail), rejected);
  }

  lemma ExecuteCreation(creation: seq<Event>, providerId: Option<int>, rest: seq<Step<Event>>, rejected: map<Call, string>)
    ensures Execute(CreationSteps(creation, providerId) + rest, rejected)
         == CreationRun(creation, providerId, Execute(rest, rejected), rejected)
  {
    var tail := [Invoke(CreateStorage(providerId))] + ([Emit(StartUpload)] + rest);
    assert CreationSteps(creation, providerId) + rest == Emits(creation) + tail;
    ExecuteEmits(creation, tail, rejected);
    ExecuteInvoke(CreateStorage(providerId), [Emit(StartUpload)] + rest, rejected);
    ExecuteEmit(StartUpload, rest, rejected);
  }

  lemma ExecuteSend(uploading: seq<Event>, file: FileMeta, commp: string, rejected: map<Call, string>)
    ensures Execute(SendSteps(uploading, file, commp), rejected)
         == SendRun(uploading, file, commp, rejected)
  {
    var last: seq<Step<Event>> := [Emit(Stored(commp))] + [];
    var tail := [Invoke(UploadBytes(file.size))] + last;
    assert SendSteps(uploading, file, commp) == Emits(uploading) + tail;
    ExecuteEmits(uploading, tail, rejected);
    ExecuteInvoke(UploadBytes(file.size), last, rejected);
    ExecuteEmit(Stored(commp), [], rejected);
  }

  /** The upload's run, piece by piece. */
  lemma UploadRunUnfolds(datasets: seq<DataSet>, providerIds: map<string, int>, rejected: map<Call, string>, s: Session,
                         file: FileMeta, withCDN: bool, creation: seq<Event>, uploading: seq<Event>, commp: string)
    ensures var o := UploadRun(datasets, providerIds, rejected, s, file, withCDN, creation, uploading, commp);
      Guard(s).Some? ==> o == Outcome([], [], Some(Thrown(Guard(s).value)))
    ensures var o := UploadRun(datasets, providerIds, rejected, s, file, withCDN, creation, uploading, commp);
      var chosen := DatasetSelector.SelectDataset(datasets, withCDN);
      var providerId := ProviderOf(chosen, providerIds);
      Guard(s).None? ==>
        o == StartRun(s.address.value, chosen, providerId,
               CreationRun(creation, providerId, SendRun(uploading, file, commp, rejected), rejected), rejected)
  {
    if Guard(s).None? {
      var chosen := DatasetSelector.SelectDataset(datasets, withCDN);
      var providerId := ProviderOf(chosen, providerIds);
      var send := SendSteps(uploading, file, commp);
      ExecuteSend(uploading, file, commp, rejected);
      ExecuteCreation(creation, providerId, send, rejected);
      ExecuteStart(s.address.value, chosen, providerId, CreationSteps(creation, providerId) + send, rejected);
    }
  }

  /** The hook's state, and the SDK's answers to its calls. */
  class Uploader {
    var progress: int
    var status: UploadStatus
    var uploadedInfo: Option<UploadedInfo>

    function Current(): View
      reads this
    {
      View(progress, status, uploadedInfo)
    }

    constructor ()
      ensures Current() == INITIAL
    {
      progress, status, uploadedInfo := 0, Blank, None;
    }

    /** After the session checks: progress 0, no upload record, the first status line. */
    method Begin()
      modifies this
      ensures progress == 0 && uploadedInfo.None? && status == Initializing
    {
      progress, uploadedInfo, status := 0, None, Initializing;
    }

    method CheckFunds()
      modifies this
      ensures progress == 5 && status == CheckingFunds && uploadedInfo == old(uploadedInfo)
    {
      status, progress := CheckingFunds, 5;
    }

    method SetUp()
      modifies this
      ensures progress == 25 && status == SettingUp && uploadedInfo == old(uploadedInfo)
    {
      status, progress := SettingUp, 25;
    }

    method OnProofSetResolved()
      modifies this
      ensures progress == 30 && status == DatasetResolved && uploadedInfo == old(uploadedInfo)
    {
      status, progress := DatasetResolved, 30;
    }

    method OnProofSetCreationStarted()
      modifies this
      ensures progress == 35 && status == CreatingDataset && uploadedInfo == old(uploadedInfo)
    {
      status, progress := CreatingDataset, 35;
    }

    /** A confirmed transaction moves to 45, a server-confirmed dataset to 50; the second wins when both hold. */
    method OnProofSetCreationProgress(transactionSuccess: bool, serverConfirmed: bool, elapsedMs: int)
      modifies this
      ensures serverConfirmed ==> progress == 50 && status == DatasetReady(RoundSeconds(elapsedMs))
      ensures !serverConfirmed && transactionSuccess ==> progress == 45 && status == DatasetConfirmed
      ensures !serverConfirmed && !transactionSuccess ==> progress == old(progress) && status == old(status)
      ensures uploadedInfo == old(uploadedInfo)
    {
      if transactionSuccess {
        status, progress := DatasetConfirmed, 45;
      }
      if serverConfirmed {
        status, progress := DatasetReady(RoundSeconds(elapsedMs)), 50;
      }
    }

    method OnProviderSelected()
      modifies this
      ensures status == ProviderChosen && progress == old(progress) && uploadedInfo == old(uploadedInfo)
    {
      status := ProviderChosen;
    }

    method StartUpload()
      modifies this
      ensures progress == 55 && status == Uploading && uploadedInfo == old(uploadedInfo)
    {
      status, progress := Uploading, 55;
    }

    /** Records the file's name and size and the piece commitment over whatever was recorded before. */
    method OnUploadComplete(file: FileMeta, commp: string)
      modifies this
      ensures progress == 80 && status == FileUploaded
      ensures uploadedInfo == Some(WithFile(old(uploadedInfo), file, commp))
    {
      status := FileUploaded;
      uploadedInfo := Some(WithFile(uploadedInfo, file, commp));
      progress := 80;
    }

    /** Records the transaction hash only when there is a response; the progress stays. */
    method OnRootAdded(txHash: Option<string>)
      modifies this
      ensures status == AwaitingConfirmation(txHash) && progress == old(progress)
      ensures txHash.Some? ==> uploadedInfo == Some(Spread(old(uploadedInfo)).(txHash := txHash))
      ensures txHash.None? ==> uploadedInfo == old(uploadedInfo)
    {
      status := AwaitingConfirmation(txHash);
      if txHash.Some? {
        uploadedInfo := Some(Spread(uploadedInfo).(txHash := txHash));
      }
    }

    method OnRootConfirmed()
      modifies this
      ensures progress == 90 && status == PiecesAdded && uploadedInfo == old(uploadedInfo)
    {
      status, progress := PiecesAdded, 90;
    }

    /** After `upload` returned: 95, and the record completed over what was there (a hash recorded earlier stays). */
    method Stored(file: FileMeta, commp: string)
      modifies this
      ensures progress == 95 && status == old(status)
      ensures uploadedInfo == Some(WithFile(old(uploadedInfo), file, commp))
    {
      progress := 95;
      uploadedInfo := Some(WithFile(uploadedInfo, file, commp));
    }

    method OnSuccess()
      modifies this
      ensures progress == 100 && status == StoredOnFilecoin && uploadedInfo == old(uploadedInfo)
    {
      status, progress := StoredOnFilecoin, 100;
    }

    /** The error line and progress 0; the upload record is left as it was. */
    method OnError(message: string)
      modifies this
      ensures progress == 0 && status == UploadFailed(message) && uploadedInfo == old(uploadedInfo)
    {
      status, progress := UploadFailed(message), 0;
    }

    method HandleReset()
      modifies this
      ensures Current() == INITIAL
    {
      progress, uploadedInfo, status := 0, None, Blank;
    }

    /** Handle one event. */
    method Handle(file: FileMeta, ev: Event)
      modifies this
      ensures Current() == Apply(old(Current()), file, ev)
    {
      match ev
      case Begin => Begin();
      case CheckFunds => CheckFunds();
      case SetUp => SetUp();
      case Resolved => OnProofSetResolved();
      case CreationStarted => OnProofSetCreationStarted();
      case CreationProgress(tx, confirmed, ms) => OnProofSetCreationProgress(tx, confirmed, ms);
      case ProviderSelected => OnProviderSelected();
      case StartUpload => StartUpload();
      case UploadComplete(commp) => OnUploadComplete(file, commp);
      case RootAdded(hash) => OnRootAdded(hash);
      case RootConfirmed => OnRootConfirmed();
      case Stored(commp) => Stored(file, commp);
      case Succeeded => OnSuccess();
      case Failed(m) => OnError(m);
      case Reset => HandleReset();
    }

    /** Handle `ev` after `events` were handled since the state was `v0`. */
    method Show(file: FileMeta, ev: Event, ghost v0: View, ghost events: seq<Event>)
      requires Current() == Replay(v0, file, events)
      modifies this
      ensures Current() == Replay(v0, file, events + [ev])
    {
      Handle(file, ev);
      ReplayAppend(v0, file, events, ev);
    }

    /** The hook has handled `events` (since `v0`) and made `calls` (after `t0`). */
    ghost predicate Tracking(gw: Ledger, t0: seq<Call>, v0: View, file: FileMeta, events: seq<Event>, calls: seq<Call>)
      reads this, gw
    {
      gw.trace == t0 + calls && gw.Valid() && Current() == Replay(v0, file, events)
    }

    /** The run `o` is over: its calls are made, and its events and its success or error are handled. */
    ghost predicate Settled(gw: Ledger, t0: seq<Call>, v0: View, file: FileMeta, o: Outcome<Event>)
      reads this, gw
    {
      gw.trace == t0 + o.calls && gw.Valid() && Current() == Replay(v0, file, Concluded(o))
    }

    /**
     * `uploadFileMutation.mutate(file)` against `gw`: the session checks,
     * then the upload; `creation` and `uploading` are the callbacks the SDK
     * fires during `createStorage` and `upload`, `commp` what `upload` returns.
     */
    method Upload(gw: Ledger, s: Session, file: FileMeta, withCDN: bool, creation: seq<Event>, uploading: seq<Event>,
                  commp: string)
      requires gw.Valid()
      modifies this, gw
      ensures gw.Valid()
      ensures var o := UploadRun(gw.datasets, gw.providerIds, gw.rejected, s, file, withCDN, creation, uploading, commp);
        && gw.trace == old(gw.trace) + o.calls
        && gw.account == Settle(old(gw.account), o.calls, gw.rejected)
        && Current() == Replay(old(Current()), file, Concluded(o))
    {
      ghost var t0, v0 := gw.trace, Current();
      ghost var target := UploadRun(gw.datasets, gw.providerIds, gw.rejected, s, file, withCDN, creation, uploading, commp);
      UploadRunUnfolds(gw.datasets, gw.providerIds, gw.rejected, s, file, withCDN, creation, uploading, commp);
      Attempt(gw, s, file, withCDN, creation, uploading, commp, target, t0, v0);
      SettleConcat(gw.opening, t0, target.calls, gw.rejected);
    }

    /** The upload itself; `Upload` adds what it means for the account. */
    method Attempt(gw: Ledger, s: Session, file: FileMeta, withCDN: bool, creation: seq<Event>, uploading: seq<Event>,
                   commp: string, ghost target: Outcome<Event>, ghost t0: seq<Call>, ghost v0: View)
      requires Guard(s).Some? ==> target == Outcome([], [], Some(Thrown(Guard(s).value)))
      requires Guard(s).None? ==>
        var chosen := DatasetSelector.SelectDataset(gw.datasets, withCDN);
        var providerId := ProviderOf(chosen, gw.providerIds);
        target == StartRun(s.address.value, chosen, providerId,
                    CreationRun(creation, providerId, SendRun(uploading, file, commp, gw.rejected), gw.rejected), gw.rejected)
      requires gw.Valid() && gw.trace == t0 && Current() == v0
      modifies this, gw
      ensures Settled(gw, t0, v0, file, target)
    {
      var guard := Guard(s);
      if guard.Some? {
        Show(file, Failed(guard.value), v0, []);
        assert gw.trace == t0 + [];
        assert Concluded(target) == [] + [Failed(guard.value)];
      } else {
        ghost var chosen := DatasetSelector.SelectDataset(gw.datasets, withCDN);
        ghost var send := SendRun(uploading, file, commp, gw.rejected);
        ghost var next := CreationRun(creation, ProviderOf(chosen, gw.providerIds), send, gw.rejected);
        assert Pending(target, [], [], StartRun(s.address.value, chosen, ProviderOf(chosen, gw.providerIds), next, gw.rejected));
        assert Tracking(gw, t0, v0, file, [], []);
        var ok, providerId, events, calls := Start(gw, s.address.value, withCDN, file, chosen, target, t0, v0, next);
        if !ok { return; }
        events, calls, ok := Create(gw, file, creation, providerId, target, t0, v0, events, calls, send);
        if !ok { return; }
        Send(gw, file, uploading, commp, target, t0, v0, events, calls);
      }
    }

    /**
     * Reset the state, connect, `getDataset` (list the client's datasets,
     * pick one, look up its payee's provider id), then the preflight check,
     * with the creation fee when no provider id was found.
     */
    method Start(gw: Ledger, address: string, withCDN: bool, file: FileMeta, ghost chosen: Option<DataSet>,
                 ghost target: Outcome<Event>, ghost t0: seq<Call>, ghost v0: View, ghost next: Outcome<Event>)
      returns (ok: bool, providerId: Option<int>, ghost events: seq<Event>, ghost calls: seq<Call>)
      requires chosen == DatasetSelector.SelectDataset(gw.datasets, withCDN)
      requires Pending(target, [], [], StartRun(address, chosen, ProviderOf(chosen, gw.providerIds), next, gw.rejected))
      requires Tracking(gw, t0, v0, file, [], [])
      modifies this, gw
      ensures ok ==> && providerId == ProviderOf(chosen, gw.providerIds)
                     && Pending(target, events, calls, next)
                     && Tracking(gw, t0, v0, file, events, calls)
      ensures !ok ==> Settled(gw, t0, v0, file, target)
    {
      ghost var pid := ProviderOf(chosen, gw.providerIds);
      ghost var checked := Emitted(Event.CheckFunds, Called(Preflight(IncludeCreationFee(pid)), Emitted(Event.SetUp, next), gw.rejected));
      providerId := None;
      ok, events, calls := Open(gw, address, file, target, t0, v0, LookupRun(chosen, checked, gw.rejected));
      if !ok { return; }
      var found := DatasetSelector.SelectDataset(gw.datasets, withCDN);
      providerId, calls := Resolve(gw, file, found, target, t0, v0, events, calls, checked);
      ok, events, calls := Check(gw, file, providerId, target, t0, v0, events, calls, next);
    }

    /** Reset the state, connect, list the client's datasets. */
    method Open(gw: Ledger, address: string, file: FileMeta, ghost target: Outcome<Event>, ghost t0: seq<Call>,
                ghost v0: View, ghost next: Outcome<Event>)
      returns (ok: bool, ghost events: seq<Event>, ghost calls: seq<Call>)
      requires Pending(target, [], [], Emitted(Event.Begin, Called(Connect, Called(ListDatasets(address), next, gw.rejected), gw.rejected)))
      requires Tracking(gw, t0, v0, file, [], [])
      modifies this, gw
      ensures ok ==> Pending(target, events, calls, next) && Tracking(gw, t0, v0, file, events, calls)
      ensures !ok ==> Settled(gw, t0, v0, file, target)
    {
      Show(file, Event.Begin, v0, []);
      AdvanceEmit(target, [], [], Event.Begin, Called(Connect, Called(ListDatasets(address), next, gw.rejected), gw.rejected));
      events, calls := [] + [Event.Begin], [];
      ok := Request(gw, Connect, target, t0, v0, file, events, calls, Called(ListDatasets(address), next, gw.rejected));
      if !ok { return; }
      calls := calls + [Connect];
      ok := Request(gw, ListDatasets(address), target, t0, v0, file, events, calls, next);
      if !ok { return; }
      calls := calls + [ListDatasets(address)];
    }

    /** Look up the chosen dataset's payee's provider id; a failed lookup leaves the id undefined. */
    method Resolve(gw: Ledger, file: FileMeta, chosen: Option<DataSet>, ghost target: Outcome<Event>,
                   ghost t0: seq<Call>, ghost v0: View, ghost events: seq<Event>, ghost calls: seq<Call>,
                   ghost next: Outcome<Event>)
      returns (providerId: Option<int>, ghost calls': seq<Call>)
      requires Pending(target, events, calls, LookupRun(chosen, next, gw.rejected))
      requires Tracking(gw, t0, v0, file, events, calls)
      modifies gw
      ensures providerId == ProviderOf(chosen, gw.providerIds)
      ensures Pending(target, events, calls', next) && Tracking(gw, t0, v0, file, events, calls')
    {
      providerId, calls' := None, calls;
      if chosen.Some? {
        var payee := chosen.value.payee;
        AdvanceCall(target, events, calls, LookupProvider(payee), next, gw.rejected);
        providerId := gw.LookupProvider(payee);
        calls' := calls + [LookupProvider(payee)];
      }
    }

    /** The preflight check between its two checkpoints; the creation fee is included when there is no provider id. */
    method Check(gw: Ledger, file: FileMeta, providerId: Option<int>, ghost target: Outcome<Event>, ghost t0: seq<Call>,
                 ghost v0: View, ghost events: seq<Event>, ghost calls: seq<Call>, ghost next: Outcome<Event>)
      returns (ok: bool, ghost events': seq<Event>, ghost calls': seq<Call>)
      requires Pending(target, events, calls,
                 Emitted(Event.CheckFunds, Called(Preflight(IncludeCreationFee(providerId)), Emitted(Event.SetUp, next), gw.rejected)))
      requires Tracking(gw, t0, v0, file, events, calls)
      modifies this, gw
      ensures ok ==> Pending(target, events', calls', next) && Tracking(gw, t0, v0, file, events', calls')
      ensures !ok ==> Settled(gw, t0, v0, file, target)
    {
      var preflight := Preflight(IncludeCreationFee(providerId));
      Show(file, Event.CheckFunds, v0, events);
      AdvanceEmit(target, events, calls, Event.CheckFunds, Called(preflight, Emitted(Event.SetUp, next), gw.rejected));
      events', calls' := events + [Event.CheckFunds], calls;
      ok := Request(gw, preflight, target, t0, v0, file, events', calls', Emitted(Event.SetUp, next));
      if !ok { return; }
      calls' := calls' + [preflight];
      Show(file, Event.SetUp, v0, events');
      AdvanceEmit(target, events', calls', Event.SetUp, next);
      events' := events' + [Event.SetUp];
    }

    /** `createStorage` for `providerId`, handling the callbacks it fires; then the upload's first checkpoint. */
    method Create(gw: Ledger, file: FileMeta, creation: seq<Event>, providerId: Option<int>, ghost target: Outcome<Event>,
                  ghost t0: seq<Call>, ghost v0: View, ghost events: seq<Event>, ghost calls: seq<Call>,
                  ghost next: Outcome<Event>)
      returns (ghost events': seq<Event>, ghost calls': seq<Call>, ok: bool)
      requires Pending(target, events, calls, CreationRun(creation, providerId, next, gw.rejected))
      requires Tracking(gw, t0, v0, file, events, calls)
      modifies this, gw
      ensures ok ==> Pending(target, events', calls', next) && Tracking(gw, t0, v0, file, events', calls')
      ensures !ok ==> Settled(gw, t0, v0, file, target)
    {
      ghost var created := Called(CreateStorage(providerId), Emitted(Event.StartUpload, next), gw.rejected);
      events', calls' := Callbacks(gw, file, creation, target, t0, v0, events, calls, created);
      ok := Request(gw, CreateStorage(providerId), target, t0, v0, file, events', calls', Emitted(Event.StartUpload, next));
      if !ok { return; }
      calls' := calls' + [CreateStorage(providerId)];
      Show(file, Event.StartUpload, v0, events');
      AdvanceEmit(target, events', calls', Event.StartUpload, next);
      events' := events' + [Event.StartUpload];
    }

    /** `upload` of the file's bytes, handling the callbacks it fires; then the record is completed and the run succeeds. */
    method Send(gw: Ledger, file: FileMeta, uploading: seq<Event>, commp: string, ghost target: Outcome<Event>,
                ghost t0: seq<Call>, ghost v0: View, ghost events: seq<Event>, ghost calls: seq<Call>)
      requires Pending(target, events, calls, SendRun(uploading, file, commp, gw.rejected))
      requires Tracking(gw, t0, v0, file, events, calls)
      modifies this, gw
      ensures Settled(gw, t0, v0, file, target)
    {
      ghost var done := Outcome([], [], None);
      ghost var sent := Called(UploadBytes(file.size), Emitted(Event.Stored(commp), done), gw.rejected);
      var events', calls' := Callbacks(gw, file, uploading, target, t0, v0, events, calls, sent);
      var ok := Request(gw, UploadBytes(file.size), target, t0, v0, file, events', calls', Emitted(Event.Stored(commp), done));
      if !ok { return; }
      calls' := calls' + [UploadBytes(file.size)];
      Show(file, Event.Stored(commp), v0, events');
      AdvanceEmit(target, events', calls', Event.Stored(commp), done);
      events' := events' + [Event.Stored(commp)];
      Finish(target, events', calls', None);
      Show(file, Succeeded, v0, events');
    }

    /** Handle the callbacks `evs` the SDK fires, in order. */
    method Callbacks(gw: Ledger, file: FileMeta, evs: seq<Event>, ghost target: Outcome<Event>, ghost t0: seq<Call>,
                     ghost v0: View, ghost events: seq<Event>, ghost calls: seq<Call>, ghost next: Outcome<Event>)
      returns (ghost events': seq<Event>, ghost calls': seq<Call>)
      requires Pending(target, events, calls, EmittedAll(evs, next))
      requires Tracking(gw, t0, v0, file, events, calls)
      modifies this
      ensures events' == events + evs && calls' == calls
      ensures Pending(target, events', calls', next) && Tracking(gw, t0, v0, file, events', calls')
    {
      var i := 0;
      assert events + evs[..0] == events && evs[0..] == evs;
      while i < |evs|
        invariant 0 <= i <= |evs|
        invariant Pending(target, events + evs[..i], calls, EmittedAll(evs[i..], next))
        invariant Tracking(gw, t0, v0, file, events + evs[..i], calls)
      {
        Show(file, evs[i], v0, events + evs[..i]);
        AdvanceEmits(target, events, calls, evs, i, next);
        assert events + evs[..i] + [evs[i]] == events + evs[..i + 1];
        i := i + 1;
      }
      assert evs[..i] == evs && evs[i..] == [];
      events', calls' := events + evs, calls;
      assert EmittedAll(evs[i..], next) == next;
    }

    /** One SDK call; when it throws, handle the error and settle the run. */
    method Request(gw: Ledger, c: Call, ghost target: Outcome<Event>, ghost t0: seq<Call>, ghost v0: View, file: FileMeta,
                   ghost events: seq<Event>, ghost calls: seq<Call>, ghost next: Outcome<Event>)
      returns (ok: bool)
      requires !c.LookupProvider?
      requires Pending(target, events, calls, Called(c, next, gw.rejected))
      requires Tracking(gw, t0, v0, file, events, calls)
      modifies this, gw
      ensures ok ==> && Pending(target, events, calls + [c], next)
                     && Tracking(gw, t0, v0, file, events, calls + [c])
                     && gw.account == Effect(old(gw.account), c)
      ensures !ok ==> Settled(gw, t0, v0, file, target)
    {
      AdvanceCall(target, events, calls, c, next, gw.rejected);
      ok := gw.Submit(c);
      if !ok {
        Show(file, Failed(gw.rejected[c]), v0, events);
      }
    }
  }
}
