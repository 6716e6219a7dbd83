# Warm-storage client: a Dafny model

This project models the core of warmweb, a web client that stores files on Filecoin warm storage through the Synapse SDK. It covers:

- **Storage metrics** (`storage_metrics.dfy`, `js_number.dfy`). From a balance record, derive:
  - the daily lockup;
  - the lockup left;
  - the days it lasts at the requested rate and at the current rate;
  - the rate, lockup and overall sufficiency flags.

  JavaScript's `Number` division is modelled with its infinities and NaN.
- **Dataset choice** (`dataset_selector.dfy`). `getDataset` keeps the CDN partition the configuration asks for. It takes the first dataset with the most roots and looks up its payee's provider id. A failed lookup is swallowed.
- **Payment** (`payment.dfy`, `payment_properties.dfy`). `usePayment` runs the session checks, then `getDataset` and the creation fee. Then come the balance check, `approve(MAX_UINT256)` when the allowance is below half of it, a deposit of a positive amount, and `approveService`. A status line is shown at each step.
- **Upload** (`file_upload.dfy`, `upload_properties.dfy`). `useFileUpload` has a progress bar, a status line and an upload record. They are updated by the hook's own steps, by the SDK's `createStorage` and `upload` callbacks, and by success, error and reset.
- **Dataset listing** (`datasets.dfy`). `useDatasets` covers:
  - `fetchDatasetDetails` (URL normalisation, status handling);
  - the owner-to-URL map and the provider search;
  - the per-dataset lookup;
  - the final join.
- **Side pieces.**
  - The record types and `defaultBalances` (`types.dfy`).
  - The accordion's toggle (`accordion.dfy`).
  - The chain-id to network mapping (`network.dfy`).
  - The sign-up form's email gate (`cta.dfy`).

The SDK and the chain are one gateway (`gateway.dfy`, class `Ledger`):

- **State.** An account, the client's datasets, the provider registry, the calls that throw (`rejected`), and the trace of calls made.
- **Specifications.** Each asynchronous hook is an imperative method. It is proved against a pure plan: a sequence of events (status updates) and calls. `Execute` turns the plan into an outcome: the events shown, the calls made, and the failure that ended it, if any.
- **What is proved.** The properties of each hook are proved about that outcome. Each method's `ensures` ties the new trace, account and displayed state to it.

`fetch` in `useDatasets` is a function parameter from URL to reply.

## Model

| member | source | states |
|---|---|---|
| JsNumber.Divide | utils/calculateStorageMetrics.ts:49-50 | `Number(a) / Number(b)`: the exact quotient for a non-zero divisor; +Infinity, -Infinity or NaN for a zero divisor by the sign of the dividend |
| JsNumber.QuotientAtLeast | utils/calculateStorageMetrics.ts:49-70 | for a positive divisor, `a / b >= m` holds exactly when `a >= m * b` |
| StorageMetrics.CalculateStorageMetrics | utils/calculateStorageMetrics.ts:36-96 | `rateNeeded` is the SDK's per-epoch cost; for a non-zero rate the days left are the remainder over a daily lockup of 2880 × rate, and at rate 0 they are +Infinity, NaN or -Infinity by the remainder's sign; rate sufficiency is `allowance >= rateNeeded` (inclusive); `isSufficient` is the conjunction; with a positive rate, lockup suffices iff remaining >= threshold × 2880 × rate; with rate 0, iff remaining > 0; the current-rate days are guarded (quotient, +Infinity or 0); the other fields are copied from the balance and the helpers |
| StorageMetrics.OverdrawnLockup | utils/calculateStorageMetrics.ts:45-72 | the remaining lockup is not clamped: with more locked than allowed the days are negative (or -Infinity at rate 0) and lockup never suffices |
| StorageMetrics.NothingLockedAtZeroRate | utils/calculateStorageMetrics.ts:49-72 | rate 0 and nothing remaining gives NaN days, so lockup and the verdict are insufficient |
| StorageMetrics.PositiveRemainderAtZeroRate | utils/calculateStorageMetrics.ts:49-70 | rate 0 and a positive remainder gives +Infinity days and sufficient lockup |
| StorageMetrics.DaysSpendRemainder | utils/calculateStorageMetrics.ts:40-50 | at a non-zero rate the days left, times the daily lockup of 2880 epochs at that rate, give back exactly the remaining lockup |
| StorageMetrics.CurrentRateIsDiagnostic | utils/calculateStorageMetrics.ts:52-72 | the rate in use changes none of the flags nor the days at the requested rate |
| Types.DefaultBalances | types.ts:68-86 | every amount, formatted amount, day count and GB figure is 0, every flag false, and `isSufficient` agrees with the conjunction of the other two |
| DatasetSelector.Filter | utils/getDataset.ts:21-22 | the filtered list holds exactly the datasets with the requested CDN flag |
| DatasetSelector.ReduceMax | utils/getDataset.ts:29-31 | the reduce returns the seed or an element, no smaller than the seed, strictly larger whenever it is not the seed, and no smaller than any element |
| DatasetSelector.ReduceMaxKeepsFirst | utils/getDataset.ts:29-31 | of equal maxima the reduce keeps the first met |
| DatasetSelector.FilterAppend | utils/getDataset.ts:21-22 | filtering distributes over concatenation (order is kept) |
| DatasetSelector.FilterUpTo | utils/getDataset.ts:21-25 | a kept element's position in the filtered list is preceded only by kept elements that came before it |
| DatasetSelector.SelectDataset | utils/getDataset.ts:21-31 | none iff the partition is empty; otherwise a dataset of the partition with the most roots, and the first such in input order |
| DatasetSelector.GetDataset | utils/getDataset.ts:21-40 | the dataset is the selection; the lookup is asked for exactly when a dataset was chosen, for its payee; the provider id is present iff the registry knows the payee, and is its entry |
| DatasetSelector.TieGoesToFirst | utils/getDataset.ts:29-31 | of two datasets with equal root counts the first is chosen |
| DatasetSelector.OtherPartitionIgnored | utils/getDataset.ts:21-25 | adding a dataset of the other CDN partition, before or after, never changes the choice |
| Gateway.Ledger.Submit | hooks/usePayment.ts:54-90 | an SDK call is appended to the trace and either throws (account unchanged) or takes its effect on the account |
| Gateway.Ledger.LookupProvider | utils/getDataset.ts:29-39 | the provider lookup is traced, changes no funds, and yields the registry entry or nothing when the lookup throws |
| Gateway.ExecuteCalls | hooks/usePayment.ts:26-94 | the calls made are a prefix of the planned calls, and all of them when nothing fails |
| Gateway.ExecuteEvents | hooks/usePayment.ts:26-94 | a run that does not fail shows every planned event |
| Gateway.ExecuteStops | hooks/usePayment.ts:26-94 | an awaited call that throws ends the run: it is the last call made, carries its own message, and no earlier call threw |
| Gateway.ExecuteAppend | hooks/useFileUpload.ts:33-153 | running two plans in sequence concatenates their events and calls when the first does not fail |
| Gateway.ExecuteAppendFailed | hooks/useFileUpload.ts:33-153 | a failure in the first plan means the second never runs |
| Gateway.SettleConcat | hooks/usePayment.ts:54-90 | the account after two call sequences is the second settled on the first |
| Gateway.SettlePassive | hooks/useFileUpload.ts:48-113 | calls that move no funds leave the account as it was |
| Payment.Guard | hooks/usePayment.ts:35-37 | the checks run in the order signer, network, address, each with its own message; none fails iff all are present |
| Payment.ErrorText | hooks/usePayment.ts:99-103 | the error line is `❌ ` and the message, or the fallback text when the message is empty |
| Payment.PaymentHook.Pay | hooks/usePayment.ts:26-104 | the hook makes the planned calls (and no others) on the ledger, the account settles exactly those, and the status lines are those of the run, ending with its outcome |
| Payment.PaymentHook.Prepare | hooks/usePayment.ts:40-59 | the preparing line, connect, the dataset listing, the provider lookup for a chosen dataset, then the allowance and balance reads; a throwing call settles the run |
| Payment.PaymentHook.Fund | hooks/usePayment.ts:61-93 | a short balance fails with the insufficient-balance message before any transaction; otherwise approve, deposit and approveService in that order, then success |
| PaymentProperties.PlannedFunding | hooks/usePayment.ts:61-90 | the funding plan calls nothing on a short balance and otherwise exactly the transactions, with their progress lines |
| PaymentProperties.PlanOutline | hooks/usePayment.ts:40-90 | the plan's calls are the setup reads then, if the balance covers the amount, the transactions; its lines are the preparing line and their progress |
| PaymentProperties.RunTrace | hooks/usePayment.ts:35-93 | no call without a signer, network or address; otherwise the calls are a prefix of the planned ones; a successful run made all and showed every line ending in success; a rejected call is the last call made |
| PaymentProperties.FundingFailures | hooks/usePayment.ts:61-90 | the funding part fails by itself only on a short balance |
| PaymentProperties.SetupPasses | hooks/usePayment.ts:41-59 | the setup either fails on a throwing call or hands over to what follows, making exactly its reads |
| PaymentProperties.OwnFailures | hooks/usePayment.ts:35-63 | the hook throws by itself only for a failed session check or a short balance, and with a short balance it stops before any transaction |
| PaymentProperties.PlannedTransfers | hooks/usePayment.ts:65-80 | an approval is planned only for MAX_UINT256 when the allowance is below half of it; a deposit only of the positive amount |
| PaymentProperties.ApproveOnlyWhenLow | hooks/usePayment.ts:65-74 | the only approval is for MAX_UINT256, made only when the allowance is below MAX_UINT256/2, and in a successful payment exactly then |
| PaymentProperties.DepositExactAmount | hooks/usePayment.ts:48-80 | a deposit is of exactly deposit plus creation fee (zero fee when a dataset exists), covered by the balance, and made in a successful payment exactly when that amount is positive |
| PaymentProperties.ServiceApprovedLast | hooks/usePayment.ts:82-90 | a successful payment ends with approveService for the requested rate and the requested lockup plus the fee |
| PaymentProperties.SettleTransactions | hooks/usePayment.ts:65-90 | the transactions raise a low allowance to MAX_UINT256, move a positive amount from wallet to deposit, and set the service's rate and lockup |
| PaymentProperties.SettlePayment | hooks/usePayment.ts:41-90 | the setup reads move no funds, so the whole payment settles as its transactions |
| PaymentProperties.PaidAccount | hooks/usePayment.ts:50-90 | after a successful payment the allowance is at least MAX_UINT256/2, a positive amount moved from wallet to deposit (wallet plus deposit unchanged), and the service is approved for the rate and lockup plus fee |
| PaymentProperties.FailureShown | hooks/usePayment.ts:99-103 | a failed payment's last line is its error line, starting with the cross mark and carrying the message |
| FileUpload.WithFile | hooks/useFileUpload.ts:147-152 | the record gets the file's name and size and the commitment, and keeps the previous hash |
| FileUpload.FailureText | hooks/useFileUpload.ts:159-163 | the error line is `❌ Upload failed: ` and the message, or `Please try again` when it is empty |
| FileUpload.RoundSeconds | hooks/useFileUpload.ts:97-99 | `Math.round(ms / 1000)` is the whole number of seconds within half a second of `ms` |
| FileUpload.Apply | hooks/useFileUpload.ts:38-170 | an event moves the progress to its checkpoint or leaves it; only the start, the upload callbacks, the final record and reset touch the upload record |
| FileUpload.ReplayAppend | hooks/useFileUpload.ts:38-170 | the state after one more event is that event applied to the state before |
| FileUpload.Guard | hooks/useFileUpload.ts:34-37 | the checks run in the order signer, address, chain id (0 is missing), network, each with its message |
| FileUpload.Uploader.Begin | hooks/useFileUpload.ts:38-40 | progress 0, no record, the initialising line |
| FileUpload.Uploader.CheckFunds | hooks/useFileUpload.ts:62-63 | progress 5 and the balance-check line |
| FileUpload.Uploader.SetUp | hooks/useFileUpload.ts:72-73 | progress 25 and the set-up line |
| FileUpload.Uploader.OnProofSetResolved | hooks/useFileUpload.ts:79-83 | progress 30 and the resolved line |
| FileUpload.Uploader.OnProofSetCreationStarted | hooks/useFileUpload.ts:84-89 | progress 35 and the creating line |
| FileUpload.Uploader.OnProofSetCreationProgress | hooks/useFileUpload.ts:90-102 | a server confirmation gives 50 and the ready line with the rounded seconds; else a confirmed transaction gives 45; else nothing changes |
| FileUpload.Uploader.OnProviderSelected | hooks/useFileUpload.ts:103-106 | only the status line changes |
| FileUpload.Uploader.StartUpload | hooks/useFileUpload.ts:110-111 | progress 55 and the uploading line |
| FileUpload.Uploader.OnUploadComplete | hooks/useFileUpload.ts:114-125 | progress 80, and the record spreads the previous one with the file's name, size and commitment |
| FileUpload.Uploader.OnRootAdded | hooks/useFileUpload.ts:126-139 | the waiting line with the hash; the hash is recorded only when there is a response; progress stays |
| FileUpload.Uploader.OnRootConfirmed | hooks/useFileUpload.ts:140-143 | progress 90 and the pieces-added line |
| FileUpload.Uploader.Stored | hooks/useFileUpload.ts:146-152 | progress 95, the record completed over the previous one, the status line left as it was |
| FileUpload.Uploader.OnSuccess | hooks/useFileUpload.ts:154-158 | progress 100 and the stored line |
| FileUpload.Uploader.OnError | hooks/useFileUpload.ts:159-163 | progress 0 and the error line; the record stays |
| FileUpload.Uploader.HandleReset | hooks/useFileUpload.ts:166-170 | progress 0, no record, empty status |
| FileUpload.Uploader.Handle | hooks/useFileUpload.ts:38-170 | the state after an event is `Apply` of it |
| FileUpload.Uploader.Upload | hooks/useFileUpload.ts:33-163 | the hook makes exactly the run's calls on the ledger, the account settles them, and the displayed state is the replay of the run's events and its success or error |
| FileUpload.Uploader.Start | hooks/useFileUpload.ts:38-70 | reset, connect, dataset listing, the chosen dataset's provider lookup, the balance check with the creation fee when no provider id was found; a throwing call settles the run |
| FileUpload.Uploader.Resolve | hooks/useFileUpload.ts:55-59 | the provider id is the chosen dataset's payee's registry entry, or none |
| FileUpload.Uploader.Create | hooks/useFileUpload.ts:76-111 | `createStorage` for the provider id with its callbacks handled, then the uploading checkpoint |
| FileUpload.Uploader.Send | hooks/useFileUpload.ts:110-158 | `upload` of the file's bytes with its callbacks handled, then the final record and success |
| FileUpload.Uploader.Callbacks | hooks/useFileUpload.ts:78-143 | the SDK's callbacks are handled in the order they fire, and no call is made meanwhile |
| UploadProperties.PlannedStart | hooks/useFileUpload.ts:38-73 | the start plans connect, the listing, the lookup for a chosen dataset and the balance check, with the lines 0, 5, 25 |
| UploadProperties.PlannedCreation | hooks/useFileUpload.ts:76-111 | the creation plans one `createStorage` and the callbacks before the uploading line |
| UploadProperties.PlannedSend | hooks/useFileUpload.ts:110-152 | the sending plans one upload of the file's size and the callbacks before the final record |
| UploadProperties.UploadOutline | hooks/useFileUpload.ts:38-152 | with the session checks passed, the plan's calls are the upload's calls for `getDataset`'s selection and its events are the upload's events |
| UploadProperties.UploadTrace | hooks/useFileUpload.ts:33-153 | no call when a session check fails; otherwise the calls are a prefix of connect, listing, lookup, balance check (fee iff no provider id), `createStorage` for that id and the upload, and the run begins with the reset; a successful run made them all and went through every step and callback |
| UploadProperties.UploadLeavesFunds | hooks/useFileUpload.ts:33-153 | uploading moves no funds, however far the run gets |
| UploadProperties.ReplayConcat | hooks/useFileUpload.ts:38-170 | replaying two event sequences is replaying the second after the first |
| UploadProperties.FailureView | hooks/useFileUpload.ts:159-163 | a failed upload ends at progress 0 with its error line; a failed session check leaves the record as it was |
| UploadProperties.RecordedHash | hooks/useFileUpload.ts:126-152 | the recorded hash is the last one an `onRootAdded` with a response reported |
| UploadProperties.LastHashConcat | hooks/useFileUpload.ts:126-139 | the last hash reported over two sequences is that of the second, if any, else that of the first |
| UploadProperties.SuccessView | hooks/useFileUpload.ts:113-158 | a successful upload ends at 100 with the stored line, and a record of the file's name and size, the returned commitment and the last reported hash |
| UploadProperties.FinalRecord | hooks/useFileUpload.ts:146-156 | the final record keeps an earlier hash, then success gives 100 |
| UploadProperties.BeginsAfresh | hooks/useFileUpload.ts:38-40 | whatever came before, the start leaves progress 0, the first line and no record |
| UploadProperties.ProgressRises | hooks/useFileUpload.ts:38-158 | progress never goes down along events whose checkpoints come in order |
| UploadProperties.OrderedConcat | hooks/useFileUpload.ts:38-158 | two ordered stretches in adjacent bands stay ordered when joined |
| UploadProperties.CheckpointOrder | hooks/useFileUpload.ts:62-156 | the fixed checkpoints 5, 25, 55, 95, 100 frame the callbacks' own |
| UploadProperties.SuccessRises | hooks/useFileUpload.ts:38-158 | with the callbacks in checkpoint order, a successful upload's progress never goes down after the start |
| Datasets.NormaliseUrl | hooks/useDatasets.ts:23-25 | the URL ends with a slash, added only when missing |
| Datasets.NormaliseIdempotent | hooks/useDatasets.ts:23-25 | normalising twice is normalising once |
| Datasets.DecimalString | hooks/useDatasets.ts:27 | the id is written as decimal digits without a leading zero |
| Datasets.DecimalRoundTrip | hooks/useDatasets.ts:27 | reading the digits back gives the id |
| Datasets.RequestUrl | hooks/useDatasets.ts:23-27 | the request goes to the normalised base, `pdp/proof-sets/`, the id |
| Datasets.DistinctEndpoints | hooks/useDatasets.ts:23-27 | two datasets on one server are fetched from distinct URLs |
| Datasets.FetchDatasetDetails | hooks/useDatasets.ts:18-46 | details come back iff the reply is a 2xx with a details body, and are that body; 404, other statuses and thrown errors all give null |
| Datasets.ProviderUrlMap | hooks/useDatasets.ts:84-86 | the map from owner to URL, a later entry replacing an earlier one: the registry's last entry is always present with its URL (its other properties in the two lemmas below) |
| Datasets.ProviderUrlKeys | hooks/useDatasets.ts:84-86 | the URL map has a key for exactly the registry's owners |
| Datasets.LastEntryWins | hooks/useDatasets.ts:84-86 | an owner's URL is that of its last registry entry |
| Datasets.FindProvider | hooks/useDatasets.ts:109-111 | none iff no provider has that owner; otherwise the first provider with it |
| Datasets.UrlOfFoundProvider | hooks/useDatasets.ts:84-111 | with one entry per owner, the map's URL is the found provider's URL |
| Datasets.DetailsFor | hooks/useDatasets.ts:89-118 | without a (non-empty) URL for the payee all three fields are null; otherwise the URL, the payee's provider and, when fetched, the details with the provider's URL written over theirs |
| Datasets.FirstResult | hooks/useDatasets.ts:140-142 | none iff no result has that id; otherwise the first result with it |
| Datasets.FirstOfDistinct | hooks/useDatasets.ts:140-142 | among results with distinct ids each is the one found for its id |
| Datasets.Join | hooks/useDatasets.ts:139-150 | one entry per dataset in order, each keeping every field but the three it is given, which come from the first result for its id or are null |
| Datasets.DatasetsGuard | hooks/useDatasets.ts:61-63 | the checks run in the order network, signer, address, each with its message |
| Datasets.LoadDatasets | hooks/useDatasets.ts:61-152 | the query function: it fails iff a check fails, with that check's message, and otherwise lists one entry per dataset (what each entry holds is OwnDetails) |
| Datasets.OwnDetails | hooks/useDatasets.ts:61-152 | the query fails iff a check fails, with its message; otherwise, with distinct ids, each dataset gets its own lookup's details, URL and provider |
| Accordion.Toggled | components/ui/Accordion.tsx:31-49 | a toggle flips the clicked value; in single mode nothing else stays open; in multiple mode every other value is unchanged |
| Accordion.SingleAtMostOne | components/ui/Accordion.tsx:33-40 | in single mode at most one item is open after a toggle |
| Accordion.AccordionState.IsOpen | components/ui/Accordion.tsx:70 | an item is open when the open set holds its value |
| Accordion.SingleToggle | components/ui/Accordion.tsx:34-40 | in single mode toggling an open item closes all, and toggling a closed one leaves exactly it open |
| Accordion.MultipleToggleTwice | components/ui/Accordion.tsx:42-47 | in multiple mode toggling a value twice restores the set |
| Accordion.AccordionState.constructor | components/ui/Accordion.tsx:26-27 | nothing is open initially |
| Accordion.AccordionState.ToggleItem | components/ui/Accordion.tsx:29-53 | the open set is a new object holding the toggled set, the previous object is untouched, the clicked item flips, and the single-mode bound is kept |
| Network.NetworkName | hooks/useNetwork.ts:4-8 | 314159 is calibration, 314 is mainnet, any other chain has no name |
| Network.NameRoundTrip | hooks/useNetwork.ts:4-8 | the name and the chain id determine each other on the two networks |
| Network.GetNetwork | hooks/useNetwork.ts:4-8 | the promise resolves to the network's name |
| Network.NetworkQuery | hooks/useNetwork.ts:14-19 | a missing or 0 chain id throws "Chain ID not found"; every other chain resolves to its name or null |
| Network.UnsupportedResolvesNull | hooks/useNetwork.ts:16-18 | an unknown chain resolves to null, and "Unsupported network" is never thrown |
| Network.NetworkQueryAwaited | hooks/useNetwork.ts:14-19 | a result only for a supported chain, whose id its name maps back to; an unknown chain throws "Unsupported network" |
| Network.AwaitedAgrees | hooks/useNetwork.ts:14-19 | both versions agree on supported chains and on a missing chain id, and differ exactly where the unknown chain resolves to null |
| Cta.PatternUnanchored | components/sections/CTA.tsx:16 | the pattern is not anchored: text around a match is still a match |
| Cta.PatternNeedsAt | components/sections/CTA.tsx:16 | a match needs at least five characters and an `@` after the first |
| Cta.EmptyRejected | components/sections/CTA.tsx:16 | an empty email is rejected |
| Cta.ShortestAccepted | components/sections/CTA.tsx:16 | `a@b.c` passes |
| Cta.SurroundedAccepted | components/sections/CTA.tsx:16 | an address inside a sentence passes |
| Cta.EmailPattern | components/sections/CTA.tsx:16 | `/\S+@\S+\.\S+/.test`: some `@` with a non-space character before it, a `.` after at least one non-space character, and a non-space character after the `.` |
| Cta.Accepts | components/sections/CTA.tsx:16 | the gate of the submit handler: the email is non-empty and matches the pattern |
| Cta.NoDotRejected | components/sections/CTA.tsx:16 | `a@b` fails |
| Cta.NothingBeforeAtRejected | components/sections/CTA.tsx:16 | `@b.c` fails |
| Cta.SpaceAfterEveryAtRejected | components/sections/CTA.tsx:16 | a string in which every `@` is followed by white space never matches |
| Cta.SpaceAfterAtRejected | components/sections/CTA.tsx:16 | the example `a@ b.c` fails |
| Cta.CtaForm.constructor | components/sections/CTA.tsx:10-12 | empty email, not submitted, not submitting |
| Cta.CtaForm.BeginSubmit | components/sections/CTA.tsx:14-18 | the submission proceeds iff the email is non-empty and matches; a rejected one changes nothing; an accepted one sets submitting |
| Cta.CtaForm.FinishSubmit | components/sections/CTA.tsx:23-25 | submitted, no longer submitting, field cleared, so the button is disabled |
| Cta.CtaForm.SetEmail | components/sections/CTA.tsx:79 | the field changes and nothing else |
| Cta.CtaForm.SubmitDisabled | components/sections/CTA.tsx:88 | the button is disabled while a submission runs or while the field is empty |

## Left out

- The SDK, the chain and the providers' servers are inputs:
  - `Synapse.create`, the dataset listing and the provider registry are the gateway's fields and its `rejected` map;
  - `fetch` is a function parameter;
  - the callbacks `createStorage` and `upload` fire are sequences of events.
- Callback timing: the callbacks are handled before their call's result is known. A call that throws after firing some callbacks is modelled as throwing before the rest.
- `preflightCheck`: only its call (and whether the creation fee is included) is modelled. Its body is not part of this model, and it receives the status and progress setters; anything it shows through them is left out.
- `Synapse.create` and the two registry reads in `useDatasets` are left out as failure points. A throwing SDK call there would reject the query; the model takes the listing and the registry as given.
- The console logging, `triggerConfetti`, React Query's retries, caching and `enabled` flag, the 1.5-second timer in the sign-up form, and all rendering are left out.
- The helpers `fetchFilecoinWarmStorageBalanceData`, `fetchFilecoinWarmStorageStorageCosts`, `calculateCurrentStorageUsage` and `calculateRateAllowanceGB` have no code in this model. Their results are the `balance` and `usage` parameters.
- Floating point: `Number(bigint)` and the day-count division are exact reals. Precision loss and the formatting of amounts are not modelled.
- `JsNumber.Divide`: only finite reals, ±Infinity and NaN are modelled; signed zero and overflow to Infinity are not.
- `Network.NetworkQuery`: a NaN chain id, which is also falsy, is not modelled (chain ids are integers).
- `Datasets.FetchDatasetDetails`: a 2xx body that is not a details record is `null`. The JSON parsing itself, a body that fails to parse, and what `response.json()` may otherwise return are not modelled.
- `Accordion.AccordionState.ToggleItem`: React's state updater is applied at once. Batching of several clicks is not modelled.
- `Cta.CtaForm.BeginSubmit`: `handleSubmit` is split at its `await`. `BeginSubmit` runs up to the timer and `FinishSubmit` after it. What the user types in between is a separate `SetEmail`.
- The storage metrics follow the code of `calculateStorageMetrics`, including three choices a reader might not expect:
  - `currentLockupRemaining` is subtracted without a clamp at 0 (`StorageMetrics.OverdrawnLockup`);
  - the requested-rate division has no zero guard (`StorageMetrics.NothingLockedAtZeroRate`, `StorageMetrics.PositiveRemainderAtZeroRate`);
  - `rateNeeded` is the SDK's `costs.perEpoch`, not recomputed from a price and a capacity.
- `useDownloadPiece`, `useBalances` and the pages and layout components are not part of this model.

## Findings

| source | as written | input that shows it | evidently intended | confidence | as-written member | corrected member |
|---|---|---|---|---|---|---|
| hooks/useNetwork.ts:16-18 | `getNetwork` is `async`, so `network` is a promise. The `!network` guard is always false, and an unsupported chain resolves to `null` | chain id 1: the query resolves to `null` | an unknown chain throws "Unsupported network" (awaiting `getNetwork` before the guard) | not executed | Network.UnsupportedResolvesNull | Network.NetworkQueryAwaited |
