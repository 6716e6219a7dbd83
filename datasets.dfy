/**
 * `useDatasets`: list the client's datasets with, for each, the details its
 * storage provider's PDP server reports, the provider's URL and the
 * provider itself. The provider registry and the dataset listing are
 * inputs; `fetch` is a function from a URL to what the request gives.
 */
module Datasets {
  import opened Wrappers
  import opened Types

  /** What `fetch` gives: a response (its HTTP status and, when its JSON body is a details record, that record), or a thrown error. */
  datatype Reply = Response(status: int, body: Option<DatasetDetails>) | NetworkError

  /** `response.ok`: a 2xx status. */
  predicate IsOk(status: int)
  {
    200 <= status <= 299
  }

  function EndsWithSlash(url: string): bool
  {
    |url| > 0 && url[|url| - 1] == '/'
  }

  /** The base URL with a trailing slash, appended only when missing. */
  function NormaliseUrl(url: string): (r: string)
    ensures EndsWithSlash(r)
    ensures EndsWithSlash(url) ==> r == url
    ensures !EndsWithSlash(url) ==> r == url + "/"
  {
    if !EndsWithSlash(url) then url + "/" else url
  }

  lemma NormaliseIdempotent(url: string)
    ensures NormaliseUrl(NormaliseUrl(url)) == NormaliseUrl(url)
  {
  }

  function Digit(d: nat): (c: char)
    requires d < 10
    ensures '0' <= c <= '9'
  {
    ('0' as int + d) as char
  }

  predicate IsDigits(s: string)
  {
    forall i :: 0 <= i < |s| ==> '0' <= s[i] <= '9'
  }

  /** A number as a template literal writes it: decimal digits, no leading zero. */
  function DecimalString(n: nat): (s: string)
    ensures |s| > 0 && IsDigits(s)
    ensures |s| > 1 ==> s[0] != '0'
    decreases n
  {
    if n < 10 then [Digit(n)] else DecimalString(n / 10) + [Digit(n % 10)]
  }

  /** The value of a string of decimal digits. */
  function DecimalValue(s: string): nat
    requires IsDigits(s)
    decreases |s|
  {
    if s == [] then 0 else DecimalValue(s[..|s| - 1]) * 10 + (s[|s| - 1] as int - '0' as int)
  }

  /** Reading the digits back gives the number: distinct ids ask for distinct URLs. */
  lemma {:induction false} DecimalRoundTrip(n: nat)
    ensures DecimalValue(DecimalString(n)) == n
    decreases n
  {
    if n >= 10 {
      var s := DecimalString(n);
      DecimalRoundTrip(n / 10);
      assert s[..|s| - 1] == DecimalString(n / 10);
    }
  }

  /** The details endpoint: the normalised base, `pdp/proof-sets/`, the dataset id. */
  function RequestUrl(pdpUrl: string, datasetId: nat): (r: string)
    ensures var base := NormaliseUrl(pdpUrl);
      && |r| == |base| + 15 + |DecimalString(datasetId)|
      && r[..|base|] == base
      && r[|base|..|base| + 15] == "pdp/proof-sets/"
      && r[|base| + 15..] == DecimalString(datasetId)
  {
    NormaliseUrl(pdpUrl) + "pdp/proof-sets/" + DecimalString(datasetId)
  }

  /** Two datasets served from the same URL are asked for at distinct endpoints. */
  lemma DistinctEndpoints(pdpUrl: string, a: nat, b: nat)
    requires a != b
    ensures RequestUrl(pdpUrl, a) != RequestUrl(pdpUrl, b)
  {
    var base := NormaliseUrl(pdpUrl);
    if RequestUrl(pdpUrl, a) == RequestUrl(pdpUrl, b) {
      assert DecimalString(a) == RequestUrl(pdpUrl, a)[|base| + 15..];
      DecimalRoundTrip(a);
      DecimalRoundTrip(b);
    }
  }

  /**
   * `fetchDatasetDetails`: the details record of a 2xx response; `null` for
   * a 404, for any other error status and for a thrown error alike (the
   * function catches everything), and for a body that is not a record.
   */
  function FetchDatasetDetails(datasetId: nat, pdpUrl: string, fetch: string -> Reply): (r: Option<DatasetDetails>)
    ensures var reply := fetch(RequestUrl(pdpUrl, datasetId));
      r.Some? <==> reply.Response? && IsOk(reply.status) && reply.body.Some?
    ensures var reply := fetch(RequestUrl(pdpUrl, datasetId));
      r.Some? ==> r == reply.body
  {
    var url := NormaliseUrl(pdpUrl);
    match fetch(url + "pdp/proof-sets/" + DecimalString(datasetId))
    case NetworkError => None
    case Response(status, body) =>
      if !IsOk(status) then
        if status == 404 then None
        else None // the HTTP error thrown here is caught below it
      else body
  }

  /** `new Map(providers.map(p => [p.owner, p.pdpUrl]))`: keyed by owner, a later entry replacing an earlier one. */
  function ProviderUrlMap(providers: seq<Provider>): (r: map<string, string>)
    ensures providers != [] ==> providers[|providers| - 1].owner in r && r[providers[|providers| - 1].owner] == providers[|providers| - 1].pdpUrl
    decreases |providers|
  {
    if providers == [] then map[]
    else
      var last := providers[|providers| - 1];
      ProviderUrlMap(providers[..|providers| - 1])[last.owner := last.pdpUrl]
  }

  /** The map has a key for exactly the owners in the registry. */
  lemma {:induction false} ProviderUrlKeys(providers: seq<Provider>, owner: string)
    ensures owner in ProviderUrlMap(providers) <==> exists i :: 0 <= i < |providers| && providers[i].owner == owner
    decreases |providers|
  {
    if providers != [] {
      var init := providers[..|providers| - 1];
      ProviderUrlKeys(init, owner);
      if owner in ProviderUrlMap(init) {
        var i :| 0 <= i < |init| && init[i].owner == owner;
        assert providers[i].owner == owner;
      }
      if exists i :: 0 <= i < |providers| && providers[i].owner == owner {
        var i :| 0 <= i < |providers| && providers[i].owner == owner;
        if i < |init| {
          assert init[i].owner == owner;
        }
      }
    }
  }

  /** An owner's URL is that of its last entry in the registry. */
  lemma {:induction false} LastEntryWins(providers: seq<Provider>, i: nat)
    requires i < |providers|
    requires forall j :: i < j < |providers| ==> providers[j].owner != providers[i].owner
    ensures providers[i].owner in ProviderUrlMap(providers)
    ensures ProviderUrlMap(providers)[providers[i].owner] == providers[i].pdpUrl
    decreases |providers|
  {
    var init := providers[..|providers| - 1];
    if i < |init| {
      assert forall j :: i < j < |init| ==> init[j] == providers[j];
      LastEntryWins(init, i);
    }
  }

  /** `providers.find(p => p.owner === owner)`: the first provider with that owner. */
  function FindProvider(providers: seq<Provider>, owner: string): (r: Option<Provider>)
    ensures r.None? <==> forall i :: 0 <= i < |providers| ==> providers[i].owner != owner
    ensures r.Some? ==> exists i :: 0 <= i < |providers| && providers[i] == r.value && r.value.owner == owner
                                    && forall j :: 0 <= j < i ==> providers[j].owner != owner
    decreases |providers|
  {
    if providers == [] then None
    else if providers[0].owner == owner then Some(providers[0])
    else
      FindProvider(providers[1..], owner)
  }

  /** With one entry per owner, the URL in the map is the found provider's URL. */
  lemma UrlOfFoundProvider(providers: seq<Provider>, owner: string)
    requires forall i, j :: 0 <= i < j < |providers| ==> providers[i].owner != providers[j].owner
    requires owner in ProviderUrlMap(providers)
    ensures FindProvider(providers, owner).Some?
    ensures ProviderUrlMap(providers)[owner] == FindProvider(providers, owner).value.pdpUrl
  {
    ProviderUrlKeys(providers, owner);
    var p := FindProvider(providers, owner).value;
    var i :| 0 <= i < |providers| && providers[i] == p && p.owner == owner && forall j :: 0 <= j < i ==> providers[j].owner != owner;
    LastEntryWins(providers, i);
  }

  /** One dataset's lookup result. */
  datatype DetailsResult = DetailsResult(datasetId: nat, details: Option<DatasetDetails>, pdpUrl: Option<string>, provider: Option<Provider>)

  /**
   * The details of one dataset: nothing at all when its payee has no URL
   * (or an empty one); otherwise the fetched details with the provider's URL
   * written over theirs, the URL, and the first provider with that owner.
   */
  function DetailsFor(d: DataSet, providers: seq<Provider>, fetch: string -> Reply): (r: DetailsResult)
    ensures r.datasetId == d.pdpVerifierProofSetId
    ensures var urls := ProviderUrlMap(providers);
      !(d.payee in urls && urls[d.payee] != "") ==> r == DetailsResult(d.pdpVerifierProofSetId, None, None, None)
    ensures var urls := ProviderUrlMap(providers);
      d.payee in urls && urls[d.payee] != "" ==>
        && r.pdpUrl == Some(urls[d.payee])
        && r.provider.Some? && r.provider.value.owner == d.payee
        && (r.details.Some? <==> FetchDatasetDetails(d.pdpVerifierProofSetId, urls[d.payee], fetch).Some?)
        && (r.details.Some? ==>
              r.details.value == FetchDatasetDetails(d.pdpVerifierProofSetId, urls[d.payee], fetch).value.(pdpUrl := urls[d.payee]))
  {
    var urls := ProviderUrlMap(providers);
    var pdpUrl := if d.payee in urls then Some(urls[d.payee]) else None;
    if !Present(pdpUrl) then DetailsResult(d.pdpVerifierProofSetId, None, None, None)
    else
      ProviderUrlKeys(providers, d.payee);
      var details := FetchDatasetDetails(d.pdpVerifierProofSetId, pdpUrl.value, fetch);
      var provider := FindProvider(providers, d.payee);
      DetailsResult(d.pdpVerifierProofSetId, if details.Some? then Some(details.value.(pdpUrl := pdpUrl.value)) else None,
                    pdpUrl, provider)
  }

  /** `datasetDetailsResults.find(r => r.datasetId === id)`: the first result for that id. */
  function FirstResult(results: seq<DetailsResult>, id: nat): (r: Option<DetailsResult>)
    ensures r.None? <==> forall i :: 0 <= i < |results| ==> results[i].datasetId != id
    ensures r.Some? ==> exists i :: 0 <= i < |results| && results[i] == r.value && r.value.datasetId == id
                                    && forall j :: 0 <= j < i ==> results[j].datasetId != id
    decreases |results|
  {
    if results == [] then None
    else if results[0].datasetId == id then Some(results[0])
    else
      FirstResult(results[1..], id)
  }

  /** `{...dataset, details: r?.details ?? null, pdpUrl: r?.pdpUrl ?? null, provider: r?.provider ?? null}`. */
  function Combine(d: DataSet, r: Option<DetailsResult>): DataSet
  {
    match r
    case None => d.(details := None, pdpUrl := None, provider := None)
    case Some(x) => d.(details := x.details, pdpUrl := x.pdpUrl, provider := x.provider)
  }

  /** The combined list: one entry per dataset, in order, each keeping all its own fields but the three it is given. */
  function Join(datasets: seq<DataSet>, results: seq<DetailsResult>): (r: seq<DataSet>)
    ensures |r| == |datasets|
    ensures forall i :: 0 <= i < |r| ==> r[i] == Combine(datasets[i], FirstResult(results, datasets[i].pdpVerifierProofSetId))
    ensures forall i :: 0 <= i < |r| ==>
      r[i].(details := datasets[i].details, pdpUrl := datasets[i].pdpUrl, provider := datasets[i].provider) == datasets[i]
  {
    seq(|datasets|, i requires 0 <= i < |datasets| => Combine(datasets[i], FirstResult(results, datasets[i].pdpVerifierProofSetId)))
  }

  /** The session checks of the query, in its order: network, signer, address. */
  function DatasetsGuard(s: Session): (m: Option<string>)
    ensures m.None? <==> Present(s.network) && s.signer && Present(s.address)
    ensures !Present(s.network) ==> m == Some("Network not found")
    ensures Present(s.network) && !s.signer ==> m == Some("Signer not found")
    ensures Present(s.network) && s.signer && !Present(s.address) ==> m == Some("Address not found")
  {
    if !Present(s.network) then Some("Network not found")
    else if !s.signer then Some("Signer not found")
    else if !Present(s.address) then Some("Address not found")
    else None
  }

  /** The query: the session checks, then every dataset's details, joined to the listing. */
  function LoadDatasets(s: Session, providers: seq<Provider>, datasets: seq<DataSet>, fetch: string -> Reply): (r: Result<seq<DataSet>>)
    ensures r.Ok? <==> DatasetsGuard(s).None?
    ensures r.Err? ==> r.message == DatasetsGuard(s).value
    ensures r.Ok? ==> |r.value| == |datasets|
  {
    match DatasetsGuard(s)
    case Some(m) => Err(m)
    case None =>
      var results := seq(|datasets|, i requires 0 <= i < |datasets| => DetailsFor(datasets[i], providers, fetch));
      Ok(Join(datasets, results))
  }

  /** Among results with distinct ids, each is the first one for its id. */
  lemma FirstOfDistinct(results: seq<DetailsResult>, i: nat)
    requires i < |results|
    requires forall j, k :: 0 <= j < k < |results| ==> results[j].datasetId != results[k].datasetId
    ensures FirstResult(results, results[i].datasetId) == Some(results[i])
  {
    var found := FirstResult(results, results[i].datasetId);
    var k :| 0 <= k < |results| && results[k] == found.value && found.value.datasetId == results[i].datasetId
             && forall j :: 0 <= j < k ==> results[j].datasetId != results[i].datasetId;
  }

  /**
   * With distinct dataset ids every dataset gets its own details: those its
   * payee's provider reports, or none at all when the payee has no URL.
   */
  lemma OwnDetails(s: Session, providers: seq<Provider>, datasets: seq<DataSet>, fetch: string -> Reply)
    requires forall i, j :: 0 <= i < j < |datasets| ==> datasets[i].pdpVerifierProofSetId != datasets[j].pdpVerifierProofSetId
    ensures LoadDatasets(s, providers, datasets, fetch).Ok? <==> DatasetsGuard(s).None?
    ensures LoadDatasets(s, providers, datasets, fetch).Err? ==> LoadDatasets(s, providers, datasets, fetch).message == DatasetsGuard(s).value
    ensures var r := LoadDatasets(s, providers, datasets, fetch);
      r.Ok? ==>
        && |r.value| == |datasets|
        && forall i :: 0 <= i < |datasets| ==>
             var x := DetailsFor(datasets[i], providers, fetch);
             r.value[i] == datasets[i].(details := x.details, pdpUrl := x.pdpUrl, provider := x.provider)
  {
    if DatasetsGuard(s).None? {
      var results := seq(|datasets|, i requires 0 <= i < |datasets| => DetailsFor(datasets[i], providers, fetch));
      assert forall i :: 0 <= i < |results| ==> results[i].datasetId == datasets[i].pdpVerifierProofSetId;
      forall i | 0 <= i < |datasets|
        ensures FirstResult(results, datasets[i].pdpVerifierProofSetId) == Some(results[i])
      {
        FirstOfDistinct(results, i);
      }
    }
  }
}
