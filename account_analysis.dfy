/** Model of the ETH account-analysis stamp providers.

    A provider reads one metric of an address's analysis record and compares
    it with a fixed minimum. The record is fetched from a data-science model
    service until one fetch succeeds, then cached in the verification context.
 */
module EthProviders {

  /* ----- Results and errors */

  datatype Option<+T> = None | Some(value: T)

  datatype Result<+T, +E> = Ok(value: T) | Err(error: E)

  /** The error that escapes the fetch when the model service cannot be
      reached or answers with an error: a description of what was being
      fetched, and the configured service host. */
  datatype ProviderError = ModelUnavailable(what: string, endpoint: string)

  /* ----- Wire format and analysis record */

  /** The `data` part of the model service's JSON answer. The field names are
      the JSON keys of the service. */
  datatype ModelData = ModelData(
    human_probability: real,
    gas_spent: real,
    n_days_active: real,
    n_transactions: real)

  datatype ModelResponse = ModelResponse(data: ModelData)

  /** The analysis kept in a verification context. */
  datatype ETHAnalysis = ETHAnalysis(
    humanProbability: real,
    gasSpent: real,
    numberDaysActive: real,
    numberTransactions: real)

  /** The four keys of an `ETHAnalysis` a provider may test. */
  datatype DataKey = HumanProbability | GasSpent | NumberDaysActive | NumberTransactions

  /** `ethAnalysis[dataKey]`: the field a key names. */
  function Select(a: ETHAnalysis, key: DataKey): real
  {
    match key
    case HumanProbability => a.humanProbability
    case GasSpent => a.gasSpent
    case NumberDaysActive => a.numberDaysActive
    case NumberTransactions => a.numberTransactions
  }

  /** Builds the cached record from the service's answer, one field per
      wire field, nothing renamed across fields. */
  function ToAnalysis(d: ModelData): (a: ETHAnalysis)
    ensures Select(a, HumanProbability) == d.human_probability
    ensures Select(a, GasSpent) == d.gas_spent
    ensures Select(a, NumberDaysActive) == d.n_days_active
    ensures Select(a, NumberTransactions) == d.n_transactions
  {
    ETHAnalysis(d.human_probability, d.gas_spent, d.n_days_active, d.n_transactions)
  }

  /* ----- The model service */

  /** The one model variant these providers ask for. */
  const PredictSubPath: string := "eth-stamp-v2-predict"

  /** `http://<endpoint>/<subPath>` */
  function Url(endpoint: string, subPath: string): (url: string)
    ensures |url| == 8 + |endpoint| + |subPath|
    ensures url[..7] == "http://" && url[7..7 + |endpoint|] == endpoint
    ensures url[7 + |endpoint|] == '/' && url[8 + |endpoint|..] == subPath
  {
    "http://" + endpoint + "/" + subPath
  }

  /** One POST sent to the service: the URL and the `address` of its body. */
  datatype Post = Post(url: string, address: string)

  /** The external data-science service. What it answers is not known to the
      providers: `reply(url, address, n)` stands for its answer to the n-th
      POST sent to it, counting from 0 (None when that call fails: connection
      error or error status), so a call that fails may be followed
      by one that succeeds. `requests` records every POST sent, so its length
      is the number of fetches so far. */
  class ModelService {
    const endpoint: string
    const reply: (string, string, nat) -> Option<ModelResponse>
    var requests: seq<Post>

    constructor (endpoint: string, reply: (string, string, nat) -> Option<ModelResponse>)
      ensures this.endpoint == endpoint && this.reply == reply && requests == []
    {
      this.endpoint := endpoint;
      this.reply := reply;
      requests := [];
    }

    /** POST `{address}` to `http://<endpoint>/<subPath>`; a failed call
        becomes `ModelUnavailable` naming the model data and the host. */
    method FetchModelData(address: string, subPath: string)
      returns (r: Result<ModelResponse, ProviderError>)
      modifies this
      ensures requests == old(requests) + [Post(Url(endpoint, subPath), address)]
      ensures reply(Url(endpoint, subPath), address, |old(requests)|).Some? ==>
                r == Ok(reply(Url(endpoint, subPath), address, |old(requests)|).value)
      ensures reply(Url(endpoint, subPath), address, |old(requests)|).None? ==>
                r == Err(ModelUnavailable("model data (" + subPath + ")", endpoint))
    {
      var url := Url(endpoint, subPath);
      var answer := reply(url, address, |requests|);
      requests := requests + [Post(url, address)];
      match answer
      case Some(response) =>
        r := Ok(response);
      case None =>
        r := Err(ModelUnavailable("model data (" + subPath + ")", endpoint));
    }
  }

  /* ----- Per-request context and the cached fetch */

  /** Scratch state of one verification request, shared by the providers
      checked for the same address. */
  class ETHAnalysisContext {
    var ethAnalysis: Option<ETHAnalysis>

    constructor ()
      ensures ethAnalysis == None
    {
      ethAnalysis := None;
    }
  }

  /** The answer the service gives when this client's fetch for `address` is
      the n-th POST it receives. */
  function PredictReply(service: ModelService, address: string, n: nat): Option<ModelResponse>
  {
    service.reply(Url(service.endpoint, PredictSubPath), address, n)
  }

  /** Returns the context's analysis, fetching and storing it first when the
      context holds none. The context is assigned only after a successful
      fetch; a failure propagates and leaves the context empty. */
  method GetETHAnalysis(address: string, context: ETHAnalysisContext, service: ModelService)
    returns (r: Result<ETHAnalysis, ProviderError>)
    modifies context, service
    // a cached record is returned as it is, with no fetch
    ensures old(context.ethAnalysis).Some? ==>
              r == Ok(old(context.ethAnalysis).value) &&
              context.ethAnalysis == old(context.ethAnalysis) &&
              service.requests == old(service.requests)
    // an empty context costs exactly one fetch of the predict model
    ensures old(context.ethAnalysis).None? ==>
              service.requests == old(service.requests) +
                                  [Post(Url(service.endpoint, PredictSubPath), address)]
    ensures old(context.ethAnalysis).None? && PredictReply(service, address, |old(service.requests)|).Some? ==>
              r == Ok(ToAnalysis(PredictReply(service, address, |old(service.requests)|).value.data)) &&
              context.ethAnalysis == Some(r.value)
    ensures old(context.ethAnalysis).None? && PredictReply(service, address, |old(service.requests)|).None? ==>
              r == Err(ModelUnavailable("model data (" + PredictSubPath + ")", service.endpoint)) &&
              context.ethAnalysis == None
    // whatever happened, a successful result is what the context now holds
    ensures r.Ok? ==> context.ethAnalysis == Some(r.value)
  {
    if context.ethAnalysis.None? {
      var fetched := service.FetchModelData(address, PredictSubPath);
      match fetched
      case Err(e) =>
        return Err(e);
      case Ok(response) =>
        context.ethAnalysis := Some(ToAnalysis(response.data));
    }
    r := Ok(context.ethAnalysis.value);
  }

  /** Two lookups on one context: once the first succeeds the second returns
      the same record without fetching, so the pair costs one fetch. When the
      first fails the context stays empty and the second fetches again. */
  method GetETHAnalysisTwice(address: string, context: ETHAnalysisContext, service: ModelService)
    returns (first: Result<ETHAnalysis, ProviderError>, second: Result<ETHAnalysis, ProviderError>)
    modifies context, service
    ensures first.Ok? ==> second == first && context.ethAnalysis == Some(first.value)
    ensures first.Ok? ==> |service.requests| <= |old(service.requests)| + 1
    ensures old(context.ethAnalysis).Some? ==>
              service.requests == old(service.requests) && first == second
    ensures first.Err? ==> |service.requests| == |old(service.requests)| + 2
    // on an empty context the first lookup succeeds exactly when the service answers
    ensures old(context.ethAnalysis).None? ==>
              (first.Ok? <==> PredictReply(service, address, |old(service.requests)|).Some?)
    // a failed first lookup does not doom the second: it is a fresh POST
    ensures first.Err? ==>
              (second.Ok? <==> PredictReply(service, address, |old(service.requests)| + 1).Some?)
  {
    first := GetETHAnalysis(address, context, service);
    second := GetETHAnalysis(address, context, service);
  }

  /** The cache is not keyed by address: once a context holds an analysis,
      a lookup for any other address returns that same record, with no
      fetch. A context is meant for one address only. */
  method GetETHAnalysisForTwoAddresses(address: string, otherAddress: string,
                                       context: ETHAnalysisContext, service: ModelService)
    returns (first: Result<ETHAnalysis, ProviderError>, other: Result<ETHAnalysis, ProviderError>)
    modifies context, service
    ensures first.Ok? ==> other == first
    ensures first.Ok? && old(context.ethAnalysis).None? ==>
              service.requests == old(service.requests) +
                                  [Post(Url(service.endpoint, PredictSubPath), address)]
    ensures old(context.ethAnalysis).Some? ==> service.requests == old(service.requests)
  {
    first := GetETHAnalysis(address, context, service);
    other := GetETHAnalysis(otherAddress, context, service);
  }

  /* ----- Threshold providers */

  /** What a provider is told to verify: only the address is used. */
  datatype RequestPayload = RequestPayload(address: string)

  datatype VerifiedRecord = VerifiedRecord(address: string)

  datatype VerifiedPayload =
    | Invalid(errors: seq<string>)
    | Valid(record: VerifiedRecord)

  /** A provider's configuration. */
  datatype EthOptions = EthOptions(
    providerType: string,
    minimum: real,
    dataKey: DataKey,
    failureMessageFormatter: (real, real) -> string)

  /** The decision a provider takes on a fetched analysis: the selected value
      fails exactly when it is strictly below the minimum (equal passes). A
      failure carries the one formatted message; a success carries the
      address of the request. */
  function Decide(options: EthOptions, analysis: ETHAnalysis, address: string): (r: VerifiedPayload)
    ensures r.Invalid? <==> Select(analysis, options.dataKey) < options.minimum
    ensures r.Invalid? ==>
              r.errors == [options.failureMessageFormatter(options.minimum, Select(analysis, options.dataKey))]
    ensures r.Valid? ==> r.record == VerifiedRecord(address)
  {
    var value := Select(analysis, options.dataKey);
    if value < options.minimum then
      Invalid([options.failureMessageFormatter(options.minimum, value)])
    else
      Valid(VerifiedRecord(address))
  }

  /** Raising the minimum on the same field can only turn passes into
      failures. */
  lemma ThresholdMonotone(low: EthOptions, high: EthOptions, analysis: ETHAnalysis, address: string)
    requires low.dataKey == high.dataKey && low.minimum <= high.minimum
    ensures Decide(high, analysis, address).Valid? ==> Decide(low, analysis, address).Valid?
  {
  }

  class AccountAnalysis {
    const providerType: string
    const minimum: real
    const dataKey: DataKey
    const failureMessageFormatter: (real, real) -> string

    /** The configuration this provider was built from. */
    function Options(): EthOptions
    {
      EthOptions(providerType, minimum, dataKey, failureMessageFormatter)
    }

    constructor (options: EthOptions)
      ensures providerType == options.providerType
      ensures minimum == options.minimum
      ensures dataKey == options.dataKey
      ensures failureMessageFormatter == options.failureMessageFormatter
    {
      providerType := options.providerType;
      minimum := options.minimum;
      dataKey := options.dataKey;
      failureMessageFormatter := options.failureMessageFormatter;
    }

    /** Looks up the analysis of the payload's address through the context
        and decides on it. A failed fetch propagates as an error; a failed
        check is a result, never an error. */
    method Verify(payload: RequestPayload, context: ETHAnalysisContext, service: ModelService)
      returns (r: Result<VerifiedPayload, ProviderError>)
      modifies context, service
      ensures old(context.ethAnalysis).Some? ==>
                r == Ok(Decide(Options(), old(context.ethAnalysis).value, payload.address)) &&
                context.ethAnalysis == old(context.ethAnalysis) &&
                service.requests == old(service.requests)
      ensures old(context.ethAnalysis).None? ==>
                service.requests == old(service.requests) +
                                    [Post(Url(service.endpoint, PredictSubPath), payload.address)]
      ensures old(context.ethAnalysis).None? && PredictReply(service, payload.address, |old(service.requests)|).Some? ==>
                context.ethAnalysis == Some(ToAnalysis(PredictReply(service, payload.address, |old(service.requests)|).value.data)) &&
                r == Ok(Decide(Options(), context.ethAnalysis.value, payload.address))
      ensures old(context.ethAnalysis).None? && PredictReply(service, payload.address, |old(service.requests)|).None? ==>
                r == Err(ModelUnavailable("model data (" + PredictSubPath + ")", service.endpoint)) &&
                context.ethAnalysis == None
    {
      var address := payload.address;
      var analysis := GetETHAnalysis(address, context, service);
      match analysis
      case Err(e) =>
        r := Err(e);
      case Ok(a) =>
        r := Ok(Decide(Options(), a, address));
    }
  }

  /* ----- The six configurations
     `show` is the conversion of a JavaScript number to its decimal text,
     as a template literal performs it. */

  /** Text of the three human-probability providers. */
  function HumanProbabilityMessage(show: real -> string, minimum: real, actual: real): string
  {
    "You received a score of " + show(actual) +
    " from our analysis. You must have a score of " + show(minimum) +
    " or higher to obtain this stamp."
  }

  function DaysActiveMessage(show: real -> string, minimum: real, actual: real): string
  {
    "You have been active on Ethereum on " + show(actual) +
    " distinct days. You must be active for " + show(minimum) +
    " days to obtain this stamp."
  }

  function GasSpentMessage(show: real -> string, minimum: real, actual: real): string
  {
    "You have spent " + show(actual) +
    " ETH on Ethereum gas. You must spend " + show(minimum) +
    " ETH on gas to obtain this stamp."
  }

  function TransactionsMessage(show: real -> string, minimum: real, actual: real): string
  {
    "You have made " + show(actual) +
    " transactions on Ethereum. You must make " + show(minimum) +
    " transactions to obtain this stamp."
  }

  /** The human-probability family: the field and message are fixed, the
      type and minimum are chosen per tier. */
  function HumanProbabilityOptions(providerType: string, minimum: real, show: real -> string): EthOptions
  {
    EthOptions(providerType, minimum, HumanProbability,
               (m, a) => HumanProbabilityMessage(show, m, a))
  }

  function EthEnthusiastOptions(show: real -> string): EthOptions
  {
    HumanProbabilityOptions("ETHScore#50", 50.0, show)
  }

  function EthAdvocateOptions(show: real -> string): EthOptions
  {
    HumanProbabilityOptions("ETHScore#75", 75.0, show)
  }

  function EthMaxiOptions(show: real -> string): EthOptions
  {
    HumanProbabilityOptions("ETHScore#90", 90.0, show)
  }

  function EthDaysActiveOptions(show: real -> string): EthOptions
  {
    EthOptions("ETHDaysActive#50", 50.0, NumberDaysActive,
               (m, a) => DaysActiveMessage(show, m, a))
  }

  function EthGasSpentOptions(show: real -> string): EthOptions
  {
    EthOptions("ETHGasSpent#0.25", 0.25, GasSpent,
               (m, a) => GasSpentMessage(show, m, a))
  }

  function EthTransactionsOptions(show: real -> string): EthOptions
  {
    EthOptions("ETHnumTransactions#100", 100.0, NumberTransactions,
               (m, a) => TransactionsMessage(show, m, a))
  }

  /** The three human-probability tiers are nested: on the same analysis,
      passing the 90 tier passes the 75 tier, which passes the 50 tier. */
  lemma HumanProbabilityTiers(show: real -> string, analysis: ETHAnalysis, address: string)
    ensures Decide(EthMaxiOptions(show), analysis, address).Valid? ==>
              Decide(EthAdvocateOptions(show), analysis, address).Valid?
    ensures Decide(EthAdvocateOptions(show), analysis, address).Valid? ==>
              Decide(EthEnthusiastOptions(show), analysis, address).Valid?
  {
    ThresholdMonotone(EthAdvocateOptions(show), EthMaxiOptions(show), analysis, address);
    ThresholdMonotone(EthEnthusiastOptions(show), EthAdvocateOptions(show), analysis, address);
  }

  /** The three tiers verified in turn on one context: one fetch at most for
      all three, and the nesting of the tiers carries over to the results. */
  method VerifyHumanProbabilityTiers(show: real -> string, payload: RequestPayload,
                                     context: ETHAnalysisContext, service: ModelService)
    returns (maxi: Result<VerifiedPayload, ProviderError>,
             advocate: Result<VerifiedPayload, ProviderError>,
             enthusiast: Result<VerifiedPayload, ProviderError>)
    modifies context, service
    ensures maxi.Ok? ==> |service.requests| <= |old(service.requests)| + 1
    ensures maxi.Ok? && maxi.value.Valid? ==> advocate.Ok? && advocate.value.Valid?
    ensures advocate.Ok? && advocate.value.Valid? ==> enthusiast.Ok? && enthusiast.value.Valid?
  {
    var maxiProvider := new AccountAnalysis(EthMaxiOptions(show));
    var advocateProvider := new AccountAnalysis(EthAdvocateOptions(show));
    var enthusiastProvider := new AccountAnalysis(EthEnthusiastOptions(show));
    maxi := maxiProvider.Verify(payload, context, service);
    advocate := advocateProvider.Verify(payload, context, service);
    enthusiast := enthusiastProvider.Verify(payload, context, service);
    if context.ethAnalysis.Some? {
      HumanProbabilityTiers(show, context.ethAnalysis.value, payload.address);
    }
  }

  /* ----- What a failure message says */

  /** `t` occurs in `s` starting at index `i`. */
  ghost predicate OccursAt(s: string, t: string, i: int)
  {
    0 <= i && i + |t| <= |s| && s[i..i + |t|] == t
  }

  ghost predicate Contains(s: string, t: string)
  {
    exists i :: OccursAt(s, t, i)
  }

  /** The middle part of `p + t + q` is `t`. */
  lemma OccursInMiddle(p: string, t: string, q: string)
    ensures OccursAt(p + t + q, t, |p|)
  {
    assert (p + t + q)[|p|..|p| + |t|] == t;
  }

  /** A message of the form `a + x + b + y + c` mentions both `x` and `y`. */
  lemma {:induction false} MentionsBoth(a: string, x: string, b: string, y: string, c: string)
    ensures Contains(a + x + b + y + c, x)
    ensures Contains(a + x + b + y + c, y)
  {
    assert a + x + b + y + c == a + x + (b + y + c);
    OccursInMiddle(a, x, b + y + c);
    OccursInMiddle(a + x + b, y, c);
  }

  lemma HumanProbabilityMessageMentions(show: real -> string, minimum: real, actual: real)
    ensures Contains(HumanProbabilityMessage(show, minimum, actual), show(actual))
    ensures Contains(HumanProbabilityMessage(show, minimum, actual), show(minimum))
  {
    MentionsBoth("You received a score of ", show(actual),
                 " from our analysis. You must have a score of ", show(minimum),
                 " or higher to obtain this stamp.");
  }

  lemma DaysActiveMessageMentions(show: real -> string, minimum: real, actual: real)
    ensures Contains(DaysActiveMessage(show, minimum, actual), show(actual))
    ensures Contains(DaysActiveMessage(show, minimum, actual), show(minimum))
  {
    MentionsBoth("You have been active on Ethereum on ", show(actual),
                 " distinct days. You must be active for ", show(minimum),
                 " days to obtain this stamp.");
  }

  lemma GasSpentMessageMentions(show: real -> string, minimum: real, actual: real)
    ensures Contains(GasSpentMessage(show, minimum, actual), show(actual))
    ensures Contains(GasSpentMessage(show, minimum, actual), show(minimum))
  {
    MentionsBoth("You have spent ", show(actual),
                 " ETH on Ethereum gas. You must spend ", show(minimum),
                 " ETH on gas to obtain this stamp.");
  }

  lemma TransactionsMessageMentions(show: real -> string, minimum: real, actual: real)
    ensures Contains(TransactionsMessage(show, minimum, actual), show(actual))
    ensures Contains(TransactionsMessage(show, minimum, actual), show(minimum))
  {
    MentionsBoth("You have made ", show(actual),
                 " transactions on Ethereum. You must make ", show(minimum),
                 " transactions to obtain this stamp.");
  }

  /** A human-probability provider of any tier fails exactly when the score
      is below the tier's minimum; its one error then names both numbers, and
      otherwise it certifies the address. */
  lemma HumanProbabilityProviderDecision(providerType: string, minimum: real, show: real -> string,
                                         analysis: ETHAnalysis, address: string)
    ensures Decide(HumanProbabilityOptions(providerType, minimum, show), analysis, address).Invalid? <==>
              analysis.humanProbability < minimum
    ensures Decide(HumanProbabilityOptions(providerType, minimum, show), analysis, address).Valid? ==>
              Decide(HumanProbabilityOptions(providerType, minimum, show), analysis, address).record
                == VerifiedRecord(address)
    ensures Decide(HumanProbabilityOptions(providerType, minimum, show), analysis, address).Invalid? ==>
              |Decide(HumanProbabilityOptions(providerType, minimum, show), analysis, address).errors| == 1 &&
              Contains(Decide(HumanProbabilityOptions(providerType, minimum, show), analysis, address).errors[0],
                       show(analysis.humanProbability)) &&
              Contains(Decide(HumanProbabilityOptions(providerType, minimum, show), analysis, address).errors[0],
                       show(minimum))
  {
    if analysis.humanProbability < minimum {
      HumanProbabilityMessageMentions(show, minimum, analysis.humanProbability);
    }
  }

  /** The three tiers are the human-probability family with type ids
      ETHScore#50, ETHScore#75 and ETHScore#90 and minimums 50, 75 and 90. */
  lemma HumanProbabilityTierOptions(show: real -> string, analysis: ETHAnalysis, address: string)
    ensures EthEnthusiastOptions(show).providerType == "ETHScore#50" &&
            EthAdvocateOptions(show).providerType == "ETHScore#75" &&
            EthMaxiOptions(show).providerType == "ETHScore#90"
    ensures Decide(EthEnthusiastOptions(show), analysis, address).Invalid? <==> analysis.humanProbability < 50.0
    ensures Decide(EthAdvocateOptions(show), analysis, address).Invalid? <==> analysis.humanProbability < 75.0
    ensures Decide(EthMaxiOptions(show), analysis, address).Invalid? <==> analysis.humanProbability < 90.0
    ensures Decide(EthMaxiOptions(show), analysis, address).Invalid? ==>
              Contains(Decide(EthMaxiOptions(show), analysis, address).errors[0], show(analysis.humanProbability)) &&
              Contains(Decide(EthMaxiOptions(show), analysis, address).errors[0], show(90.0))
    ensures Decide(EthAdvocateOptions(show), analysis, address).Invalid? ==>
              Contains(Decide(EthAdvocateOptions(show), analysis, address).errors[0], show(analysis.humanProbability)) &&
              Contains(Decide(EthAdvocateOptions(show), analysis, address).errors[0], show(75.0))
    ensures Decide(EthEnthusiastOptions(show), analysis, address).Invalid? ==>
              Contains(Decide(EthEnthusiastOptions(show), analysis, address).errors[0], show(analysis.humanProbability)) &&
              Contains(Decide(EthEnthusiastOptions(show), analysis, address).errors[0], show(50.0))
  {
    HumanProbabilityProviderDecision("ETHScore#50", 50.0, show, analysis, address);
    HumanProbabilityProviderDecision("ETHScore#75", 75.0, show, analysis, address);
    HumanProbabilityProviderDecision("ETHScore#90", 90.0, show, analysis, address);
  }

  /** The days-active provider (ETHDaysActive#50) fails exactly when the
      address was active on fewer than 50 days; its one error then names
      both numbers. */
  lemma DaysActiveProviderDecision(show: real -> string, analysis: ETHAnalysis, address: string)
    ensures EthDaysActiveOptions(show).providerType == "ETHDaysActive#50"
    ensures Decide(EthDaysActiveOptions(show), analysis, address).Invalid? <==>
              analysis.numberDaysActive < 50.0
    ensures Decide(EthDaysActiveOptions(show), analysis, address).Valid? ==>
              Decide(EthDaysActiveOptions(show), analysis, address).record == VerifiedRecord(address)
    ensures Decide(EthDaysActiveOptions(show), analysis, address).Invalid? ==>
              |Decide(EthDaysActiveOptions(show), analysis, address).errors| == 1 &&
              Contains(Decide(EthDaysActiveOptions(show), analysis, address).errors[0],
                       show(analysis.numberDaysActive)) &&
              Contains(Decide(EthDaysActiveOptions(show), analysis, address).errors[0], show(50.0))
  {
    DaysActiveMessageMentions(show, 50.0, analysis.numberDaysActive);
  }

  /** The gas-spent provider (ETHGasSpent#0.25) fails exactly when the
      address spent less than 0.25 ETH on gas; its one error then names both
      amounts. */
  lemma GasSpentProviderDecision(show: real -> string, analysis: ETHAnalysis, address: string)
    ensures EthGasSpentOptions(show).providerType == "ETHGasSpent#0.25"
    ensures Decide(EthGasSpentOptions(show), analysis, address).Invalid? <==>
              analysis.gasSpent < 0.25
    ensures Decide(EthGasSpentOptions(show), analysis, address).Valid? ==>
              Decide(EthGasSpentOptions(show), analysis, address).record == VerifiedRecord(address)
    ensures Decide(EthGasSpentOptions(show), analysis, address).Invalid? ==>
              |Decide(EthGasSpentOptions(show), analysis, address).errors| == 1 &&
              Contains(Decide(EthGasSpentOptions(show), analysis, address).errors[0],
                       show(analysis.gasSpent)) &&
              Contains(Decide(EthGasSpentOptions(show), analysis, address).errors[0], show(0.25))
  {
    GasSpentMessageMentions(show, 0.25, analysis.gasSpent);
  }

  /** The transactions provider (ETHnumTransactions#100) fails exactly when
      the address made fewer than 100 transactions; its one error then names
      both counts. */
  lemma TransactionsProviderDecision(show: real -> string, analysis: ETHAnalysis, address: string)
    ensures EthTransactionsOptions(show).providerType == "ETHnumTransactions#100"
    ensures Decide(EthTransactionsOptions(show), analysis, address).Invalid? <==>
              analysis.numberTransactions < 100.0
    ensures Decide(EthTransactionsOptions(show), analysis, address).Valid? ==>
              Decide(EthTransactionsOptions(show), analysis, address).record == VerifiedRecord(address)
    ensures Decide(EthTransactionsOptions(show), analysis, address).Invalid? ==>
              |Decide(EthTransactionsOptions(show), analysis, address).errors| == 1 &&
              Contains(Decide(EthTransactionsOptions(show), analysis, address).errors[0],
                       show(analysis.numberTransactions)) &&
              Contains(Decide(EthTransactionsOptions(show), analysis, address).errors[0], show(100.0))
  {
    TransactionsMessageMentions(show, 100.0, analysis.numberTransactions);
  }

  /** The worked cases: a score of 80 passes the 50 tier and fails the 90
      tier with a message naming 80 and 90; 0.1 ETH of gas fails the 0.25
      minimum with a message naming 0.1 and 0.25. */
  lemma ScoreAndGasExamples(show: real -> string, address: string)
    ensures Decide(EthEnthusiastOptions(show), ETHAnalysis(80.0, 1.0, 60.0, 150.0), address)
              == Valid(VerifiedRecord(address))
    ensures Decide(EthMaxiOptions(show), ETHAnalysis(80.0, 1.0, 60.0, 150.0), address)
              == Invalid([HumanProbabilityMessage(show, 90.0, 80.0)])
    ensures Contains(HumanProbabilityMessage(show, 90.0, 80.0), show(80.0)) &&
            Contains(HumanProbabilityMessage(show, 90.0, 80.0), show(90.0))
    ensures Decide(EthGasSpentOptions(show), ETHAnalysis(80.0, 0.1, 60.0, 150.0), address)
              == Invalid([GasSpentMessage(show, 0.25, 0.1)])
    ensures Contains(GasSpentMessage(show, 0.25, 0.1), show(0.1)) &&
            Contains(GasSpentMessage(show, 0.25, 0.1), show(0.25))
  {
    HumanProbabilityMessageMentions(show, 90.0, 80.0);
    GasSpentMessageMentions(show, 0.25, 0.1);
  }
}
