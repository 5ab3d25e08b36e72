# ETH account-analysis stamp providers

A Dafny model of the Ethereum account-analysis providers of the Passport
platforms package. Each provider certifies one fact about an address: it
obtains the address's analysis (human probability, gas spent, days active,
transaction count) from a data-science model service, reads one of those four
values and compares it with a minimum. The analysis is fetched until one fetch
succeeds, then cached in the verification context, so that several providers
checked in the same request share one successful call to the service.

Everything is in `account_analysis.dfy`, module `EthProviders`:

- `ETHAnalysisContext` is the per-request context, a class with the mutable
  field `ethAnalysis: Option<ETHAnalysis>`.
- `ModelService` stands for the external service. Its `endpoint` is the
  configured host (the `DATA_SCIENCE_API_URL` environment value, passed in
  explicitly). Its `reply` function is what the service answers to the n-th
  POST it receives, at a URL for an address, and `None` stands for a failed
  POST (connection error or error status). A failed call can therefore be followed by a successful one. Its
  log `requests` records every POST, so its length counts the fetches.
- `GetETHAnalysis` is the cache-or-fetch lookup. It is proved to return a
  cached record unchanged and make no fetch, to make exactly one fetch of
  `eth-stamp-v2-predict` on an empty context, and to store the mapped record.
  When the fetch fails it leaves the context empty. The cache is not keyed
  by address: a context holding a record returns it for any address.
- `AccountAnalysis` is the provider class: four configuration fields copied by
  its constructor, and `Verify`. The decision itself is the function `Decide`.
- The six provider subclasses are six configuration functions
  (`EthEnthusiastOptions`, `EthAdvocateOptions`, `EthMaxiOptions`,
  `EthDaysActiveOptions`, `EthGasSpentOptions`, `EthTransactionsOptions`).
  Each has the source's type id, minimum, field and message text.
- A JavaScript template literal turns a number into text. The model takes
  that conversion as a parameter `show: real -> string`. Each message is the
  source text with `show(actual)` and `show(minimum)` in place, and lemmas
  prove that a failure message names both numbers.

## Model

| member | source | states |
|---|---|---|
| `EthProviders.ToAnalysis` | platforms/src/ETH/Providers/accountAnalysis.ts:33-38 | each key of the cached record reads the same-named wire field: humanProbability from human_probability, gasSpent from gas_spent, numberDaysActive from n_days_active, numberTransactions from n_transactions |
| `EthProviders.Url` | platforms/src/ETH/Providers/accountAnalysis.ts:45 | the request URL is `http://`, then the configured host, then `/`, then the model sub-path, with nothing else in it |
| `EthProviders.ModelService.FetchModelData` | platforms/src/ETH/Providers/accountAnalysis.ts:43-52 | one POST of the address to the sub-path's URL is logged; the service's answer to that call is returned, or on failure a `ModelUnavailable` error carrying "model data (<sub-path>)" and the host |
| `EthProviders.GetETHAnalysis` | platforms/src/ETH/Providers/accountAnalysis.ts:29-41 | a cached analysis is returned unchanged with no fetch; an empty context makes exactly one fetch of `eth-stamp-v2-predict` for the address, and on success stores and returns the mapped record; on failure the error propagates and the context stays empty |
| `EthProviders.GetETHAnalysisTwice` | platforms/src/ETH/Providers/accountAnalysis.ts:29-41 | two lookups on one context: after a successful first lookup the second returns the same record and the pair makes at most one fetch; a failed first lookup leaves the cache empty, so the second fetches again and succeeds exactly when the service answers that second POST |
| `EthProviders.GetETHAnalysisForTwoAddresses` | platforms/src/ETH/Providers/accountAnalysis.ts:30-40 | the cache ignores the address: after a successful lookup for one address, a lookup for another address on the same context returns the same record, and only the first address was ever sent to the service |
| `EthProviders.Decide` | platforms/src/ETH/Providers/accountAnalysis.ts:78-92 | invalid exactly when the selected field is strictly below the minimum (equal passes); invalid carries exactly one error, formatter(minimum, value); valid carries exactly the record `{address}` |
| `EthProviders.ThresholdMonotone` | platforms/src/ETH/Providers/accountAnalysis.ts:80 | on the same field and analysis, whatever passes a higher minimum passes a lower one |
| `EthProviders.AccountAnalysis.constructor` | platforms/src/ETH/Providers/accountAnalysis.ts:68-73 | type, minimum, dataKey and formatter are copied unchanged from the options |
| `EthProviders.AccountAnalysis.Verify` | platforms/src/ETH/Providers/accountAnalysis.ts:75-93 | looks the address up through the context (cache or one fetch, as GetETHAnalysis), propagates a fetch failure as an error, and otherwise returns Decide of the provider's options on the analysis now in the context |
| `EthProviders.HumanProbabilityTiers` | platforms/src/ETH/Providers/accountAnalysis.ts:96-132 | the three human-probability tiers use one field with minimums 90, 75 and 50, so on the same analysis passing 90 implies passing 75, which implies passing 50 |
| `EthProviders.VerifyHumanProbabilityTiers` | platforms/src/ETH/Providers/accountAnalysis.ts:107-132 | verifying the 90, 75 and 50 tiers in turn on one context fetches at most once after a successful first check, and a pass at a higher tier implies a pass at each lower tier |
| `EthProviders.HumanProbabilityMessageMentions` | platforms/src/ETH/Providers/accountAnalysis.ts:101-102 | the human-probability failure message contains the text of the actual score and of the minimum |
| `EthProviders.DaysActiveMessageMentions` | platforms/src/ETH/Providers/accountAnalysis.ts:140-141 | the days-active failure message contains the text of the actual count and of the minimum |
| `EthProviders.GasSpentMessageMentions` | platforms/src/ETH/Providers/accountAnalysis.ts:152-153 | the gas-spent failure message contains the text of the actual amount and of the minimum |
| `EthProviders.TransactionsMessageMentions` | platforms/src/ETH/Providers/accountAnalysis.ts:164-165 | the transactions failure message contains the text of the actual count and of the minimum |
| `EthProviders.HumanProbabilityProviderDecision` | platforms/src/ETH/Providers/accountAnalysis.ts:96-105 | a provider of the human-probability family, whatever its type and minimum, fails exactly when the score is below its minimum, with one error naming both numbers, and otherwise certifies the address |
| `EthProviders.HumanProbabilityTierOptions` | platforms/src/ETH/Providers/accountAnalysis.ts:107-132 | the three tiers have type ids ETHScore#50, ETHScore#75 and ETHScore#90 and fail exactly below 50, 75 and 90, each failure naming the score and its tier's minimum |
| `EthProviders.DaysActiveProviderDecision` | platforms/src/ETH/Providers/accountAnalysis.ts:134-144 | the ETHDaysActive#50 provider fails exactly when the days active are below 50, with one error naming both numbers, and otherwise certifies the address |
| `EthProviders.GasSpentProviderDecision` | platforms/src/ETH/Providers/accountAnalysis.ts:146-156 | the ETHGasSpent#0.25 provider fails exactly when the gas spent is below 0.25, with one error naming both amounts, and otherwise certifies the address |
| `EthProviders.TransactionsProviderDecision` | platforms/src/ETH/Providers/accountAnalysis.ts:158-168 | the ETHnumTransactions#100 provider fails exactly when the transaction count is below 100, with one error naming both counts, and otherwise certifies the address |
| `EthProviders.ScoreAndGasExamples` | platforms/src/ETH/Providers/accountAnalysis.ts:107-156 | a score of 80 passes the 50 tier and fails the 90 tier with a message naming 80 and 90; 0.1 ETH of gas fails the 0.25 minimum with a message naming 0.1 and 0.25 |

## Left out

- The HTTP transport (axios POST) is not modelled. The service is the `reply` function, and `None` stands for a POST that fails (connection error or error status).
- `EthProviders.ModelService.FetchModelData`: a successful answer whose body has no usable `data` object (a `null` or `{}` body) cannot be represented by `ModelResponse`. In the source that answer is returned as is, and the lookup then fails with a TypeError at accountAnalysis.ts:31 (destructuring) or :34 (reading a field of `undefined`). That error never passes through the error helper, so it names neither the model data nor the host; it propagates and the context stays empty.
- The error translation in `handleProviderAxiosError` is not part of this model. A failed fetch becomes `ModelUnavailable`, carrying the "model data (<sub-path>)" description and the host that the source passes to it (the host as a one-element list), and it always propagates. Whether the real error text shows or hides the host is decided inside that helper and cannot be told from the code modelled here; the model keeps the host in the error so that a failure says where the fetch went. If that helper returned without throwing, the source would fail anyway when it destructures the missing response; the model treats both as the same propagated error.
- The environment lookup of the host is not modelled: the host is the service's `endpoint` parameter. An unset variable (the text "undefined" in the URL) is not modelled either.
- Turning a number into text inside the failure messages is JavaScript float formatting. It is the parameter `show`, and only its place in each message is modelled.
- Values are `real`. IEEE-754 behaviour is not modelled: NaN, or an `undefined` field in a malformed answer, makes `value < minimum` false in the source, so such a value passes.
- A `null` or `undefined` context is not modelled. The context is always an object; in the source a missing context would fetch and then fail on the assignment.
- Asynchronous interleaving is not modelled. Calls are sequential, so concurrent `verify` calls that each see an empty cache and each fetch are not captured.
- `EthProviders.GetETHAnalysisTwice`: "at most one fetch in total" is stated only when the first lookup succeeds. After a failed first lookup the source fetches again.
- `platforms/src/Ens/App-Bindings.ts` is a stub with no logic: `getProviderPayload` returns an empty object, `getOAuthUrl` always throws, and the rest are constant fields. It is not modelled.
