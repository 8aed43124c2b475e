# Personal price-index service, modelled in Dafny

The service computes a personal consumer price index (CPI) for one request.
A trigger endpoint checks the inbound request and hands the request's `pk` to
a single background worker. The worker fetches the request's spending
categories and computes a spend-weighted sum of relative price changes. A
completion callback then PUTs `{personalCPI, success}` back to the main server.

The model covers the decision and arithmetic logic of `app/views.py`:

- `Cpi` (cpi.dfy): the index calculation as specification functions over
  `seq<Category>`, whose amounts are `Option<real>` and where an absent or null
  amount counts as 0. It holds the rounding helper and the lemmas about the
  calculation.
- `Task` (task.dfy): the task body. The HTTP response is an input value. A
  transport error, a status other than 200, or a body that does not decode to
  an object all give the failure outcome. So does a `categories` value that is
  not a list, or a list with an element that is not an object. Otherwise
  `CalculatePersonalCpi` calls `Accumulate`, the source's accumulation loop,
  whose invariants tie the loop to `CpiSum` and `AnyQualifies`.
- `Callback` (callback.dfy): which payload, if any, the completion callback
  sends, and how that combines with the task body.
- `Trigger` (trigger.dfy): the validation branches of `process_request`. They
  produce a status code and the id that is submitted, if any.
- `Wrappers` and `Json` give `Option` and the JSON values that are passed
  through unchanged (`pk`, `token`).

Arithmetic is on `real`. Python's `round(x, 2)` is modelled as exact rounding
to the nearest value with two decimals, with ties going to the even last digit
(`Round2`, built on `RoundHalfEven`).

Everything `calculate_personal_cpi` does after the delay runs inside the `try`
that starts at app/views.py:36. Any `Exception` raised there, during the fetch
or during the calculation, is caught at lines 121-128, and the failure outcome
is returned at line 131. `result_callback` then reports that outcome like any
other, so `RunTask` sends exactly one payload for every fetch result.

## Model

| member | source | states |
|---|---|---|
| Cpi.RoundHalfEven | app/views.py:105 | the result is an integer within 1/2 of x, and an exact tie goes to the even integer |
| Cpi.RoundHalfEvenUnique | app/views.py:105 | those two properties determine the rounded integer uniquely |
| Cpi.Round2 | app/views.py:105 | the result has at most two decimals, lies within 0.005 of the input, and a midpoint goes to an even last digit |
| Cpi.Evaluate | app/views.py:56-112 | the outcome carries the request id, and success holds exactly when personalCPI is present; an empty category list fails, and so does a zero total spend; success holds exactly when the total is non-zero and some category has basePrice > 0 and userSpent > 0 (both directions); on success personalCPI = round(100 · Σ qualifying userSpent·change / total, 2) |
| Cpi.AnyQualifiesIff | app/views.py:83-96 | the loop's has_valid_categories flag ends up set exactly when some category has both amounts positive (both directions) |
| Cpi.CpiSumIsRawOverTotal | app/views.py:82-92 | the accumulated Σ (userSpent/total)·((userSpent−basePrice)/basePrice) equals the sum of userSpent·change over qualifying categories divided by the total of ALL spend |
| Cpi.SkippedSpendDilutes | app/views.py:65-93 | appending a non-qualifying category leaves the numerator unchanged but adds its spend to the total, so the skipped weight is not redistributed |
| Cpi.UnchangedCategoryAddsNothing | app/views.py:89-92 | inserting a category with userSpent == basePrice anywhere in any category list leaves the accumulated sum unchanged |
| Cpi.UnchangedCategoryAddsNoRaw | app/views.py:89-92 | inserting a category with userSpent == basePrice anywhere in any category list leaves the raw sum of userSpent·change unchanged |
| Cpi.UnchangedPricesAddNothing | app/views.py:89-92 | when every qualifying category has userSpent == basePrice, the raw sum is 0 |
| Cpi.UnchangedPricesGiveZero | app/views.py:82-111 | when no qualifying category's price changed, a successful outcome has personalCPI exactly 0 |
| Cpi.QualifyingSpendBounded | app/views.py:65-90 | with non-negative spends, the spend of qualifying categories is between 0 and the total, and strictly below it once a category with spend is skipped |
| Cpi.WeightSumIsShare | app/views.py:89-90 | the weights userSpent/total that the loop computes for qualifying categories sum to the qualifying spend divided by the total |
| Cpi.QualifyingWeightAtMostOne | app/views.py:65-90 | with non-negative spends and a positive total, those weights sum to at most 1, and to less than 1 once a category with spend is skipped |
| Cpi.SingleCategoryExample | app/views.py:65-111 | one category with userSpent 150 and basePrice 100 gives personalCPI 50 and success |
| Cpi.TwoCategoryExample | app/views.py:65-111 | categories 50/50 and 50/25 give weight 0.5 each with changes 0 and 1, so personalCPI is 50 |
| Task.Records | app/views.py:65 | the record list exists exactly when every element of `categories` is an object, and then it holds those objects' fields in order |
| Task.FetchOutcome | app/views.py:36-135 | every fetch result yields an outcome with the request id and success exactly when personalCPI is present; a transport error, a non-200 status, or a body that does not decode to an object gives the failure outcome, and so does a `categories` value that is not a list or is absent; a usable response whose `categories` yields a category list gives exactly `Evaluate` of that list |
| Task.FetchOutcomeNeedsRecords | app/views.py:54-65 | a `categories` list with an element that is not an object gives the failure outcome, and a success needs a 200 response whose `categories` is a list of objects |
| Task.Accumulate | app/views.py:82-93 | the loop's personal_cpi ends equal to the weighted sum CpiSum over all categories, and has_valid_categories ends true exactly when AnyQualifies holds |
| Task.CalculatePersonalCpi | app/views.py:49-135 | the early exits and the accumulation loop return exactly FetchOutcome of the fetch result |
| Callback.ResultCallback | app/views.py:138-164 | a cancelled or raising task, or a returned result without `id`, sends nothing; otherwise exactly one payload goes to the result's id, carrying its personalCPI, with success true only when the result's success is present and true |
| Callback.AsResult | app/views.py:108-112 | the dictionary a task returns is read back by the callback as a payload equal to the outcome's id, personalCPI and success |
| Callback.RunTask | app/views.py:138-171 | a task that is not cancelled sends exactly one payload, addressed to its own id, carrying the computed outcome's personalCPI and success, with success exactly when personalCPI is present; a failed fetch sends {personalCPI: null, success: false} |
| Trigger.ProcessRequest | app/views.py:185-251 | OPTIONS gives 200 with no submission; POST with a falsy body (an empty object, `[]`, `""`, `0`, `false` or `null`), or an object without pk or token, gives 400; POST with a truthy body that is not an object gives 500, because its `keys` lookup raises into the generic handler; POST with both fields and a token other than the shared secret gives 401; a submission happens exactly when the method is POST, both fields are present and the token matches, and then the status is 200 and the submitted id is pk; no non-200 reply submits anything |

## Left out

- The 30-second `time.sleep` (app/views.py:32-33) is left out because it has no observable effect on the result.
- The GET and PUT calls, their URLs, headers and timeouts are network I/O. The GET's result is the input `FetchResult`, and the PUT is the output `Payload`.
- The HTTP status of the PUT and any error it raises are left out. The callback only logs them, so they change nothing.
- `ThreadPoolExecutor(max_workers=1)`, `submit` and `add_done_callback` are concurrency, and their FIFO single-worker queue lives in the Python standard library. The model covers one task at a time, `RunTask`, and does not model queue order or mutual exclusion.
- Floating-point arithmetic is modelled with exact reals. Python's `round` works on the binary value of a float, so results where binary rounding matters are not modelled.
- Round2: models round-half-even on the exact real value. It does not model Python's rounding of the nearest binary double, so it differs from the source on inputs near a midpoint.
- `comparisonDate` is only read and logged, so it is not part of `RequestData`.
- Non-numeric amounts are left out: amounts are `Option<real>`. A non-empty string `userSpent` makes `sum` raise, and a boolean counts as 0 or 1 in Python. A body whose decoding raises, or that is not a JSON object, is the `Malformed` case, and the code reports failure for it. A `categories` value that is not a list, or a list element that is not an object, is modelled and also gives failure.
- Logging (`print`, `traceback`), JSON decoding, DRF `Response` objects and CORS headers are framework and I/O. Only the status code and the submitted id are modelled.
- Methods other than POST and OPTIONS are left out, because the framework rejects them before `process_request` runs.
- The generic `except Exception` path of `process_request` (status 500, app/views.py:244-251) is modelled only for a body that is a non-empty list or string, a non-zero number, or `true`, on which `request.data.keys()` at app/views.py:213 raises. Its other causes are left out: a body that cannot be parsed (reading `request.data` at line 201 raises) and a failing `submit`, which are framework and concurrency errors.
- The shared secret is the constant `Trigger.AuthToken`, as in the code.
- A `BaseException` that is not an `Exception` (such as `KeyboardInterrupt`) escapes the `try` at app/views.py:36. It would end the task as raised, and such an ending sends nothing. `RunTask` covers only returned tasks.
- `Json.Value` keeps lists and objects as one value, `Structured`. So two different list or object `pk` values are not told apart in `Payload.target`.
- `Callback.ResultDict` cannot hold a `success` key whose value is null, which `result.get('success', False)` would pass on as null. The task never returns such a dictionary.
