# Koinos testnet faucet: payout dispatch

A Dafny model of the payout-dispatch logic of the Koinos testnet faucet
(`faucet.py`): the per-identifier throttle kept in a durable key-value store,
the payout calculator with the custodial balance it draws down, the
`POST /request_koin` handler that chains the two, and the database file-name
clean-up done at start-up.

Layout:

- `pyint.dfy` (module `PyInt`): Python's `int()` of a fraction, which truncates
  toward zero. Dafny's `/` is Euclidean, so the difference is written out.
- `throttle.dfy` (module `Throttle`): `check_identifier` as pure functions.
  `Decide` gives the verdict and `Record` gives the store afterwards. `Replay`
  runs serialised repeats of one identifier. The lemmas show that at most one
  request per window gets through.
- `payout.dfy` (module `Payout`): `min(int(balance * k), koin_payout)` with k a
  rational `kNum / kDen`.
- `dispatch.dfy` (module `Dispatch`): the request body, the three responses
  (400, 406, 202), `Handle` for one request and `Serve` for a sequence. The
  lemmas cover where state may change, balance accounting and "no double payout".
- `faucet_app.dfy` (module `FaucetApp`): the mutable objects. `Blockchain` has
  the `balance` field. `App` has the throttle `db` map and the chain.
  `UpdateTimestamp` and `FetchTimestamp` state the single map write or lookup
  they do. `CheckIdentifier`, `PayAddress` and `RequestKoin` are proved equal
  to the pure functions `Decide`/`Record`, `PayoutAmount` and `Handle`.
- `db_name.dfy` (module `Startup`): stripping `.db` from the database argument.

Time is an explicit parameter `now` in integer microseconds, instead of
`datetime.now()`. The stored timestamp strings have microsecond precision, so
writing a stamp and reading it back is the identity here. The window
`rate_seconds` is a whole number of seconds. A request is throttled when
`now - stamp < rate_seconds * 1000000`, which is the exact form of
`dseconds < rate_seconds`.

Three facts about the code shape the model:

- The wait in a 406 answer is `max(int(rate_seconds - dseconds), 1)`
  (faucet.py:49). It is truncated, not rounded up, so it can be up to a second
  short of the time actually left. `Throttle.AdvertisedWaitCanFallShort` gives
  an instance. `Throttle.RetryAfterPlusOneSuffices` shows that one more second
  is always enough.
- faucet.py has no check on the address format, so any string in `address`
  is paid.
- The only chain client is the in-memory stub `Blockchain` (faucet.py:11-24).

## Model

| member | source | states |
|---|---|---|
| `PyInt.Trunc` | faucet.py:49 | `int()` of n/d rounds toward zero: for n >= 0 the result q has q*d <= n < q*d + d; for n < 0, q*d - d < n <= q*d <= 0 |
| `Throttle.RetryAfter` | faucet.py:48-50 | the wait reported in a denial is at least 1 second. When the clock has not gone back it is at most `rate_seconds`. It is at most the time left, unless clamped to 1, and less than a second short of it |
| `Throttle.Decide` | faucet.py:39-52 | an unseen id is allowed. A stored id is allowed exactly when at least `rate_seconds` have passed since its stamp. A denial carries exactly the wait `RetryAfter` gives for the time elapsed since the stamp: at least 1, and at most `rate_seconds` when the clock has not gone back |
| `Throttle.Record` | faucet.py:41-52 | after the check the id is in the store and no key is added beyond it. Every other key keeps its stamp. An allowed id is stamped with `now`. A denial leaves the whole store unchanged |
| `Throttle.RetryAfterPlusOneSuffices` | faucet.py:45-52 | a denied requester that retries `retryAfter + 1` seconds later is allowed |
| `Throttle.AdvertisedWaitCanFallShort` | faucet.py:49 | at 0.5 s into a 10 s window the wait given is 9, and a retry exactly 9 s later is still denied (truncation, not ceiling) |
| `Throttle.StampInWindowDeniesRest` | faucet.py:45-50 | once the id's stamp lies inside a window, every later request in that window is denied and the store ends as it started |
| `Throttle.AtMostOneAllowedPerWindow` | faucet.py:39-52 | among serialised requests for one id whose clock readings lie in one window, at most one is allowed, whatever the store held before |
| `Throttle.NewIdentifierAllowedOncePerWindow` | faucet.py:41-43 | for a new id, the first request in a window is allowed and every other request in it is denied |
| `Payout.PayoutAmount` | faucet.py:56 | the amount never exceeds `koin_payout`. For a non-negative balance it is the largest amount within the cap that balance*k affords. It is non-negative when the cap is, and at most the balance when k <= 1 |
| `Payout.PayoutIsLargestAffordable` | faucet.py:56 | no amount a <= cap with a <= balance*k exceeds the payout |
| `Payout.StartingPayout` | faucet.py:21-24 | from the stub balance of 10000000000 with k = 0.00001 the payout is 100000, or the cap if that is lower |
| `Payout.SmallBalancePayout` | faucet.py:56 | a balance of 1000000 with k = 0.00001 and cap 100 pays 10 |
| `Dispatch.Status` | faucet.py:72-88 | the status is 400, 406 or 202 exactly for an input error, a throttled request or an accepted one |
| `Dispatch.ParseRequest` | faucet.py:63-70 | a request is extracted exactly when the body is present, is an object and has both `id` and `address` |
| `Dispatch.Handle` | faucet.py:61-89 | 400 exactly for a malformed body. 406 exactly when well-formed and the throttle denies, carrying its wait. 202 exactly when the throttle allows. Only on 202 do the store and balance change: the id is stamped `now`, and the balance drops by the amount paid to the requested address |
| `Dispatch.AcceptedPayoutBounds` | faucet.py:55-59 | for k <= 1 and a non-negative balance, a request leaves the balance non-negative. A payout never exceeds the cap or the balance |
| `Dispatch.RepeatInWindowThrottled` | faucet.py:76-81 | repeating an accepted request within its window gives 406 with a positive wait, and the store and balance do not change |
| `Dispatch.NewIdentifierPaid` | faucet.py:76-89 | a well-formed request for an id not in the store gets 202, and the id is stamped `now` |
| `Dispatch.BalanceAccountsForPayouts` | faucet.py:56-58 | over any sequence of requests the balance falls by exactly the sum of the amounts paid |
| `Dispatch.BalanceNeverNegative` | faucet.py:55-59 | with k <= 1 and a non-negative cap, the balance over any sequence of requests never rises and never drops below zero |
| `Dispatch.ServeFollowsThrottle` | faucet.py:76-89 | for requests all carrying one id, the number paid equals the number the throttle alone allows on the same clock readings |
| `Dispatch.OnePayoutPerWindow` | faucet.py:76-89 | serialised requests for one id within one window are paid at most once |
| `Dispatch.EmptyObjectIsInputError` | faucet.py:66-74 | the body `{}` gives 400 and changes nothing |
| `Startup.DatabaseName` | faucet.py:102-104 | a name ending in ".db" loses exactly that suffix; any other name is unchanged |
| `Startup.StripAppendedSuffix` | faucet.py:102-104 | stripping undoes appending ".db" |
| `Startup.StripsOnce` | faucet.py:94-104 | the default "faucet.db" becomes "faucet"; "faucet.db.db" loses one suffix only |
| `FaucetApp.Blockchain.constructor` | faucet.py:12-16 | a new chain holds the stub balance 10000000000 |
| `FaucetApp.Blockchain.Transfer` | faucet.py:18-19 | a no-op: the chain object, its balance included, is unchanged |
| `FaucetApp.Blockchain.UpdateBalance` | faucet.py:21-24 | the balance is set to the stub value 10000000000 |
| `FaucetApp.App.constructor` | faucet.py:106-108 | the app starts with the loaded configuration, the store's existing contents and a fresh chain at the stub balance |
| `FaucetApp.App.UpdateTimestamp` | faucet.py:31-32 | the id's stamp becomes `now`; every other entry is kept |
| `FaucetApp.App.FetchTimestamp` | faucet.py:34-36 | returns the stored stamp of a stored id |
| `FaucetApp.App.CheckIdentifier` | faucet.py:39-52 | in-place check: returns `Decide` of the old store, and the store becomes `Record` of it |
| `FaucetApp.App.PayAddress` | faucet.py:55-59 | pays `PayoutAmount` of the current balance and lowers `chain.balance` by exactly that amount, which stays non-negative for k <= 1 |
| `FaucetApp.App.RequestKoin` | faucet.py:61-89 | the response, the new store and the new balance are the ones `Handle` gives for the old state |

## Left out

- The bottle HTTP server, routing, headers and JSON encoding (faucet.py:8-9, 61-89) are left out. Responses are modelled by status and payload values only, not the message strings.
- The display amount `amount / 10000000.0` formatted with `{:8f}` (faucet.py:85) is floating-point formatting and is left out.
- Non-string JSON values for `id` or `address` are left out. A non-string `id` fails inside `dbm` with an uncaught error, which is not one of the three modelled answers.
- `dbm.open`, YAML loading and `argparse` in `main` (faucet.py:91-111) are file I/O and library plumbing. Only the file-name clean-up is modelled, and the opened store is a constructor argument.
- The `strftime`/`strptime` timestamp strings (faucet.py:32, 36) are left out. Stamps are integer microseconds.
- The clock is a parameter. `update_timestamp` reads the clock a second time, a moment after the comparison at faucet.py:46. The model stamps with the same `now` it compared.
- Floating-point arithmetic is not modelled. `dseconds` and `rate_seconds - dseconds` are exact here, and `rate_seconds` is a whole number of seconds. `k` is the exact rational `kNum / kDen` rather than the float 0.00001. So `int(balance * k)` is exact, while the source's float product can land one unit lower.
- `Blockchain.k` (faucet.py:14) is set but never read, since `pay_address` uses the configured `k`. It is not a field of the model.
- `check_key` (faucet.py:28-29) always returns True and is never called, so it is left out.
- Concurrent requests are left out, including the check-then-write race between reading and writing a stamp. The model is sequential. The one-payout-per-window lemmas are about serialised requests.
- Signer/RPC and CLI-wallet backends, address validation, nonces, and retrying backend calls are not part of this code, so they are not part of this model.
