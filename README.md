# Finalize-contract and quick-bid scripts, modelled in Dafny

This project models the decision logic of two example scripts of the
Hyperliquid Python SDK.

- `examples/finalize_evm_contract.py` links an EVM contract to a HyperCore
  spot token. It picks a storage-slot strategy from three flags and builds
  a `finalizeEvmContract` action. It signs the action with a millisecond
  nonce and builds the payload `{action, nonce, signature, vaultAddress}`.
  It shows a copy of the payload whose signature `r`/`s` are cut to 20
  characters plus `...`. Then it either stops (dry run) or posts the
  payload once. Every path ends in exit status 0 or 1.
- `examples/quick_bid_token.py` bids in the spot-deploy gas auction. It
  polls the auction status. With no live price it waits for the start
  or gives up once the start has passed. With a price it waits while
  `currentGas * 1e12 > MAX_GAS` and leaves the loop once the price is at
  or below the ceiling. It then queries once more, optionally asks for a
  "yes", and calls `spot_deploy_register_token` once.

Files:

- `common.dfy` (module `Common`): `Option` and a JSON value type for response bodies.
- `finalize_evm_contract.dfy` (module `FinalizeEvmContract`): the action
  datatype, slot selection, payload, display copy, response classification,
  exit status, and `Finalize`, the whole of `main`.
- `quick_bid_token.dfy` (module `QuickBidToken`): the pure one-pass
  decision `Step` and the loop as a function `Poll`. `PollUntilReady` is the
  `while True` loop as a method proved equal to `Poll`. Also the answer and
  result interpretation, and `QuickBid`, the whole of `main` after setup.

Foreign calls are parameters of the methods. `Account.from_key`,
`sign_l1_action`, `requests.post` and `spot_deploy_register_token` are
function-typed parameters; `None`, `Raised` or an exception variant
stand for "it raised". `get_timestamp_ms` becomes a `nonce` parameter.
The auction-status endpoint and the clock become a scripted sequence of
observations, one per pass, each pairing a snapshot with the time in
whole seconds. Each run returns a trace of the calls it made (sign
requests, posts, register calls, sleeps) so that "at most once" and
"with these arguments" can be stated.

The model follows the code in these cases:

- Several slot flags set at once are not rejected, although the comment at
  `examples/finalize_evm_contract.py:50` says to set one. The custom slot wins,
  then the deploy nonce, then the first slot. Only "no flag set" fails.
- A snapshot with neither a gas price nor a (truthy) start time waits a
  full interval. It does not end the run as an expired auction.
- A 2xx body whose status is neither `ok` nor `err`, or that is not a
  JSON object, gives exit status 0 and not a failure.

## Model

| member | source | states |
|---|---|---|
| FinalizeEvmContract.BuildAction | examples/finalize_evm_contract.py:94-117 | no action exactly when no flag is set; otherwise type `finalizeEvmContract`, the configured token, and the selected strategy of highest priority (custom, nonce, first), with the deploy nonce in `create` |
| FinalizeEvmContract.CustomSlotWins | examples/finalize_evm_contract.py:95-100 | with the custom flag set the input is `customStorageSlot` whatever the other two flags are |
| FinalizeEvmContract.NonceThenFirstSlot | examples/finalize_evm_contract.py:102-115 | without the custom flag, the nonce flag gives `{"create": {"nonce": DEPLOY_NONCE}}`; otherwise the first-slot flag gives `firstStorageSlot` |
| FinalizeEvmContract.Shortened | examples/finalize_evm_contract.py:152-153 | a string of at most 20 characters is unchanged; a longer one becomes its first 20 characters followed by `...` |
| FinalizeEvmContract.Display | examples/finalize_evm_contract.py:148-155 | the display copy keeps action, nonce, vault address and `v`, and carries `r` and `s` shortened (unchanged when at most 20 characters) |
| FinalizeEvmContract.DisplayCopy | examples/finalize_evm_contract.py:148-155 | copying the payload and overwriting the copy's signature yields exactly `Display` of the payload |
| FinalizeEvmContract.Classify | examples/finalize_evm_contract.py:166-214 | accepted exactly for a dict body with status `ok`, rejected exactly for status `err`, not-a-dict exactly for a non-object body; timeout, HTTP error, other request error and any other exception each map, exactly, to their own failure |
| FinalizeEvmContract.ExitStatus | examples/finalize_evm_contract.py:76-230 | the status is 0 or 1; 0 exactly for a dry run, status `ok`, any other status and a non-dict body; 1 for every other ending, including the uncaught no-slot exception |
| FinalizeEvmContract.ExitStatusOfSend | examples/finalize_evm_contract.py:176-216 | after a send the exit status is 1 exactly for an exception or status `err`; `ok`, any other status and a non-dict body give 0 |
| FinalizeEvmContract.Finalize | examples/finalize_evm_contract.py:70-216 | a placeholder key stops with status 1 before signing; an unloadable key or no slot stops before signing; at most one signature and one post; the signer gets the built action, the nonce, no pool or expiry and the network flag; the posted payload is that action, the same nonce, the returned signature and no vault, sent to the mainnet or testnet base URL (as the network flag says) plus `/exchange` with a 30 s timeout; the display copy is `Display` of that same payload; dry run posts nothing and gives 0; a live run's outcome is the classification of the post's result; every stop before a send except dry run gives 1 |
| QuickBidToken.Step | examples/quick_bid_token.py:52-88 | every sleep lasts 1 to 5 seconds; a sleep before the auction starts never runs past the start; ready exactly when a gas price is present and `gas * 1e12 <= MAX_GAS`; completed only without a gas price |
| QuickBidToken.WaitsUntilStart | examples/quick_bid_token.py:52-61 | no gas and a future start: sleep `min(5, start - now)` and poll again |
| QuickBidToken.CompletedOnceStarted | examples/quick_bid_token.py:52-64 | the pass ends the run as completed exactly when there is no gas and a truthy start time at or before now |
| QuickBidToken.WaitsWithoutStartTime | examples/quick_bid_token.py:52-68 | no gas and an absent or zero start time: sleep exactly 5 seconds and poll again |
| QuickBidToken.WaitsWhilePriceTooHigh | examples/quick_bid_token.py:80-84 | a gas price with `gas * 1e12 > MAX_GAS` sleeps exactly 5 seconds and polls again |
| QuickBidToken.ReadyAtCeiling | examples/quick_bid_token.py:80-88 | a price exactly at `MAX_GAS / 1e12` is accepted: the gate is inclusive |
| QuickBidToken.ReadyBelowAcceptedPrice | examples/quick_bid_token.py:80-88 | once a price is accepted, every lower price is accepted |
| QuickBidToken.Poll | examples/quick_bid_token.py:47-88 | the loop never fetches more snapshots than the feed has, records one sleep per pass that did not stop it, and stops on a pass of its own unless the feed runs out |
| QuickBidToken.PollReadyIffFirstReady | examples/quick_bid_token.py:47-88 | the loop leaves ready after pass k exactly when pass k is ready and every earlier pass slept: at the first ready snapshot and never earlier |
| QuickBidToken.PollWaitsFollowSteps | examples/quick_bid_token.py:47-84 | the j-th sleep is the one pass j decided from the snapshot it fetched, and lasts 1 to 5 seconds |
| QuickBidToken.PollIgnoresLaterSnapshots | examples/quick_bid_token.py:47-50 | once the loop has stopped, snapshots the feed would serve later change nothing it did |
| QuickBidToken.PollUntilReady | examples/quick_bid_token.py:47-88 | the loop method equals `Poll`; a ready exit is at the first ready pass; a completed exit is at a completed pass; every sleep it records is its pass's decision |
| QuickBidToken.Lower | examples/quick_bid_token.py:111 | folding keeps the length and folds each character on its own |
| QuickBidToken.LowerCharTo | examples/quick_bid_token.py:111 | a character folds to a lower-case ASCII letter exactly when it is that letter or its upper-case form |
| QuickBidToken.ConfirmedIff | examples/quick_bid_token.py:110-113 | the prompt confirms exactly for a three-letter answer spelling `yes` in any mix of cases |
| QuickBidToken.InterpretResult | examples/quick_bid_token.py:129-137 | registered only for status `ok`, with the token index taken from `response.data`; a well-formed `ok` result always registers; bid failed exactly for a result object whose status is not `ok`; a missing key is a crash |
| QuickBidToken.QuickBid | examples/quick_bid_token.py:43-137 | the loop is `Poll`; the re-query is the next snapshot and happens only after a ready exit; `spot_deploy_register_token` is called at most once, only with the configured name, decimals, max gas and full name, and exactly when the loop left ready, the re-query has a price, and auto-bid is on or the answer is `yes`; a completed auction makes no call; a re-query without a price ends in the `float(None)` crash; the feed running out is the only way to end as `FeedEnded`; the outcome is the interpretation of the call's result |

## Left out

- HTTP, response decoding, `example_utils.setup` and the auction-status query are inputs: a send outcome, a register outcome and a scripted feed of snapshots.
- `sign_l1_action`, `Account.from_key` and `get_timestamp_ms` are uninterpreted parameters: the signature is opaque and the nonce is a number. No encoding or cryptography is modelled.
- Environment loading, the module-level constants, the API URL constants (the constants module is not part of this model; the mainnet and testnet base URLs are configuration fields, chosen between by the network flag) and all printing, `json.dumps` and `traceback` output.
- `time.sleep` and `datetime` are not called. Sleeps are recorded in the trace, and time is whole seconds instead of fractional datetimes.
- Floating point: gas is an exact real number and `MAX_GAS` an integer, so `float` rounding at the `* 1e12` comparison is not modelled. A non-numeric `currentGas` that `float()` would reject is not modelled either.
- `startGas` is only printed. A `null` start gas, which would make `float()` raise, is not modelled.
- The 3-second auto-bid pause and Ctrl+C cancellation are left out. The prompt is a string parameter read only when auto-bid is off.
- QuickBidToken.Lower: folds only ASCII letters, unlike Python's `str.lower`. The prompt compares the folded answer with `yes`, so only letters that fold to `y`, `e` or `s` matter.
- QuickBidToken.PollUntilReady: the script polls forever when the price never drops. The scripted feed is finite, so the model adds a `ScriptEnded` exit for a feed that runs out; it stands for "still polling".
- Exceptions raised by `datetime.fromtimestamp` on out-of-range start times are not modelled.
- "The original payload is not modified": payloads are values, so the display copy cannot change the original. Aliasing of the Python dict copy is not modelled.
