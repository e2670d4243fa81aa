# NFT mint bot: retry-escalation model

A Dafny model of the orchestration core of `mintBot2.js`, a script that mints an NFT from
ten configured wallets. The script

- reads a comma-separated list of private keys from its configuration and stops with
  status 1 unless there are exactly ten (`KeyConfig`);
- for each wallet, in configuration order, waits a random 500–3000 ms and then starts that
  wallet's mint chain without awaiting it (`MintBot`, `RandomDelay`);
- in each chain, makes an attempt with the current gas budget (base 1000). A success ends the
  chain. A failure either retries with 1.2 times the gas, at most three times, or ends the
  chain permanently (`MintRetry`).

Each attempt's network round trip (build, sign, submit, wait for confirmation) is an outcome
read from an oracle sequence: `Success` or `Fail`. The retry routine is a recursive function
over that oracle, just as the source recurses. The driving loop of `main` is the method `MintAllWallets`, with a `for` loop,
proved against `LaunchFor`, the function that says what the loop starts for each wallet. Gas is
an exact `real`, so ×1.2 is exactly ×6/5. A `Math.random()` draw is a `real` sample in [0, 1).

Files: `config.dfy` (constants, `Option`, `Result`), `delay.dfy`, `keys.dfy`,
`mint_retry.dfy`, `mint_bot.dfy`.

## Model

| member | source | states |
|---|---|---|
| `RandomDelay.GetRandomDelay` | mintBot2.js:29-31 | for any sample in [0, 1), the delay lies between MIN_DELAY (500) and MAX_DELAY (3000) inclusive |
| `RandomDelay.DelayReachable` | mintBot2.js:17-31 | every delay from 500 to 3000 is produced by some sample in [0, 1) |
| `KeyConfig.Split` | mintBot2.js:21 | splitting at commas gives one piece more than there are commas, and no piece holds a comma |
| `KeyConfig.JoinSplit` | mintBot2.js:21 | splitting loses nothing: re-joining the pieces with commas gives back the configured string |
| `KeyConfig.SplitJoin` | mintBot2.js:21 | splitting a comma-join of comma-free keys gives back exactly those keys, in order |
| `KeyConfig.LoadKeys` | mintBot2.js:21 | an unset value gives no keys; a set value gives its comma count plus one keys, which re-join to the value |
| `KeyConfig.CheckKeyCount` | mintBot2.js:23-26 | the guard passes, with the keys unchanged, exactly when there are 10 keys; otherwise it returns an error carrying the count found |
| `KeyConfig.GuardPassesIffNineSeparators` | mintBot2.js:21-26 | the guard passes exactly when the value is set and holds nine commas; an unset value always fails it |
| `MintRetry.AttemptBudget` | mintBot2.js:54-61 | a chain may make between 1 and MAX_RETRIES + 1 attempts, and a fresh chain (retryCount 0) may make exactly 4 |
| `MintRetry.MintNFT` | mintBot2.js:34-63 | a call makes at least one attempt and no more than its budget allows; the attempts are numbered retryCount + 1, retryCount + 2, … |
| `MintRetry.ChainShape` | mintBot2.js:35-61 | every attempt but the last failed; the chain is confirmed exactly when the last attempt succeeded; a permanent failure uses the whole budget and reports retryCount plus the attempts made |
| `MintRetry.StopsAtFirstSuccess` | mintBot2.js:35-50 | if attempt k (0-based) is the first success within the budget, exactly k + 1 attempts are made and the chain is confirmed |
| `MintRetry.ConfirmedIffSuccessWithinBudget` | mintBot2.js:49-61 | a chain is confirmed if and only if some outcome within its attempt budget is a success |
| `MintRetry.Exhaustion` | mintBot2.js:54-61 | if every outcome within the budget fails, the chain makes its whole budget of attempts and ends in a permanent failure |
| `MintRetry.PermanentFailureReportsAttemptsMade` | mintBot2.js:59-61 | a fresh chain that fails permanently reports the attempts it actually made, which is 4 |
| `MintRetry.AsWrittenReportUndercounts` | mintBot2.js:60 | every fresh chain that fails permanently made more attempts (4) than the message as written reports (MAX_RETRIES, 3) |
| `MintRetry.GasEscalation` | mintBot2.js:34-58 | the i-th attempt of a chain uses the starting gas escalated ×1.2 i times |
| `MintRetry.GasStep` | mintBot2.js:55-58 | each retry's gas budget is its predecessor's times 1.2 |
| `MintRetry.EscalatedIncreasing` | mintBot2.js:55 | from a positive budget, repeated ×1.2 escalation strictly increases and never falls below the start |
| `MintRetry.GasMonotonic` | mintBot2.js:34-58 | within one chain started at a positive budget, gas strictly increases from attempt to attempt and never falls below the start |
| `MintRetry.AttemptLabels` | mintBot2.js:52 | in a fresh chain the attempt number logged on failure is retryCount + 1, so the numbers run 1, 2, … and never exceed 4 |
| `MintRetry.FullFailureTrace` | mintBot2.js:16-61 | a fresh chain at the base budget that always fails makes attempts 1–4 with gas 1000, 1200, 1440, 1728 and ends in one permanent failure |
| `MintRetry.FirstTrySuccess` | mintBot2.js:34-50 | a fresh chain whose first attempt succeeds makes one attempt, at gas 1000, and is confirmed |
| `MintBot.LaunchFor` | mintBot2.js:69-73 | wallet i is launched with its own key, a delay in [500, 3000] and a chain of 1 to 4 attempts |
| `MintBot.MintAllWallets` | mintBot2.js:66-75 | the loop launches exactly one chain per key, in key order, each a fresh chain at the base gas after its own random delay |
| `MintBot.RunScript` | mintBot2.js:21-77 | a key count other than 10 (including an unset value) exits with status 1 before any wallet or attempt; with 10 keys, 10 chains are launched in key order and the exit status is 0, whatever the mints did |
| `MintBot.TotalAttemptsBounded` | mintBot2.js:71-74 | the chains the loop starts for n wallets make between n and 4n attempts in all |
| `MintBot.AllFirstTryConfirmed` | mintBot2.js:71-74 | when every wallet's first attempt succeeds, every chain is confirmed and the run makes exactly one attempt per wallet |

## Findings

| source | as written | input that shows it | evidently intended | confidence | as-written member | corrected member |
|---|---|---|---|---|---|---|
| mintBot2.js:60 | the permanent-failure message prints MAX_RETRIES (3) as the number of attempts | a wallet whose four attempts all fail: 4 attempts are made, but the message says 3 | report the attempts actually made, retryCount + 1 (4) | medium, not executed | `MintRetry.AsWrittenReportUndercounts` | `MintRetry.PermanentFailureReportsAttemptsMade` |

The model's `PermanentlyFailed` state carries the corrected count, from `AttemptsMadeReport`.
`AsWrittenAttemptsReport` gives the count the message prints.

## Notes on the script

- A malformed key does not end the script with status 1: the accounts are built inside `main`
  (mintBot2.js:69), so the error is caught by `main().catch` (line 77) and logged. Key parsing
  is left out of the model.
- The permanent-failure message prints MAX_RETRIES, not the attempts made (see Findings).

## Left out

- Chain-client calls: `generateTransaction`, `signTransaction`, `submitTransaction` and `waitForTransaction` (lines 42-49) are foreign network calls. Each attempt's round trip is one oracle outcome, and the payload and its constants (node URL, contract address, function name, NFT amount) are not modelled.
- Key parsing: `AptosAccount` and `HexString` (line 69) belong to an outside library. `Account` is identified by its key string, and malformed keys are not modelled.
- Environment loading: `dotenv` (lines 2, 5) is I/O. The configured value is an `Option<string>` input.
- Console output is I/O and is not modelled. The attempt numbers it logs and the terminal states are recorded instead. `process.exit` becomes the returned exit status.
- Floating point: `Math.random()` is a real sample in [0, 1), and `Math.floor` is exact. The ×1.2 is exact real multiplication. Nothing is claimed about float rounding or about `gasAmount.toString()`.
- Retry waits: the random delay before a retry (line 57) only delays the next attempt. It changes no attempt, gas value or terminal state, so it is not drawn in the model.
- Timers and concurrency: `setTimeout` waits and the un-awaited `mintNFT(account)` (line 73) let chains overlap in time. Only the order in which chains are started is modelled, not interleaving or completion order.
- MintRetry.MintNFT: requires an oracle outcome for every attempt the chain could still make (`AttemptBudget(retryCount)` of them). The oracle is a modelling device, not a restriction the source places on callers.
- `main().catch(console.error)` (line 77): nothing in the modelled loop can throw.
