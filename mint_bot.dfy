/**
 * The script's top level: the key-count guard, then one mint chain per wallet, each started
 * after a random wait and in the order the keys were configured.
 */
module MintBot {
  import opened MintConfig
  import opened RandomDelay
  import opened KeyConfig
  import opened MintRetry

  /** A wallet, identified by the private key it is derived from. */
  datatype Account = Account(privateKey: string)

  /** One iteration of the driving loop: the wallet, the wait before its chain, and the chain it starts. */
  datatype Launch = Launch(account: Account, delay: int, chain: Chain)

  /** Samples of a uniform sampler on [0, 1), one per wait. */
  predicate ValidSamples(samples: seq<real>) {
    forall i :: 0 <= i < |samples| ==> IsSample(samples[i])
  }

  /** An outcome oracle per wallet, each long enough for a whole fresh chain. */
  predicate ValidOracles(oracles: seq<seq<Outcome>>) {
    forall i :: 0 <= i < |oracles| ==> |oracles[i]| >= AttemptBudget(0)
  }

  /** What the driving loop starts for wallet `i`: a fresh chain at the base gas budget. */
  function LaunchFor(keys: seq<string>, samples: seq<real>, oracles: seq<seq<Outcome>>, i: nat): (l: Launch)
    requires i < |keys| && i < |samples| && i < |oracles|
    requires ValidSamples(samples) && ValidOracles(oracles)
    ensures l.account.privateKey == keys[i]
    ensures MIN_DELAY <= l.delay <= MAX_DELAY
    ensures 1 <= |l.chain.attempts| <= MAX_RETRIES + 1
  {
    Launch(Account(keys[i]), GetRandomDelay(samples[i]), MintNFT(oracles[i], 0, BASE_GAS_AMOUNT))
  }

  /**
   * The driving loop: for every wallet, in order, wait a random delay and then start its chain.
   * Chains are started and not awaited; only the order in which they are started is modelled.
   */
  method MintAllWallets(keys: seq<string>, samples: seq<real>, oracles: seq<seq<Outcome>>) returns (launches: seq<Launch>)
    requires |samples| >= |keys| && |oracles| >= |keys|
    requires ValidSamples(samples) && ValidOracles(oracles)
    ensures |launches| == |keys|
    ensures forall i :: 0 <= i < |keys| ==> launches[i] == LaunchFor(keys, samples, oracles, i)
  {
    var accounts := seq(|keys|, i requires 0 <= i < |keys| => Account(keys[i]));
    launches := [];
    for i := 0 to |accounts|
      invariant |launches| == i
      invariant forall k :: 0 <= k < i ==> launches[k] == LaunchFor(keys, samples, oracles, k)
    {
      var delay := GetRandomDelay(samples[i]);
      var chain := MintNFT(oracles[i], 0, BASE_GAS_AMOUNT);
      launches := launches + [Launch(accounts[i], delay, chain)];
    }
  }

  /** Exit status of a run: 1 on a configuration error, 0 otherwise whatever the mints did. */
  const EXIT_CONFIG_ERROR: int := 1
  const EXIT_OK: int := 0

  /**
   * The whole script: load the keys, stop with status 1 before building any wallet unless exactly
   * REQUIRED_KEY_COUNT are configured, otherwise run the driving loop and end with status 0.
   */
  method RunScript(configured: Option<string>, samples: seq<real>, oracles: seq<seq<Outcome>>)
    returns (exitCode: int, launches: seq<Launch>)
    requires |samples| >= REQUIRED_KEY_COUNT && |oracles| >= REQUIRED_KEY_COUNT
    requires ValidSamples(samples) && ValidOracles(oracles)
    ensures var keys := LoadKeys(configured);
      && (|keys| != REQUIRED_KEY_COUNT ==> exitCode == EXIT_CONFIG_ERROR && launches == [])
      && (|keys| == REQUIRED_KEY_COUNT ==> exitCode == EXIT_OK && |launches| == REQUIRED_KEY_COUNT)
      && (forall i :: 0 <= i < |launches| ==> launches[i] == LaunchFor(keys, samples, oracles, i))
  {
    var keys := LoadKeys(configured);
    match CheckKeyCount(keys)
    case Err(_) =>
      exitCode, launches := EXIT_CONFIG_ERROR, [];
    case Ok(checked) =>
      launches := MintAllWallets(checked, samples, oracles);
      exitCode := EXIT_OK;
  }

  /** The sum of the attempts made over all launched chains. */
  function TotalAttempts(launches: seq<Launch>): nat {
    if launches == [] then 0 else |launches[0].chain.attempts| + TotalAttempts(launches[1..])
  }

  /** The chains the driving loop starts for n wallets make between n and (MAX_RETRIES + 1) * n attempts in all. */
  lemma TotalAttemptsBounded(keys: seq<string>, samples: seq<real>, oracles: seq<seq<Outcome>>, launches: seq<Launch>)
    requires |samples| >= |keys| && |oracles| >= |keys|
    requires ValidSamples(samples) && ValidOracles(oracles)
    requires |launches| == |keys|
    requires forall i :: 0 <= i < |keys| ==> launches[i] == LaunchFor(keys, samples, oracles, i)
    ensures |keys| <= TotalAttempts(launches) <= (MAX_RETRIES + 1) * |keys|
  {
    forall i | 0 <= i < |keys| ensures 1 <= |launches[i].chain.attempts| <= MAX_RETRIES + 1 {
      var l := LaunchFor(keys, samples, oracles, i);
    }
    SumBounded(launches);
  }

  /** A sum of per-chain counts that each lie in 1 .. MAX_RETRIES + 1. */
  lemma {:induction false} SumBounded(launches: seq<Launch>)
    requires forall i :: 0 <= i < |launches| ==> 1 <= |launches[i].chain.attempts| <= MAX_RETRIES + 1
    ensures |launches| <= TotalAttempts(launches) <= (MAX_RETRIES + 1) * |launches|
  {
    if launches != [] {
      SumBounded(launches[1..]);
    }
  }

  /** When every wallet's first attempt is confirmed, the run makes exactly one attempt per wallet. */
  lemma {:induction false} AllFirstTryConfirmed(keys: seq<string>, samples: seq<real>, oracles: seq<seq<Outcome>>, launches: seq<Launch>)
    requires |samples| >= |keys| && |oracles| >= |keys|
    requires ValidSamples(samples) && ValidOracles(oracles)
    requires forall i :: 0 <= i < |keys| ==> oracles[i][0] == Success
    requires |launches| == |keys|
    requires forall i :: 0 <= i < |keys| ==> launches[i] == LaunchFor(keys, samples, oracles, i)
    ensures TotalAttempts(launches) == |keys|
    ensures forall i :: 0 <= i < |keys| ==> launches[i].chain.terminal == Confirmed
    decreases |keys|
  {
    if keys != [] {
      AllFirstTryConfirmed(keys[1..], samples[1..], oracles[1..], launches[1..]);
    }
  }
}
