/**
 * One wallet's mint chain: an attempt with the current gas budget, and on failure either a
 * retry with 20% more gas or a permanent failure. The network round trip of each attempt
 * (build, sign, submit, wait for confirmation) is abstracted into an outcome oracle.
 */
module MintRetry {
  import opened MintConfig

  /** What an attempt's round trip ends in: confirmed, or any error at any step. */
  datatype Outcome = Success | Fail

  /** One submitted attempt: its 1-based number, as logged on failure, and its gas budget. */
  datatype Attempt = Attempt(number: nat, gas: real)

  /** How a chain ends; a permanent failure reports how many attempts it made. */
  datatype Terminal = Confirmed | PermanentlyFailed(reportedAttempts: nat)

  /** Everything one chain does: its attempts in order, then its terminal state. */
  datatype Chain = Chain(attempts: seq<Attempt>, terminal: Terminal)

  /** How many attempts a chain entered with `retryCount` earlier failures may still make. */
  function AttemptBudget(retryCount: nat): (n: nat)
    ensures 1 <= n <= MAX_RETRIES + 1
    ensures retryCount == 0 ==> n == MAX_RETRIES + 1
  {
    if retryCount < MAX_RETRIES then MAX_RETRIES - retryCount + 1 else 1
  }

  /** The gas budget after `steps` escalations of `gas`. */
  function Escalated(gas: real, steps: nat): real {
    if steps == 0 then gas else Escalated(gas, steps - 1) * GAS_ESCALATION
  }

  /** The attempt count a permanent-failure report gives: the number of the last attempt. */
  function AttemptsMadeReport(retryCount: nat): nat {
    retryCount + 1
  }

  /** The count the script's permanent-failure message prints (mintBot2.js:60): always MAX_RETRIES, whatever was attempted. */
  function AsWrittenAttemptsReport(): nat {
    MAX_RETRIES
  }

  /**
   * One call of the minting routine with `retryCount` earlier failures and budget `gas`;
   * `outcomes[k]` is the outcome of the k-th attempt from this call on.
   */
  function MintNFT(outcomes: seq<Outcome>, retryCount: nat, gas: real): (c: Chain)
    requires |outcomes| >= AttemptBudget(retryCount)
    ensures 1 <= |c.attempts| <= AttemptBudget(retryCount)
    ensures forall i :: 0 <= i < |c.attempts| ==> c.attempts[i].number == retryCount + 1 + i
    decreases |outcomes|
  {
    var here := Attempt(retryCount + 1, gas);
    if outcomes[0] == Success then
      Chain([here], Confirmed)
    else if retryCount < MAX_RETRIES then
      var rest := MintNFT(outcomes[1..], retryCount + 1, gas * GAS_ESCALATION);
      Chain([here] + rest.attempts, rest.terminal)
    else
      Chain([here], PermanentlyFailed(AttemptsMadeReport(retryCount)))
  }

  /**
   * The shape of every chain: all attempts but the last failed; the chain is confirmed exactly
   * when the last one succeeded; a permanent failure uses up the whole budget and reports
   * retryCount plus the attempts made.
   */
  lemma {:induction false} ChainShape(outcomes: seq<Outcome>, retryCount: nat, gas: real)
    requires |outcomes| >= AttemptBudget(retryCount)
    ensures var c := MintNFT(outcomes, retryCount, gas);
      && (forall j :: 0 <= j < |c.attempts| - 1 ==> outcomes[j] == Fail)
      && (c.terminal == Confirmed <==> outcomes[|c.attempts| - 1] == Success)
      && (c.terminal.PermanentlyFailed? ==> |c.attempts| == AttemptBudget(retryCount))
      && (c.terminal.PermanentlyFailed? ==> c.terminal.reportedAttempts == retryCount + |c.attempts|)
  {
    if outcomes[0] == Fail && retryCount < MAX_RETRIES {
      ChainShape(outcomes[1..], retryCount + 1, gas * GAS_ESCALATION);
    }
  }

  /** If the k-th attempt is the first to succeed, exactly k + 1 attempts are made and the chain is confirmed. */
  lemma StopsAtFirstSuccess(outcomes: seq<Outcome>, retryCount: nat, gas: real, k: nat)
    requires |outcomes| >= AttemptBudget(retryCount)
    requires k < AttemptBudget(retryCount) && outcomes[k] == Success
    requires forall j :: 0 <= j < k ==> outcomes[j] == Fail
    ensures |MintNFT(outcomes, retryCount, gas).attempts| == k + 1
    ensures MintNFT(outcomes, retryCount, gas).terminal == Confirmed
  {
    ChainShape(outcomes, retryCount, gas);
  }

  /** A chain is confirmed exactly when some outcome within its attempt budget is a success. */
  lemma ConfirmedIffSuccessWithinBudget(outcomes: seq<Outcome>, retryCount: nat, gas: real)
    requires |outcomes| >= AttemptBudget(retryCount)
    ensures MintNFT(outcomes, retryCount, gas).terminal == Confirmed
        <==> exists k :: 0 <= k < AttemptBudget(retryCount) && outcomes[k] == Success
  {
    ChainShape(outcomes, retryCount, gas);
    var c := MintNFT(outcomes, retryCount, gas);
    if c.terminal != Confirmed {
      forall k | 0 <= k < AttemptBudget(retryCount) ensures outcomes[k] == Fail {
        assert |c.attempts| == AttemptBudget(retryCount);
      }
    }
  }

  /**
   * When every outcome within the budget is a failure the chain makes its whole budget of
   * attempts, ends in a single permanent failure and issues nothing more.
   */
  lemma Exhaustion(outcomes: seq<Outcome>, retryCount: nat, gas: real)
    requires |outcomes| >= AttemptBudget(retryCount)
    requires forall j :: 0 <= j < AttemptBudget(retryCount) ==> outcomes[j] == Fail
    ensures |MintNFT(outcomes, retryCount, gas).attempts| == AttemptBudget(retryCount)
    ensures MintNFT(outcomes, retryCount, gas).terminal.PermanentlyFailed?
  {
    ChainShape(outcomes, retryCount, gas);
  }

  /** A fresh chain reports, on permanent failure, exactly the number of attempts it made. */
  lemma PermanentFailureReportsAttemptsMade(outcomes: seq<Outcome>, gas: real)
    requires |outcomes| >= AttemptBudget(0)
    ensures var c := MintNFT(outcomes, 0, gas);
      c.terminal.PermanentlyFailed? ==> c.terminal.reportedAttempts == |c.attempts| == MAX_RETRIES + 1
  {
    ChainShape(outcomes, 0, gas);
  }

  /** The message as written undercounts: every fresh chain that fails permanently made more attempts than it reports. */
  lemma AsWrittenReportUndercounts(outcomes: seq<Outcome>, gas: real)
    requires |outcomes| >= AttemptBudget(0)
    ensures var c := MintNFT(outcomes, 0, gas);
      c.terminal.PermanentlyFailed? ==> AsWrittenAttemptsReport() < |c.attempts|
  {
    PermanentFailureReportsAttemptsMade(outcomes, gas);
  }

  /** The i-th attempt of a chain uses the starting budget escalated i times. */
  lemma {:induction false} GasEscalation(outcomes: seq<Outcome>, retryCount: nat, gas: real)
    requires |outcomes| >= AttemptBudget(retryCount)
    ensures var c := MintNFT(outcomes, retryCount, gas);
      forall i :: 0 <= i < |c.attempts| ==> c.attempts[i].gas == Escalated(gas, i)
  {
    var c := MintNFT(outcomes, retryCount, gas);
    if outcomes[0] == Fail && retryCount < MAX_RETRIES {
      var g := gas * GAS_ESCALATION;
      var rest := MintNFT(outcomes[1..], retryCount + 1, g);
      GasEscalation(outcomes[1..], retryCount + 1, g);
      forall i | 0 < i < |c.attempts| ensures c.attempts[i].gas == Escalated(gas, i) {
        assert c.attempts[i] == rest.attempts[i - 1];
        EscalatedShift(gas, i - 1);
      }
    }
  }

  /** Escalating once and then `steps` times is escalating `steps + 1` times. */
  lemma {:induction false} EscalatedShift(gas: real, steps: nat)
    ensures Escalated(gas * GAS_ESCALATION, steps) == Escalated(gas, steps + 1)
  {
    if steps > 0 {
      EscalatedShift(gas, steps - 1);
    }
  }

  /** Each retry's budget is its predecessor's times 1.2. */
  lemma GasStep(outcomes: seq<Outcome>, retryCount: nat, gas: real, i: nat)
    requires |outcomes| >= AttemptBudget(retryCount)
    requires i + 1 < |MintNFT(outcomes, retryCount, gas).attempts|
    ensures var c := MintNFT(outcomes, retryCount, gas);
      c.attempts[i + 1].gas == c.attempts[i].gas * GAS_ESCALATION
  {
    GasEscalation(outcomes, retryCount, gas);
  }

  /** With a positive starting budget, escalation strictly increases and never drops below the start. */
  lemma {:induction false} EscalatedIncreasing(gas: real, i: nat, j: nat)
    requires gas > 0.0 && i < j
    ensures gas <= Escalated(gas, i) < Escalated(gas, j)
    decreases j, j - i
  {
    if j == i + 1 {
      if i > 0 {
        EscalatedIncreasing(gas, i - 1, i);
      }
    } else {
      EscalatedIncreasing(gas, i, j - 1);
      EscalatedIncreasing(gas, j - 1, j);
    }
  }

  /** Within one chain started at a positive budget, gas strictly increases and never falls below the start. */
  lemma GasMonotonic(outcomes: seq<Outcome>, retryCount: nat, gas: real)
    requires |outcomes| >= AttemptBudget(retryCount)
    requires gas > 0.0
    ensures var c := MintNFT(outcomes, retryCount, gas);
      && (forall i :: 0 <= i < |c.attempts| ==> c.attempts[i].gas >= gas)
      && (forall i, j :: 0 <= i < j < |c.attempts| ==> c.attempts[i].gas < c.attempts[j].gas)
  {
    GasEscalation(outcomes, retryCount, gas);
    var c := MintNFT(outcomes, retryCount, gas);
    forall i, j | 0 <= i < j < |c.attempts| ensures c.attempts[i].gas < c.attempts[j].gas {
      EscalatedIncreasing(gas, i, j);
    }
    forall i | 0 < i < |c.attempts| ensures c.attempts[i].gas >= gas {
      EscalatedIncreasing(gas, 0, i);
    }
  }

  /** In a fresh chain the logged attempt numbers run 1, 2, ... and never exceed MAX_RETRIES + 1. */
  lemma AttemptLabels(outcomes: seq<Outcome>, gas: real)
    requires |outcomes| >= AttemptBudget(0)
    ensures var c := MintNFT(outcomes, 0, gas);
      forall i :: 0 <= i < |c.attempts| ==> c.attempts[i].number == i + 1 && 1 <= c.attempts[i].number <= MAX_RETRIES + 1
  {
  }

  /** A fresh chain at the base budget that never succeeds uses gas 1000, 1200, 1440, 1728 and then fails for good. */
  lemma FullFailureTrace()
    ensures MintNFT([Fail, Fail, Fail, Fail], 0, BASE_GAS_AMOUNT)
         == Chain([Attempt(1, 1000.0), Attempt(2, 1200.0), Attempt(3, 1440.0), Attempt(4, 1728.0)],
                  PermanentlyFailed(4))
  {
    var o := [Fail, Fail, Fail, Fail];
    assert o[1..] == [Fail, Fail, Fail];
    assert o[1..][1..] == [Fail, Fail];
    assert o[1..][1..][1..] == [Fail];
  }

  /** A fresh chain whose first attempt succeeds makes exactly one attempt, at the base budget. */
  lemma FirstTrySuccess(outcomes: seq<Outcome>)
    requires |outcomes| >= AttemptBudget(0) && outcomes[0] == Success
    ensures MintNFT(outcomes, 0, BASE_GAS_AMOUNT) == Chain([Attempt(1, BASE_GAS_AMOUNT)], Confirmed)
  {
  }
}
