/** The bounded loop that looks for the switched identities in gossip after a failover. */
module GossipConfirmation {
  import opened Wrappers

  const MAX_RETRIES := 5

  /** What the two lookups of one attempt find: a public key, or nothing. */
  datatype Attempt = Attempt(active: Option<string>, passive: Option<string>) {
    predicate Answered() {
      active.Some? && passive.Some?
    }

    predicate Confirms(newActive: string, newPassive: string) {
      active == Some(newActive) && passive == Some(newPassive)
    }
  }

  function Pow2(n: nat): (r: nat)
    ensures r > 0
  {
    if n == 0 then 1 else 2 * Pow2(n - 1)
  }

  /** The pauses after the first `n` attempts, in seconds: one after every attempt that does not
      confirm, twice as long each time. */
  function Pauses(attempts: seq<Attempt>, n: nat, newActive: string, newPassive: string): nat
    requires n <= |attempts|
  {
    if n == 0 then 0
    else Pauses(attempts, n - 1, newActive, newPassive) +
         if attempts[n - 1].Confirms(newActive, newPassive) then 0 else Pow2(n)
  }

  /** What the flags last recorded: the first `n` attempts' latest that got both answers confirms. */
  predicate LastAnswerConfirms(attempts: seq<Attempt>, n: nat, newActive: string, newPassive: string)
    requires n <= |attempts|
  {
    n > 0 &&
    if attempts[n - 1].Answered() then attempts[n - 1].Confirms(newActive, newPassive)
    else LastAnswerConfirms(attempts, n - 1, newActive, newPassive)
  }

  /** confirmGossipNodesPostFailover, on what the lookups will find. The loop goes on after an attempt
      that confirms; its two flags keep the latest complete answer, and the final log line goes by
      the flags, not by the error. */
  method ConfirmGossipNodes(attempts: seq<Attempt>, newActive: string, newPassive: string)
    returns (err: bool, logsConfirmed: bool, tried: nat, slept: nat)
    requires |attempts| == 5
    ensures tried == 5
    ensures !err <==> attempts[4].Confirms(newActive, newPassive)
    ensures slept == Pauses(attempts, 4, newActive, newPassive)
    ensures logsConfirmed == LastAnswerConfirms(attempts, 5, newActive, newPassive)
  {
    var activeSeen, passiveSeen := false, false;
    err, tried, slept := false, 0, 0;
    while tried < MAX_RETRIES
      invariant tried <= MAX_RETRIES && !err
      invariant tried == MAX_RETRIES ==> attempts[MAX_RETRIES - 1].Confirms(newActive, newPassive)
      invariant slept == Pauses(attempts, if tried < MAX_RETRIES then tried else MAX_RETRIES - 1, newActive, newPassive)
      invariant (activeSeen && passiveSeen) == LastAnswerConfirms(attempts, tried, newActive, newPassive)
    {
      var attempt := attempts[tried];
      var retryDelay := Pow2(tried + 1);
      tried := tried + 1;
      var hasRetriesLeft := tried < MAX_RETRIES;
      if attempt.active.None? || attempt.passive.None? {
        if hasRetriesLeft {
          slept := slept + retryDelay;
          continue;
        }
        err := true;
        break;
      }
      activeSeen := attempt.active.value == newActive;
      passiveSeen := attempt.passive.value == newPassive;
      if !activeSeen || !passiveSeen {
        if hasRetriesLeft {
          slept := slept + retryDelay;
          continue;
        }
        err := true;
        break;
      }
    }
    logsConfirmed := activeSeen && passiveSeen;
  }

  /** The seconds slept after an attempt: none after one that confirms. */
  function Pause(a: Attempt, newActive: string, newPassive: string, delay: nat): nat {
    if a == Attempt(Some(newActive), Some(newPassive)) then 0 else delay
  }

  /** The loop pauses for 2, 4, 8 and 16 seconds after its first four attempts, less the pauses after those
      that confirm; it does not pause after the last. */
  lemma TotalPause(attempts: seq<Attempt>, newActive: string, newPassive: string)
    requires |attempts| == 5
    ensures Pauses(attempts, 4, newActive, newPassive) ==
              Pause(attempts[0], newActive, newPassive, 2) + Pause(attempts[1], newActive, newPassive, 4)
              + Pause(attempts[2], newActive, newPassive, 8) + Pause(attempts[3], newActive, newPassive, 16)
  {
    assert Pow2(1) == 2 && Pow2(2) == 4 && Pow2(3) == 8 && Pow2(4) == 16;
    assert Pauses(attempts, 1, newActive, newPassive) == Pause(attempts[0], newActive, newPassive, 2);
    assert Pauses(attempts, 2, newActive, newPassive)
        == Pauses(attempts, 1, newActive, newPassive) + Pause(attempts[1], newActive, newPassive, 4);
    assert Pauses(attempts, 3, newActive, newPassive)
        == Pauses(attempts, 2, newActive, newPassive) + Pause(attempts[2], newActive, newPassive, 8);
  }

  /** The log line agrees with the result except when the last attempt got no complete answer and the
      latest complete answer before it confirmed: then an error is reported and yet confirmation logged. */
  lemma LogContradictsErrorIff(attempts: seq<Attempt>, newActive: string, newPassive: string)
    requires |attempts| == 5
    ensures LastAnswerConfirms(attempts, 5, newActive, newPassive) != attempts[4].Confirms(newActive, newPassive)
            <==> !attempts[4].Answered() && LastAnswerConfirms(attempts, 4, newActive, newPassive)
  {
  }

  /** A run in which that happens. */
  lemma LogCanContradictError(newActive: string, newPassive: string) returns (attempts: seq<Attempt>)
    ensures |attempts| == 5
    ensures !attempts[4].Confirms(newActive, newPassive)
    ensures LastAnswerConfirms(attempts, 5, newActive, newPassive)
  {
    var good, silent := Attempt(Some(newActive), Some(newPassive)), Attempt(None, None);
    attempts := [good, good, good, good, silent];
  }
}
