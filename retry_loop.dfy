/** The shape shared by the bounded retry loops of the providers and
    services: attempts are made in order until one succeeds or the budget is
    used up; the loop ends with the first success or with the failure of the
    last attempt, and pauses between attempts but not after the last one. */
module RetryLoop {
  import opened Outcomes

  /** How many of the attempts `tries` a loop makes: every attempt up to and
      including the first success. */
  function Made<T, E>(tries: seq<Result<T, E>>): (k: nat)
    ensures k <= |tries|
    ensures tries != [] ==> 1 <= k
    ensures forall i :: 0 <= i < k - 1 ==> tries[i].Err?
    ensures 0 < k < |tries| ==> tries[k - 1].Ok?
  {
    if tries == [] then 0
    else if tries[0].Ok? then 1
    else 1 + Made(tries[1..])
  }

  /** What the loop ends with: the first success, or else the failure of the
      last attempt; `None` when no attempt is made. */
  function Settle<T, E>(tries: seq<Result<T, E>>): (r: Option<Result<T, E>>)
    ensures r.None? <==> tries == []
  {
    if tries == [] then None else Some(tries[Made(tries) - 1])
  }

  /** The loop succeeds exactly when some attempt succeeds, and then with the
      first success after exactly that many attempts; when every attempt
      fails it ends with the last failure after all of them. */
  lemma SettleSpec<T, E>(tries: seq<Result<T, E>>)
    ensures (Settle(tries).Some? && Settle(tries).value.Ok?) <==> exists i :: 0 <= i < |tries| && tries[i].Ok?
    ensures forall i :: 0 <= i < |tries| && tries[i].Ok? && (forall j :: 0 <= j < i ==> tries[j].Err?) ==>
      Made(tries) == i + 1 && Settle(tries) == Some(tries[i])
    ensures tries != [] && (forall i :: 0 <= i < |tries| ==> tries[i].Err?) ==>
      Made(tries) == |tries| && Settle(tries) == Some(tries[|tries| - 1])
  {
    var k := Made(tries);
    if exists i :: 0 <= i < |tries| && tries[i].Ok? {
      var i :| 0 <= i < |tries| && tries[i].Ok?;
      assert k - 1 <= i;
    }
  }

  /** A loop whose attempt `i` is the first success stops after it. */
  lemma SettleAtFirstOk<T, E>(tries: seq<Result<T, E>>, i: nat)
    requires i < |tries| && tries[i].Ok?
    requires forall j :: 0 <= j < i ==> tries[j].Err?
    ensures Made(tries) == i + 1 && Settle(tries) == Some(tries[i])
  {
    SettleSpec(tries);
  }

  /** A loop whose every attempt fails makes them all and ends with the
      last failure. */
  lemma SettleAllFailed<T, E>(tries: seq<Result<T, E>>)
    requires tries != [] && forall i :: 0 <= i < |tries| ==> tries[i].Err?
    ensures Made(tries) == |tries| && Settle(tries) == Some(tries[|tries| - 1])
  {
    SettleSpec(tries);
  }

  /** One more failed attempt extends the run of failures. */
  lemma FailuresExtend<T, E>(tries: seq<Result<T, E>>, i: nat)
    requires i < |tries| && tries[i].Err?
    requires forall j :: 0 <= j < i ==> tries[j].Err?
    ensures forall j :: 0 <= j < i + 1 ==> tries[j].Err?
  {
  }

  /** A loop whose attempts before the last all failed, and whose last one
      fails too, ends with that last failure. */
  lemma SettleAtLastFailure<T, E>(tries: seq<Result<T, E>>, i: nat)
    requires i + 1 == |tries| && tries[i].Err?
    requires forall j :: 0 <= j < i ==> tries[j].Err?
    ensures Made(tries) == |tries| && Settle(tries) == Some(tries[i])
  {
    SettleAllFailed(tries);
  }

  /** The pauses of a loop that made `made` attempts: one after every
      attempt but the last, the n-th lasting `delay(n)`. */
  function Pauses(made: nat, delay: nat -> nat): (ws: seq<nat>)
    ensures |ws| == if made == 0 then 0 else made - 1
    ensures forall i :: 0 <= i < |ws| ==> ws[i] == delay(i)
  {
    if made == 0 then [] else seq(made - 1, (i: int) requires 0 <= i => delay(i))
  }

  /** One more attempt adds one more pause, for the attempt before it. */
  lemma PausesExtend(made: nat, delay: nat -> nat)
    requires made >= 1
    ensures Pauses(made + 1, delay) == Pauses(made, delay) + [delay(made - 1)]
  {
    var a, b := Pauses(made + 1, delay), Pauses(made, delay) + [delay(made - 1)];
    assert |a| == |b|;
    forall i | 0 <= i < |a| ensures a[i] == b[i] {
    }
  }

  /** A pause of the same length after every attempt. */
  function Constantly(pause: nat): nat -> nat {
    _ => pause
  }

  /** A pause of one more second after each further attempt:
      `1000 * (n + 1)` milliseconds after the n-th. */
  function LinearBackoff(n: nat): nat {
    1000 * (n + 1)
  }
}
