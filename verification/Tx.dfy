/** The transaction helpers: InTx, the bounded retry loop InSerializableTx, and its backoff. */
module Tx {
  import opened Types

  /** A Go error chain as errors.As walks it. */
  datatype Error = PgError(code: string) | Plain | Wrap(inner: Error)

  predicate IsRetryable(e: Error) {
    match e
    case PgError(code) => code == "40001" || code == "40P01"
    case Plain => false
    case Wrap(inner) => IsRetryable(inner)
  }

  /** What is left of a chain when every wrapping is taken off. */
  function Innermost(e: Error): Error {
    if e.Wrap? then Innermost(e.inner) else e
  }

  /** serialization_failure or deadlock_detected, however often it was wrapped. */
  predicate Conflict(e: Error) {
    Innermost(e) == PgError("40001") || Innermost(e) == PgError("40P01")
  }

  /** A chain is retried exactly when it ends in one of the two codes. */
  lemma {:induction false} RetryableIff(e: Error)
    ensures !Innermost(e).Wrap?
    ensures IsRetryable(e) <==> Innermost(e) == PgError("40001") || Innermost(e) == PgError("40P01")
  {
    if e.Wrap? { RetryableIff(e.inner); }
  }

  /**
   One attempt: what fails around the closure, and the closure. It works on the transaction's copy of the
   database and on the variables it has captured, and it may return an error after any writes to either.
   */
  datatype Attempt<!S, !V> = Attempt(pool: Option<Error>, begin: Option<Error>, body: (S, V) -> Work<S, V>, commit: Option<Error>)

  datatype Work<S, V> = Work(copy: S, vars: V, error: Option<Error>)

  /** The error an attempt reports; None means it committed. */
  function Outcome<S, V>(a: Attempt<S, V>, s: S, v: V): Option<Error> {
    if a.pool.Some? then a.pool
    else if a.begin.Some? then Some(Wrap(a.begin.value))
    else if a.body(s, v).error.Some? then a.body(s, v).error
    else if a.commit.Some? then Some(Wrap(a.commit.value))
    else None
  }

  // The captured variables after an attempt: the closure's assignments, if it was entered.
  function Vars<S, V>(a: Attempt<S, V>, s: S, v: V): V {
    if a.pool.Some? || a.begin.Some? then v else a.body(s, v).vars
  }

  /** An attempt fails exactly when something in it does, and its error ends in what the first such thing reported. */
  lemma OutcomeIs<S, V>(a: Attempt<S, V>, s: S, v: V)
    ensures Outcome(a, s, v).None? <==> a.pool.None? && a.begin.None? && a.body(s, v).error.None? && a.commit.None?
    ensures Outcome(a, s, v).Some? ==>
              Innermost(Outcome(a, s, v).value) ==
              Innermost(if a.pool.Some? then a.pool.value
                        else if a.begin.Some? then a.begin.value
                        else if a.body(s, v).error.Some? then a.body(s, v).error.value
                        else a.commit.value)
  {
    assert forall e: Error :: Innermost(Wrap(e)) == Innermost(e);
  }

  const MAX_TX_ATTEMPTS := 3

  /** What a retry loop may have seen: at most three outcomes, all but the last retryable, no early end on a retryable one. */
  predicate Retried(outcomes: seq<Option<Error>>) {
    && 1 <= |outcomes| <= MAX_TX_ATTEMPTS
    && (forall i | 0 <= i < |outcomes| - 1 :: outcomes[i].Some? && IsRetryable(outcomes[i].value))
    && (|outcomes| < MAX_TX_ATTEMPTS ==> Last(outcomes).None? || !IsRetryable(Last(outcomes).value))
  }

  // The variables before attempt i, if the ones before it failed; the database is then as at the start.
  function VarsBefore<S, V>(attempts: seq<Attempt<S, V>>, i: nat, s: S, v: V): V
    requires i <= |attempts|
  {
    if i == 0 then v else Vars(attempts[i - 1], s, VarsBefore(attempts, i - 1, s, v))
  }

  function OutcomeAt<S, V>(attempts: seq<Attempt<S, V>>, i: nat, s: S, v: V): Option<Error>
    requires i < |attempts|
  {
    Outcome(attempts[i], s, VarsBefore(attempts, i, s, v))
  }

  function Outcomes<S, V>(attempts: seq<Attempt<S, V>>, n: nat, s: S, v: V): (o: seq<Option<Error>>)
    requires n <= |attempts|
    ensures |o| == n && forall i | 0 <= i < n :: o[i] == OutcomeAt(attempts, i, s, v)
  {
    if n == 0 then [] else Outcomes(attempts, n - 1, s, v) + [OutcomeAt(attempts, n - 1, s, v)]
  }

  /** A database, the transaction open on it if there is one, and the variables its closures have captured. */
  class Pool<S, V> {
    var state: S         // what is committed
    var open: Option<S>  // the working copy of the open transaction
    var vars: V
    var commits: nat

    constructor (s: S, v: V)
      ensures state == s && vars == v && open.None? && commits == 0
    {
      state, vars, open, commits := s, v, None, 0;
    }

    /** Commits what the closure wrote, or rolls all of it back; what it assigned to captured variables stays. */
    method InTx(a: Attempt<S, V>) returns (err: Option<Error>)
      requires open.None?
      modifies this
      ensures open.None? && err == Outcome(a, old(state), old(vars)) && vars == Vars(a, old(state), old(vars))
      ensures vars == if a.pool.None? && a.begin.None? then a.body(old(state), old(vars)).vars else old(vars)
      ensures err.None? ==> state == a.body(old(state), old(vars)).copy && commits == old(commits) + 1
      ensures err.Some? ==> state == old(state) && commits == old(commits)
    {
      if a.pool.Some? {
        return a.pool;
      }
      if a.begin.Some? {
        return Some(Wrap(a.begin.value));
      }
      open := Some(state);
      var work := a.body(open.value, vars);
      open, vars := Some(work.copy), work.vars;
      if work.error.Some? {
        open := None; // ROLLBACK
        return work.error;
      }
      if a.commit.Some? {
        open := None;
        return Some(Wrap(a.commit.value));
      }
      state, open, commits := open.value, None, commits + 1;
      return None;
    }

    /**
     Given what each attempt would meet, returns how many were made. It succeeds exactly when one attempt
     committed, always the last one made; otherwise the database is as it was. Captured variables carry over.
     */
    method InSerializableTx(attempts: seq<Attempt<S, V>>, jitters: seq<nat>)
      returns (err: Option<Error>, made: nat, slept: nat)
      requires open.None? && |attempts| == MAX_TX_ATTEMPTS
      requires |jitters| == MAX_TX_ATTEMPTS - 1 && JittersOk(jitters)
      modifies this
      ensures open.None? && made <= MAX_TX_ATTEMPTS && Retried(Outcomes(attempts, made, old(state), old(vars)))
      ensures err.None? <==> OutcomeAt(attempts, made - 1, old(state), old(vars)).None?
      ensures err.None? <==> Succeeds(attempts, old(state), old(vars))
      ensures err.None? ==>
        && commits == old(commits) + 1
        && state == attempts[made - 1].body(old(state), VarsBefore(attempts, made - 1, old(state), old(vars))).copy
      ensures err.Some? ==> state == old(state) && commits == old(commits)
      ensures err.Some? ==> IsRetryable(err.value) == (made == MAX_TX_ATTEMPTS && IsRetryable(OutcomeAt(attempts, made - 1, old(state), old(vars)).value))
      ensures vars == VarsBefore(attempts, made, old(state), old(vars))
      ensures slept == Backoff(jitters[..made - 1])
      ensures forall m: nat | m < 3 && Conflicts(attempts, m, old(state), old(vars)) ::
                && (OutcomeAt(attempts, m, old(state), old(vars)).None? ==> err.None? && made == m + 1)
                && (OutcomeAt(attempts, m, old(state), old(vars)).Some?
                    && !Conflict(OutcomeAt(attempts, m, old(state), old(vars)).value) ==>
                      err == OutcomeAt(attempts, m, old(state), old(vars)) && made == m + 1)
      ensures Conflicts(attempts, 3, old(state), old(vars)) ==>
                err.Some? && made == 3
                && Innermost(err.value) == Innermost(OutcomeAt(attempts, 2, old(state), old(vars)).value)
    {
      hide Outcome, Vars, Conflict;
      ghost var s, v := state, vars;
      var last: Option<Error> := None;
      var attempt := 1;
      slept := 0;
      while attempt <= MAX_TX_ATTEMPTS
        invariant 1 <= attempt <= MAX_TX_ATTEMPTS + 1 && open.None?
        invariant state == s && commits == old(commits) && vars == VarsBefore(attempts, attempt - 1, s, v)
        invariant forall i | 0 <= i < attempt - 1 ::
                    OutcomeAt(attempts, i, s, v).Some? && IsRetryable(OutcomeAt(attempts, i, s, v).value)
        invariant attempt > 1 ==> last == OutcomeAt(attempts, attempt - 2, s, v)
        invariant attempt <= MAX_TX_ATTEMPTS ==> slept == Backoff(jitters[..attempt - 1])
        invariant attempt == MAX_TX_ATTEMPTS + 1 ==> slept == Backoff(jitters)
      {
        last := InTx(attempts[attempt - 1]);
        SucceedsIff(attempts, s, v);
        OnlyEnd(attempts, attempt - 1, s, v);
        if last.None? {
          return None, attempt, slept;
        }
        if !IsRetryable(last.value) {
          return last, attempt, slept;
        }
        if attempt < MAX_TX_ATTEMPTS {
          assert Front(jitters[..attempt]) == jitters[..attempt - 1];
          slept := slept + Base(attempt) + jitters[attempt - 1];
        } else {
          assert jitters[..attempt - 1] == jitters;
        }
        attempt := attempt + 1;
      }
      assert jitters[..MAX_TX_ATTEMPTS - 1] == jitters;
      SucceedsIff(attempts, s, v);
      OnlyEnd(attempts, MAX_TX_ATTEMPTS, s, v);
      return Some(Wrap(last.value)), MAX_TX_ATTEMPTS, slept;
    }
  }

  // ---------------------------------------------------------------- backoff, in milliseconds

  function Pow2(n: nat): (p: nat)
    ensures p > 0
  {
    if n == 0 then 1 else 2 * Pow2(n - 1)
  }

  // The wait before the attempt after number `attempt`, without jitter.
  function Base(attempt: nat): nat
    requires attempt > 0
  {
    Pow2(attempt - 1) * 10
  }

  // rand.Int63n(base) for each wait.
  predicate JittersOk(jitters: seq<nat>) {
    forall i | 0 <= i < |jitters| :: jitters[i] < Base(i + 1)
  }

  function Backoff(jitters: seq<nat>): nat
    decreases |jitters|
  {
    if jitters == [] then 0 else Backoff(Front(jitters)) + Base(|jitters|) + Last(jitters)
  }

  /** n failed attempts wait between 10(2^(n-1)-1) and 20(2^(n-1)-1) ms, below the upper end when n > 1. */
  lemma {:induction false} BackoffBounds(n: nat, jitters: seq<nat>)
    requires n > 0 && |jitters| == n - 1 && JittersOk(jitters)
    ensures 10 * (Pow2(n - 1) - 1) <= Backoff(jitters) <= 20 * (Pow2(n - 1) - 1)
    ensures n > 1 ==> Backoff(jitters) < 20 * (Pow2(n - 1) - 1)
    decreases n
  {
    if n > 1 {
      BackoffBounds(n - 1, Front(jitters));
      assert Last(jitters) < Base(n - 1);
    }
  }

  /** When the loop reports success: the first attempt commits, or fails retryably and the rest succeed from the variables it left. */
  predicate Succeeds<S, V>(attempts: seq<Attempt<S, V>>, s: S, v: V) {
    attempts != []
    && (Outcome(attempts[0], s, v).None?
        || (IsRetryable(Outcome(attempts[0], s, v).value) && Succeeds(attempts[1..], s, Vars(attempts[0], s, v))))
  }

  lemma {:induction false} VarsShift<S, V>(attempts: seq<Attempt<S, V>>, i: nat, s: S, v: V)
    requires i < |attempts|
    ensures VarsBefore(attempts, i + 1, s, v) == VarsBefore(attempts[1..], i, s, Vars(attempts[0], s, v))
  {
    if i > 0 { VarsShift(attempts, i - 1, s, v); }
  }

  // The first m outcomes are retryable errors.
  ghost predicate FailsUpTo<S, V>(attempts: seq<Attempt<S, V>>, m: nat, s: S, v: V)
    requires m <= |attempts|
  {
    forall i | 0 <= i < m :: OutcomeAt(attempts, i, s, v).Some? && IsRetryable(OutcomeAt(attempts, i, s, v).value)
  }

  // The first m attempts end in one of the two codes.
  ghost predicate Conflicts<S, V>(attempts: seq<Attempt<S, V>>, m: nat, s: S, v: V)
    requires m <= |attempts|
  {
    forall i | 0 <= i < m :: OutcomeAt(attempts, i, s, v).Some? && Conflict(OutcomeAt(attempts, i, s, v).value)
  }

  // After m retryable failures, m is the only place where the loop can end early.
  lemma OnlyEnd<S, V>(attempts: seq<Attempt<S, V>>, m: nat, s: S, v: V)
    requires m <= |attempts| && FailsUpTo(attempts, m, s, v)
    ensures Conflicts(attempts, m, s, v)
    ensures m < |attempts| && OutcomeAt(attempts, m, s, v).Some? ==>
              (IsRetryable(OutcomeAt(attempts, m, s, v).value) <==> Conflict(OutcomeAt(attempts, m, s, v).value))
  {
    forall e: Error ensures IsRetryable(e) <==> Conflict(e) { RetryableIff(e); }
  }

  /** Success means that some attempt commits and every earlier one failed retryably. */
  lemma {:induction false} SucceedsIff<S, V>(attempts: seq<Attempt<S, V>>, s: S, v: V)
    ensures Succeeds(attempts, s, v) <==>
            exists m :: 0 <= m < |attempts| && OutcomeAt(attempts, m, s, v).None? && FailsUpTo(attempts, m, s, v)
    decreases |attempts|
  {
    if attempts != [] {
      var rest, v' := attempts[1..], Vars(attempts[0], s, v);
      SucceedsIff(rest, s, v');
      forall i: nat | i < |rest| ensures OutcomeAt(attempts, i + 1, s, v) == OutcomeAt(rest, i, s, v') { VarsShift(attempts, i, s, v); }
      if Outcome(attempts[0], s, v).None? {
        assert OutcomeAt(attempts, 0, s, v).None? && FailsUpTo(attempts, 0, s, v);
      } else {
        LaterSuccess(attempts, s, v);
      }
    }
  }

  lemma LaterSuccess<S, V>(attempts: seq<Attempt<S, V>>, s: S, v: V)
    requires attempts != [] && Outcome(attempts[0], s, v).Some?
    requires var rest, v' := attempts[1..], Vars(attempts[0], s, v);
      forall i: nat | i < |rest| :: OutcomeAt(attempts, i + 1, s, v) == OutcomeAt(rest, i, s, v')
    ensures (exists m :: 0 <= m < |attempts| && OutcomeAt(attempts, m, s, v).None? && FailsUpTo(attempts, m, s, v)) <==>
            IsRetryable(Outcome(attempts[0], s, v).value)
            && exists m :: 0 <= m < |attempts[1..]| && OutcomeAt(attempts[1..], m, s, Vars(attempts[0], s, v)).None?
                           && FailsUpTo(attempts[1..], m, s, Vars(attempts[0], s, v))
  {
    var rest, v' := attempts[1..], Vars(attempts[0], s, v);
    assert OutcomeAt(attempts, 0, s, v) == Outcome(attempts[0], s, v);
    if m :| 0 <= m < |attempts| && OutcomeAt(attempts, m, s, v).None? && FailsUpTo(attempts, m, s, v) {
      assert m > 0 && OutcomeAt(rest, m - 1, s, v').None?;
      forall i | 0 <= i < m - 1 ensures OutcomeAt(rest, i, s, v').Some? && IsRetryable(OutcomeAt(rest, i, s, v').value) {
        assert OutcomeAt(attempts, i + 1, s, v) == OutcomeAt(rest, i, s, v');
      }
      assert FailsUpTo(rest, m - 1, s, v');
    }
    if m :| 0 <= m < |rest| && OutcomeAt(rest, m, s, v').None? && FailsUpTo(rest, m, s, v')
            && IsRetryable(Outcome(attempts[0], s, v).value) {
      assert OutcomeAt(attempts, m + 1, s, v).None?;
      forall i | 0 <= i < m + 1 ensures OutcomeAt(attempts, i, s, v).Some? && IsRetryable(OutcomeAt(attempts, i, s, v).value) {
        if i > 0 { assert OutcomeAt(attempts, i - 1 + 1, s, v) == OutcomeAt(rest, i - 1, s, v'); }
      }
      assert FailsUpTo(attempts, m + 1, s, v);
    }
  }
}
