/** Exactly which error an attempt ends with, what it did, and what becomes of its client. */
module TransactorLaws {
  import opened Wrappers
  import opened Transactor

  /** The transaction was begun as it should be: a client in time, and every setup statement confirmed. */
  predicate Begun(a: Attempt) {
    a.acquire.Acquired? && forall i :: 0 <= i < |a.setup| ==> a.setup[i] == Confirmed
  }

  /** The callback returned and the continuity sentinel is what it was, so COMMIT is sent. */
  predicate Commits(a: Attempt) {
    Begun(a) && a.callback.Returns? && a.continuity.Confirmed? && !a.escaped
  }

  /** COMMIT was confirmed. */
  predicate Committed(a: Attempt) {
    Commits(a) && a.commit.CommitConfirmed?
  }

  /** The sentinel shows another transaction, or the reply to COMMIT is neither its confirmation nor a rollback. */
  predicate InDoubt(a: Attempt) {
    || (Begun(a) && a.callback.Returns? && (a.continuity.Unconfirmed? || (a.continuity.Confirmed? && a.escaped)))
    || (Commits(a) && !a.commit.CommitConfirmed? && !a.commit.CommandRollback?)
  }

  /** The kind of an attempt's end, by what happened at its awaits. */
  lemma EndsExactly(a: Attempt)
    ensures var o := Attempted(a).0;
            && (o.Returned? <==> Committed(a) && a.discard.Confirmed? && !a.releaseThrows)
            && (o.Failed? && o.kind == PostCommitRelease <==> Committed(a) && !(a.discard.Confirmed? && !a.releaseThrows))
            && (o.Failed? && o.kind == Ambiguous <==> InDoubt(a))
            && (o.Failed? && o.kind == Disposal <==> a.acquire.Acquired? && !Committed(a) && !InDoubt(a) && a.releaseThrows)
  {
    NoErrorMeansConfirmed(a.setup);
    hide FirstError;
  }

  /** The code an attempt fails with is that of the await that failed, and only where the outcome is not in doubt. */
  lemma FailsWithItsCode(a: Attempt)
    ensures a.acquire.AcquireFails? ==> Attempted(a).0 == Failed(Plain, a.acquire.code, a.acquire.aborted)
    ensures Begun(a) && a.callback.Throws? && !a.releaseThrows ==> Attempted(a).0 == Failed(Plain, a.callback.code, false)
    ensures Begun(a) && a.callback.Returns? && a.continuity.Rejected? && !a.releaseThrows ==>
              Attempted(a).0 == Failed(Plain, a.continuity.code, false)
    ensures Commits(a) && a.commit.CommandRollback? && !a.releaseThrows ==> Attempted(a).0 == Failed(Plain, None, false)
    ensures Attempted(a).0.Failed? && Attempted(a).0.kind != Plain ==> Attempted(a).0.code == None
  {
    NoErrorMeansConfirmed(a.setup);
    hide FirstError;
  }

  /** A setup statement that is not confirmed ends the attempt with its error, before the callback runs. */
  lemma SetupFailsFirst(a: Attempt, i: nat)
    requires a.acquire.Acquired? && i < |a.setup| && a.setup[i] != Confirmed && forall j :: 0 <= j < i ==> a.setup[j] == Confirmed
    ensures var (o, t) := Attempted(a);
            && !t.callbackRan && !t.commitDispatched && !t.landed
            && o.Failed? && (if a.releaseThrows then o.kind == Disposal else o.kind == Plain && o.code == ErrorOf(a.setup[i]).code)
            && o.aborted == a.setup[i].Aborted?
  {
    FirstErrorIs(a.setup, i, |a.setup|);
    assert a.setup[..|a.setup|] == a.setup;
    hide FirstError;
  }

  lemma {:induction false} FirstErrorIs(setup: seq<Reply>, i: nat, n: nat)
    requires i < n <= |setup| && setup[i] != Confirmed && forall j :: 0 <= j < i ==> setup[j] == Confirmed
    ensures FirstError(setup[..n]) == Some(ErrorOf(setup[i]))
  {
    assert setup[..n][..n - 1] == setup[..n - 1];
    if n - 1 > i {
      FirstErrorIs(setup, i, n - 1);
    } else {
      NoErrorMeansConfirmed(setup[..i]);
    }
  }

  /** What landed on the server: the callback's own commit, a confirmed commit, or one in doubt that did land. */
  lemma LandsExactly(a: Attempt)
    ensures Attempted(a).1.landed <==>
              || (Begun(a) && a.escaped) || Committed(a)
              || (Commits(a) && ((a.commit.OtherCommand? && a.commit.landed) || (a.commit.CommitRejected? && a.commit.landed)
                                 || (a.commit.CommitAborted? && a.commit.landed)))
    ensures Attempted(a).1.callbackRan <==> Begun(a)
    ensures Attempted(a).1.commitConfirmed <==> Committed(a)
  {
    NoErrorMeansConfirmed(a.setup);
    hide FirstError;
  }

  /** A client goes back for reuse exactly after a confirmed COMMIT and DISCARD with no abort in between; any other is destroyed. */
  lemma ReleasesExactly(a: Attempt)
    ensures Attempted(a).1.releases ==
              if a.acquire.AcquireFails? && !a.acquire.late then []
              else if Committed(a) && a.discard.Confirmed? && !a.abortBeforeRelease then [false] else [true]
  {
    NoErrorMeansConfirmed(a.setup);
    hide FirstError;
  }

  /** A serialization failure or a deadlock, and nothing else, is tried again, while retries are left and no signal has fired. */
  lemma RetriesExactly(attempts: seq<Attempt>, maxRetries: nat, signal: seq<bool>, k: nat)
    requires |signal| == |attempts| && k < |attempts| && !signal[k]
    ensures var (o, t) := Attempted(attempts[k]);
            var again := o.Failed? && (o.code == Some("40001") || o.code == Some("40P01")) && k < maxRetries && !attempts[k].signalAfter;
            CallFrom(attempts, maxRetries, signal, k) ==
              if again then (CallFrom(attempts, maxRetries, signal, k + 1).0, [t] + CallFrom(attempts, maxRetries, signal, k + 1).1)
              else (o, [t])
  {
    Unfold(attempts, maxRetries, signal, k);
    hide Attempted, CallFrom;
  }

  /** A call whose transient failures are fewer than its retries, and whose next attempt meets no fault, returns. */
  lemma {:induction false} TransientFailuresAreOvercome(attempts: seq<Attempt>, maxRetries: nat, signal: seq<bool>, k: nat, n: nat)
    requires |signal| == |attempts| && k <= n < |attempts| && n <= maxRetries
    requires forall i :: k <= i <= n ==> !signal[i]
    requires forall i :: k <= i < n ==> Fails(attempts[i]) && !attempts[i].signalAfter
    requires AllConfirmed(attempts[n])
    ensures CallFrom(attempts, maxRetries, signal, k).0.Returned?
    decreases n - k
  {
    RetriesExactly(attempts, maxRetries, signal, k);
    AttemptedIsOk(attempts[k]);
    if k < n { TransientFailuresAreOvercome(attempts, maxRetries, signal, k + 1, n); }
    hide Attempted, CallFrom;
  }

  predicate Fails(a: Attempt) {
    Attempted(a).0.Failed? && (Attempted(a).0.code == Some("40001") || Attempted(a).0.code == Some("40P01"))
  }
}
