/**
 * The transaction adapter of packages/server/src/pg-transactor.ts: runOnce and the retry loop of
 * runTransaction. An attempt is given what happens at each of its awaits; a commit that was sent may have
 * landed on the server whether or not its reply arrived.
 */
module Transactor {
  import opened Wrappers
  import opened Utf16
  import SqlScanner
  import ServerLexing
  import EarlyCommit

  /** The reply to a statement whose only acceptable outcome is its confirmation. */
  datatype Reply = Confirmed | Unconfirmed | Rejected(code: Option<string>) | Aborted

  datatype Callback = Returns | Throws(code: Option<string>) | CallbackAborted

  /** The reply to COMMIT, and whether the commit landed when the reply does not say. */
  datatype CommitReply =
    | CommitConfirmed
    | CommandRollback
    | OtherCommand(landed: bool)
    | CommitRejected(code: Option<string>, landed: bool)
    | CommitAborted(landed: bool)

  datatype Acquire = Acquired | AcquireFails(code: Option<string>, aborted: bool, late: bool)

  datatype Attempt = Attempt(
    acquire: Acquire,
    /** BEGIN, statement timeout, initial locks, readback and continuity sentinel. */
    setup: seq<Reply>,
    /** The texts the callback gives to its executor. */
    sent: seq<JsString>,
    callback: Callback,
    /** One of them committed the transaction behind the adapter's back. */
    escaped: bool,
    continuity: Reply,
    commit: CommitReply,
    discard: Reply,
    /** The signal fires between the confirmed DISCARD and the release. */
    abortBeforeRelease: bool,
    releaseThrows: bool,
    /** The signal has fired by the time the attempt's failure is examined. */
    signalAfter: bool)

  datatype Kind = Plain | Ambiguous | PostCommitRelease | Disposal

  datatype Outcome = Returned | Failed(kind: Kind, code: Option<string>, aborted: bool)

  /** What an attempt did to the server and to its client. */
  datatype Trace = Trace(
    commitDispatched: bool,
    commitConfirmed: bool,
    discardConfirmed: bool,
    callbackRan: bool,
    /** Whether a transaction of this attempt is committed on the server. */
    landed: bool,
    /** The release calls made on the client: true destroys it, false returns it for reuse. */
    releases: seq<bool>)

  predicate Retryable(code: Option<string>) {
    code == Some("40001") || code == Some("40P01")
  }

  /** An error that says the outcome is not a clean failure. */
  predicate OutcomeKnown(o: Outcome) {
    o.Failed? && (o.kind == Plain || o.kind == Disposal)
  }

  predicate HasClient(a: Attempt) {
    a.acquire.Acquired? || a.acquire.late
  }

  /** The client went back to the pool for another caller. */
  predicate Reused(t: Trace) {
    exists i :: 0 <= i < |t.releases| && !t.releases[i]
  }

  datatype ReleaseState = Open | Released | Destroyed | ReleaseFailed

  /** terminalRelease: at most one release call in the life of a client. */
  method TerminalRelease(state: ReleaseState, destroy: bool, throws: bool, releases: seq<bool>)
    returns (state': ReleaseState, releases': seq<bool>)
    ensures state == Open ==> releases' == releases + [destroy]
    ensures state == Open ==> state' == if throws then ReleaseFailed else if destroy then Destroyed else Released
    ensures state != Open ==> state' == state && releases' == releases
  {
    if state != Open { return state, releases; }
    state' := if destroy then Destroyed else Released;
    releases' := releases + [destroy];
    if throws { state' := ReleaseFailed; }
  }

  datatype Error = Error(code: Option<string>, aborted: bool)

  function ErrorOf(r: Reply): Error
    requires r != Confirmed
  {
    match r
    case Unconfirmed => Error(None, false)
    case Rejected(code) => Error(code, false)
    case Aborted => Error(None, true)
  }

  /** The callback's own error, unless the connection could not be disposed. */
  predicate CallbackError(a: Attempt, o: Outcome)
    requires a.callback.Throws?
  {
    o.Failed? && !o.aborted && (if a.releaseThrows then o.kind == Disposal else o.kind == Plain && o.code == a.callback.code)
  }

  /** Every await of the attempt brings the one answer that lets it go on. */
  predicate AllConfirmed(a: Attempt) {
    && a.acquire.Acquired? && (forall i :: 0 <= i < |a.setup| ==> a.setup[i] == Confirmed)
    && a.callback.Returns? && !a.escaped && a.continuity.Confirmed?
    && a.commit.CommitConfirmed? && a.discard.Confirmed? && !a.releaseThrows
  }

  /** What an attempt guarantees, whatever happens at its awaits. */
  ghost predicate AttemptOk(a: Attempt, o: Outcome, t: Trace) {
    && |t.releases| == (if HasClient(a) then 1 else 0)
    && (Reused(t) ==> t.commitConfirmed && t.discardConfirmed)
    && (t.commitConfirmed ==> t.landed && t.commitDispatched)
    && (o.Returned? <==> AllConfirmed(a))
    && (o.Returned? ==> t.commitConfirmed && t.discardConfirmed && t.callbackRan)
    && (o.Failed? && o.kind == PostCommitRelease ==> t.commitConfirmed)
    && (o.Failed? && o.kind == Ambiguous ==> t.commitDispatched && !t.commitConfirmed)
    && (OutcomeKnown(o) && !a.escaped ==> !t.landed)
    && (o.Failed? && Retryable(o.code) ==> o.kind == Plain && !t.commitDispatched)
    && (a.acquire.Acquired? && (forall i :: 0 <= i < |a.setup| ==> a.setup[i] == Confirmed) ==> t.callbackRan)
    && (t.callbackRan && a.escaped ==> t.landed)
    && (t.callbackRan && a.callback.Throws? ==> !t.commitDispatched && CallbackError(a, o))
    && (t.callbackRan && a.callback.Returns? && ((a.escaped && a.continuity.Confirmed?) || a.continuity.Unconfirmed?) ==>
          o.Failed? && o.kind == Ambiguous)
  }

  /** The error of the first statement that was not confirmed. */
  function FirstError(setup: seq<Reply>): Option<Error> {
    if |setup| == 0 then None
    else if FirstError(setup[..|setup| - 1]).Some? then FirstError(setup[..|setup| - 1])
    else if setup[|setup| - 1] == Confirmed then None
    else Some(ErrorOf(setup[|setup| - 1]))
  }

  /** An attempt that failed before its commit was confirmed: the client is destroyed. */
  function NotCommitted(a: Attempt, e: Error, ran: bool, landed: bool, dispatched: bool, definitive: bool): (Outcome, Trace) {
    (if dispatched && !definitive then Failed(Ambiguous, None, e.aborted)
     else if a.releaseThrows then Failed(Disposal, None, e.aborted)
     else Failed(Plain, e.code, e.aborted),
     Trace(dispatched, false, false, ran, landed, [true]))
  }

  function Committed(a: Attempt): (Outcome, Trace) {
    var discarded := a.discard == Confirmed;
    (if discarded && !a.releaseThrows then Returned else Failed(PostCommitRelease, None, false),
     Trace(true, true, discarded, true, true, [!discarded || a.abortBeforeRelease]))
  }

  /** After a callback that returned: the continuity sentinel and COMMIT. */
  function AfterCallback(a: Attempt): (Outcome, Trace) {
    match a.continuity
    case Rejected(code) => NotCommitted(a, Error(code, false), true, a.escaped, false, false)
    case Aborted => NotCommitted(a, Error(None, true), true, a.escaped, false, false)
    case Unconfirmed => NotCommitted(a, Error(None, false), true, a.escaped, true, false)
    case Confirmed =>
      if a.escaped then NotCommitted(a, Error(None, false), true, true, true, false)
      else
        match a.commit
        case CommitConfirmed => Committed(a)
        case CommandRollback => NotCommitted(a, Error(None, false), true, false, true, true)
        case OtherCommand(l) => NotCommitted(a, Error(None, false), true, l, true, false)
        case CommitRejected(code, l) => NotCommitted(a, Error(code, false), true, l, true, false)
        case CommitAborted(l) => NotCommitted(a, Error(None, true), true, l, true, false)
  }

  /** What runOnce does with an attempt. */
  function Attempted(a: Attempt): (Outcome, Trace) {
    if a.acquire.AcquireFails? then
      (Failed(Plain, a.acquire.code, a.acquire.aborted),
       Trace(false, false, false, false, false, if a.acquire.late then [true] else []))
    else if FirstError(a.setup).Some? then NotCommitted(a, FirstError(a.setup).value, false, false, false, false)
    else
      match a.callback
      case Throws(code) => NotCommitted(a, Error(code, false), true, a.escaped, false, false)
      case CallbackAborted => NotCommitted(a, Error(None, true), true, a.escaped, false, false)
      case Returns => AfterCallback(a)
  }

  lemma {:induction false} NoErrorMeansConfirmed(setup: seq<Reply>)
    ensures FirstError(setup).None? <==> forall i :: 0 <= i < |setup| ==> setup[i] == Confirmed
  {
    if |setup| > 0 { NoErrorMeansConfirmed(setup[..|setup| - 1]); }
  }

  lemma AttemptedIsOk(a: Attempt)
    ensures AttemptOk(a, Attempted(a).0, Attempted(a).1)
  {
    NoErrorMeansConfirmed(a.setup);
    hide FirstError;
  }

  lemma {:induction false} ErrorStays(setup: seq<Reply>, i: nat)
    requires i <= |setup| && FirstError(setup[..i]).Some?
    ensures FirstError(setup) == FirstError(setup[..i])
    decreases |setup| - i
  {
    if i < |setup| {
      assert setup[..i + 1][..i] == setup[..i];
      ErrorStays(setup, i + 1);
    } else {
      assert setup[..i] == setup;
    }
  }

  method RunOnce(a: Attempt) returns (o: Outcome, t: Trace)
    ensures (o, t) == Attempted(a)
    ensures AttemptOk(a, o, t)
  {
    AttemptedIsOk(a);
    hide AttemptOk, AllConfirmed, Retryable;
    if a.acquire.AcquireFails? {
      var late: seq<bool> := [];
      if a.acquire.late { late := [true]; }  // a client that arrives too late is destroyed
      return Failed(Plain, a.acquire.code, a.acquire.aborted), Trace(false, false, false, false, false, late);
    }
    var state, releases := Open, [];
    assert forall destroy: bool :: [] + [destroy] == [destroy];
    var disposalFailed := false;
    var committed, dispatched, definitivelyAborted := false, false, false;
    var discarded, callbackRan, landed := false, false, false;
    var error: Option<Error> := None;
    var kind := Plain;

    var i := 0;
    while i < |a.setup| && error.None?
      invariant 0 <= i <= |a.setup|
      invariant error == FirstError(a.setup[..i])
    {
      assert a.setup[..i + 1][..i] == a.setup[..i];
      if a.setup[i] != Confirmed { error := Some(ErrorOf(a.setup[i])); }
      i := i + 1;
    }
    if error.Some? { ErrorStays(a.setup, i); }
    assert a.setup[..|a.setup|] == a.setup;
    assert error == FirstError(a.setup);
    hide FirstError;
    if error.None? {
      callbackRan := true;
      landed := a.escaped;
      match a.callback {
        case Returns =>
        case Throws(code) => error := Some(Error(code, false));
        case CallbackAborted => error := Some(Error(None, true));
      }
    }
    if error.None? {
      if a.continuity.Rejected? || a.continuity.Aborted? {
        error := Some(ErrorOf(a.continuity));
      } else if a.continuity.Unconfirmed? || a.escaped {
        dispatched := true;  // the sentinel is not what it was: the original transaction may have committed
        error := Some(Error(None, false));
      }
    }
    if error.None? {
      dispatched := true;
      match a.commit {
        case CommitConfirmed => committed, landed := true, true;
        case CommandRollback => definitivelyAborted := true; error := Some(Error(None, false));
        case OtherCommand(l) => landed := l; error := Some(Error(None, false));
        case CommitRejected(code, l) => landed := l; error := Some(Error(code, false));
        case CommitAborted(l) => landed := l; error := Some(Error(None, true));
      }
    }
    if error.None? {
      if a.discard != Confirmed {
        state, releases := TerminalRelease(state, true, a.releaseThrows, releases);
        disposalFailed := a.releaseThrows;
        kind := PostCommitRelease;
        error := Some(Error(None, false));
      } else {
        discarded := true;
        if a.abortBeforeRelease { state, releases := TerminalRelease(state, true, a.releaseThrows, releases); }
        state, releases := TerminalRelease(state, false, a.releaseThrows, releases);
        if state == ReleaseFailed {
          kind := PostCommitRelease;
          error := Some(Error(None, false));
        }
      }
    }
    t := Trace(dispatched, committed, discarded, callbackRan, landed, releases);
    if error.None? { return Returned, t; }

    // catch
    if error.value.aborted && state == Open {  // the abort listener destroyed the client
      state, releases := TerminalRelease(state, true, a.releaseThrows, releases);
      disposalFailed := a.releaseThrows;
    }
    if state == Open {
      state, releases := TerminalRelease(state, true, a.releaseThrows, releases);
      disposalFailed := a.releaseThrows;
    }
    t := t.(releases := releases);
    if dispatched && !committed && !definitivelyAborted { return Failed(Ambiguous, None, error.value.aborted), t; }
    if !committed && disposalFailed { return Failed(Disposal, None, error.value.aborted), t; }
    o := Failed(kind, error.value.code, error.value.aborted);
  }

  /** The attempts of one call: none but the last can have dispatched COMMIT. */
  ghost predicate CallOk(attempts: seq<Attempt>, traces: seq<Trace>, maxRetries: nat) {
    && |traces| <= maxRetries + 1 && |traces| <= |attempts|
    && (forall i :: 0 <= i < |traces| - 1 ==> !traces[i].commitDispatched)
    && (forall i :: 0 <= i < |traces| ==> |traces[i].releases| == (if HasClient(attempts[i]) then 1 else 0))
    && (forall i :: 0 <= i < |traces| && Reused(traces[i]) ==> traces[i].commitConfirmed && traces[i].discardConfirmed)
  }

  predicate NoneEscape(attempts: seq<Attempt>) {
    forall i :: 0 <= i < |attempts| ==> !attempts[i].escaped
  }

  /** The number of attempts whose transaction is committed on the server. */
  function Landed(traces: seq<Trace>): nat {
    if |traces| == 0 then 0 else Landed(traces[..|traces| - 1]) + (if traces[|traces| - 1].landed then 1 else 0)
  }

  lemma NotRetryable()
    ensures !Retryable(None)
  {
  }

  lemma AttemptMeans(a: Attempt, o: Outcome, t: Trace)
    requires AttemptOk(a, o, t)
    ensures o.Returned? <==> AllConfirmed(a)
    ensures o.Returned? ==> t.commitConfirmed && t.landed
    ensures o.Failed? && o.kind == PostCommitRelease ==> t.commitConfirmed
    ensures OutcomeKnown(o) && !a.escaped ==> !t.landed
    ensures o.Failed? && Retryable(o.code) ==> OutcomeKnown(o) && !t.commitDispatched
    ensures |t.releases| == (if HasClient(a) then 1 else 0)
    ensures Reused(t) ==> t.commitConfirmed && t.discardConfirmed
  {
    hide Retryable, HasClient, AllConfirmed, Reused;
  }

  /** What runTransaction does from attempt k on. */
  function CallFrom(attempts: seq<Attempt>, maxRetries: nat, signal: seq<bool>, k: nat): (Outcome, seq<Trace>)
    requires |signal| == |attempts|
    decreases |attempts| - k
  {
    if k >= |attempts| || signal[k] then (Failed(Plain, None, true), [])
    else
      var (o, t) := Attempted(attempts[k]);
      if o.Returned? || !Retryable(o.code) || k >= maxRetries || attempts[k].signalAfter then (o, [t])
      else
        var (last, rest) := CallFrom(attempts, maxRetries, signal, k + 1);
        (last, [t] + rest)
  }

  lemma LandedCons(t: Trace, rest: seq<Trace>)
    ensures Landed([t] + rest) == (if t.landed then 1 else 0) + Landed(rest)
    decreases |rest|
  {
    if |rest| == 0 {
      assert [t] + rest == [t] && [t][..0] == [];
    } else {
      assert ([t] + rest)[..|rest|] == [t] + rest[..|rest| - 1];
      LandedCons(t, rest[..|rest| - 1]);
    }
  }

  /** At most one attempt lands, and the outcome says which of none and one, when no callback commits for itself. */
  ghost predicate OutcomeTells(o: Outcome, traces: seq<Trace>) {
    && Landed(traces) <= 1
    && (o.Returned? ==> Landed(traces) == 1)
    && (OutcomeKnown(o) ==> Landed(traces) == 0)
  }

  lemma {:induction false} CallTells(attempts: seq<Attempt>, maxRetries: nat, signal: seq<bool>, k: nat)
    requires |signal| == |attempts| && NoneEscape(attempts)
    ensures OutcomeTells(CallFrom(attempts, maxRetries, signal, k).0, CallFrom(attempts, maxRetries, signal, k).1)
    decreases |attempts| - k
  {
    hide Retryable, Attempted, AttemptOk, Landed, AllConfirmed;
    NothingLanded();
    if k < |attempts| && !signal[k] {
      var (o, t) := Attempted(attempts[k]);
      AttemptedIsOk(attempts[k]);
      AttemptMeans(attempts[k], o, t);
      LandedCons(t, []);
      assert [t] + [] == [t];
      if !(o.Returned? || !Retryable(o.code) || k >= maxRetries || attempts[k].signalAfter) {
        CallTells(attempts, maxRetries, signal, k + 1);
        LandedCons(t, CallFrom(attempts, maxRetries, signal, k + 1).1);
      }
    }
  }

  lemma NothingLanded()
    ensures Landed([]) == 0
  {
  }

  /** The shape of a call, whatever its callbacks do. */
  lemma {:induction false} CallShape(attempts: seq<Attempt>, maxRetries: nat, signal: seq<bool>, k: nat)
    requires |signal| == |attempts| && k <= maxRetries
    ensures var (o, traces) := CallFrom(attempts, maxRetries, signal, k);
            && CallOk(attempts[if k <= |attempts| then k else |attempts|..], traces, maxRetries - k)
            && (o.Returned? ==> |traces| > 0 && traces[|traces| - 1].commitConfirmed)
            && (o.Failed? && o.kind == PostCommitRelease ==> |traces| > 0 && traces[|traces| - 1].commitConfirmed)
            && (o.Failed? && Retryable(o.code) ==>
                  |traces| > 0 && (k + |traces| > maxRetries || attempts[k + |traces| - 1].signalAfter))
    decreases |attempts| - k
  {
    hide Retryable, Attempted, AttemptOk, AllConfirmed, Reused, HasClient;
    NotRetryable();
    if k < |attempts| && !signal[k] {
      var (o, t) := Attempted(attempts[k]);
      AttemptedIsOk(attempts[k]);
      AttemptMeans(attempts[k], o, t);
      if !(o.Returned? || !Retryable(o.code) || k >= maxRetries || attempts[k].signalAfter) {
        CallShape(attempts, maxRetries, signal, k + 1);
        var rest := CallFrom(attempts, maxRetries, signal, k + 1).1;
        assert attempts[k..][1..] == attempts[k + 1..];
        forall i | 0 <= i < |rest| + 1 ensures |([t] + rest)[i].releases| == (if HasClient(attempts[k..][i]) then 1 else 0) {
          if i > 0 { assert ([t] + rest)[i] == rest[i - 1] && attempts[k..][i] == attempts[k + 1..][i - 1]; }
        }
      }
    }
  }

  /**
   * runTransaction: at most one commit, whatever faults occur. A returned result means exactly one attempt
   * committed and was confirmed; an error other than AmbiguousCommitError and PostCommitReleaseError means
   * that none did; a retryable error is given up on only when the retries are used up or the signal has fired.
   * `signal` is whether the caller's signal or the deadline has fired before each attempt.
   */
  method RunTransaction(attempts: seq<Attempt>, maxRetries: nat, signal: seq<bool>)
    returns (o: Outcome, traces: seq<Trace>)
    requires |signal| == |attempts|
    ensures (o, traces) == CallFrom(attempts, maxRetries, signal, 0)
    ensures CallOk(attempts, traces, maxRetries)
    ensures NoneEscape(attempts) ==> OutcomeTells(o, traces)
    ensures o.Returned? || (o.Failed? && o.kind == PostCommitRelease) ==> |traces| > 0 && traces[|traces| - 1].commitConfirmed
    ensures o.Failed? && Retryable(o.code) ==>
              |traces| > 0 && (|traces| > maxRetries || attempts[|traces| - 1].signalAfter)
    ensures |attempts| > 0 && !signal[0] && AllConfirmed(attempts[0]) ==> o.Returned?
  {
    hide AttemptOk, AllConfirmed, CallOk, NoneEscape, Retryable, Landed, OutcomeTells, CallFrom;
    WholeCall(attempts, maxRetries, signal);
    o, traces := RetryLoop(attempts, maxRetries, signal);
  }

  method RetryLoop(attempts: seq<Attempt>, maxRetries: nat, signal: seq<bool>) returns (o: Outcome, traces: seq<Trace>)
    requires |signal| == |attempts|
    ensures (o, traces) == CallFrom(attempts, maxRetries, signal, 0)
  {
    hide AttemptOk, Retryable, Attempted, CallFrom;
    ghost var whole := CallFrom(attempts, maxRetries, signal, 0);
    traces := [];
    var attempt := 0;
    while attempt < |attempts|
      invariant attempt <= |attempts| && attempt <= maxRetries
      invariant whole.0 == CallFrom(attempts, maxRetries, signal, attempt).0
      invariant whole.1 == traces + CallFrom(attempts, maxRetries, signal, attempt).1
    {
      Unfold(attempts, maxRetries, signal, attempt);
      ghost var done := traces;
      assert traces + [] == traces;
      if signal[attempt] { return Failed(Plain, None, true), traces; }
      var t;
      o, t := RunOnce(attempts[attempt]);
      traces := traces + [t];
      if o.Returned? || !Retryable(o.code) || attempt >= maxRetries || attempts[attempt].signalAfter { return; }
      attempt := attempt + 1;
      OneTraceMore(done, t, CallFrom(attempts, maxRetries, signal, attempt).1);
    }
    Unfold(attempts, maxRetries, signal, attempt);
    o := Failed(Plain, None, true);  // the deadline fired while waiting to retry
  }

  lemma OneTraceMore(done: seq<Trace>, t: Trace, rest: seq<Trace>)
    ensures done + ([t] + rest) == (done + [t]) + rest
  {
  }

  lemma WholeCall(attempts: seq<Attempt>, maxRetries: nat, signal: seq<bool>)
    requires |signal| == |attempts|
    ensures var (o, traces) := CallFrom(attempts, maxRetries, signal, 0);
            && CallOk(attempts, traces, maxRetries)
            && (NoneEscape(attempts) ==> OutcomeTells(o, traces))
            && (o.Returned? || (o.Failed? && o.kind == PostCommitRelease) ==> |traces| > 0 && traces[|traces| - 1].commitConfirmed)
            && (o.Failed? && Retryable(o.code) ==> |traces| > 0 && (|traces| > maxRetries || attempts[|traces| - 1].signalAfter))
            && (|attempts| > 0 && !signal[0] && AllConfirmed(attempts[0]) ==> o.Returned?)
  {
    hide AttemptOk, AllConfirmed, CallOk, Retryable, Landed, Attempted, OutcomeTells, CallFrom;
    CallShape(attempts, maxRetries, signal, 0);
    if NoneEscape(attempts) { CallTells(attempts, maxRetries, signal, 0); }
    assert attempts[0..] == attempts;
    if |attempts| > 0 { FirstConfirmed(attempts, maxRetries, signal); }
  }

  lemma Unfold(attempts: seq<Attempt>, maxRetries: nat, signal: seq<bool>, k: nat)
    requires |signal| == |attempts| && k <= |attempts|
    ensures k == |attempts| || signal[k] ==> CallFrom(attempts, maxRetries, signal, k) == (Failed(Plain, None, true), [])
    ensures k < |attempts| && !signal[k] ==>
              var (o, t) := Attempted(attempts[k]);
              var (last, rest) := CallFrom(attempts, maxRetries, signal, k + 1);
              CallFrom(attempts, maxRetries, signal, k) ==
                if o.Returned? || !Retryable(o.code) || k >= maxRetries || attempts[k].signalAfter then (o, [t])
                else (last, [t] + rest)
  {
  }

  lemma FirstConfirmed(attempts: seq<Attempt>, maxRetries: nat, signal: seq<bool>)
    requires |signal| == |attempts| > 0
    ensures !signal[0] && AllConfirmed(attempts[0]) ==> CallFrom(attempts, maxRetries, signal, 0).0.Returned?
  {
    hide AllConfirmed, Attempted, AttemptOk;
    AttemptedIsOk(attempts[0]);
    AttemptMeans(attempts[0], Attempted(attempts[0]).0, Attempted(attempts[0]).1);
  }

  // ---- Callbacks that commit for themselves ----

  /** The executor refuses a text the scanner does not accept, so it takes an accepted one to commit early. */
  ghost predicate CanEscape(sent: seq<JsString>) {
    exists i :: 0 <= i < |sent| && SqlScanner.Acceptable(sent[i]) && EarlyCommit.HoldsCommit(sent[i])
  }

  /** Attempts that can occur when callbacks write their statements over a set of code units. */
  ghost predicate Possible(a: Attempt, units: set<int>) {
    && (forall i :: 0 <= i < |a.sent| ==> ServerLexing.Over(a.sent[i], units))
    && (a.escaped ==> CanEscape(a.sent))
  }

  ghost predicate Permitted(attempts: seq<Attempt>, signal: seq<bool>, units: set<int>) {
    |signal| == |attempts| && forall i :: 0 <= i < |attempts| ==> Possible(attempts[i], units)
  }

  /** An attempt whose callback commits with a text and then reports a serialization failure. */
  function Escaping(text: JsString): Attempt {
    Attempt(Acquired, [], [text], Throws(Some("40001")), true, Confirmed, CommitConfirmed, Confirmed, false, false, false)
  }

  lemma PermittedStays(attempts: seq<Attempt>, signal: seq<bool>, units: set<int>)
    requires Permitted(attempts, signal, units) && !EarlyCommit.CommitWritable(units)
    ensures NoneEscape(attempts)
  {
    hide SqlScanner.Acceptable, EarlyCommit.HoldsCommit, EarlyCommit.CommitWritable, ServerLexing.Over;
    EarlyCommit.CommitWritableExactly(units);
    forall i | 0 <= i < |attempts| ensures !attempts[i].escaped { assert Possible(attempts[i], units); }
  }

  lemma EscapingIsPossible(units: set<int>) returns (text: JsString)
    requires EarlyCommit.CommitWritable(units)
    ensures Possible(Escaping(text), units) && Possible(Escaping(text).(signalAfter := true), units)
  {
    hide SqlScanner.Acceptable, EarlyCommit.HoldsCommit, EarlyCommit.CommitWritable, ServerLexing.Over;
    EarlyCommit.CommitWritableExactly(units);
    text :| ServerLexing.Over(text, units) && SqlScanner.Acceptable(text) && EarlyCommit.HoldsCommit(text);
    assert Escaping(text).sent[0] == text;
  }

  /**
   * Under every fault at most one attempt lands exactly when there are no retries, which is the default, or the
   * callbacks write their statements over code units in which no accepted text can hold a commit.
   */
  lemma AtMostOnceExactly(maxRetries: nat, units: set<int>)
    ensures maxRetries == 0 || !EarlyCommit.CommitWritable(units) <==>
            forall attempts, signal | Permitted(attempts, signal, units) ::
              Landed(CallFrom(attempts, maxRetries, signal, 0).1) <= 1
  {
    hide EarlyCommit.CommitWritable, Possible, Landed, CallFrom, Escaping;
    if maxRetries == 0 || !EarlyCommit.CommitWritable(units) {
      forall attempts, signal | Permitted(attempts, signal, units)
        ensures Landed(CallFrom(attempts, maxRetries, signal, 0).1) <= 1
      {
        if maxRetries == 0 {
          OneAttempt(attempts, signal);
        } else {
          PermittedStays(attempts, signal, units);
          CallTells(attempts, maxRetries, signal, 0);
        }
      }
    } else {
      var text := EscapingIsPossible(units);
      TwoLand(maxRetries, text);
      assert Permitted([Escaping(text), Escaping(text)], [false, false], units);
    }
  }

  lemma OneAttempt(attempts: seq<Attempt>, signal: seq<bool>)
    requires |signal| == |attempts|
    ensures Landed(CallFrom(attempts, 0, signal, 0).1) <= 1
  {
    hide Attempted, Retryable, Landed;
    NothingLanded();
    if |attempts| > 0 {
      var t := Attempted(attempts[0]).1;
      LandedCons(t, []);
      assert [t] + [] == [t];
    }
  }

  lemma TwoLand(maxRetries: nat, text: JsString)
    requires maxRetries >= 1
    ensures Landed(CallFrom([Escaping(text), Escaping(text)], maxRetries, [false, false], 0).1) == 2
  {
    var attempts, signal := [Escaping(text), Escaping(text)], [false, false];
    var t := Attempted(Escaping(text)).1;
    EscapedCommitIsRetried(Escaping(text));
    hide Attempted;
    NothingLanded();
    LandedCons(t, []);
    LandedCons(t, [t]);
    assert [t] + [] == [t];
    var rest := CallFrom(attempts, maxRetries, signal, 2).1;
    assert rest == [];
    assert CallFrom(attempts, maxRetries, signal, 1).1 == [t];
    assert CallFrom(attempts, maxRetries, signal, 0).1 == [t] + [t];
  }

  lemma OneLandsUnknown(maxRetries: nat, text: JsString)
    ensures var last := Escaping(text).(signalAfter := true);
            && OutcomeKnown(CallFrom([last], maxRetries, [false], 0).0)
            && Landed(CallFrom([last], maxRetries, [false], 0).1) == 1
  {
    var last := Escaping(text).(signalAfter := true);
    EscapedCommitIsRetried(last);
    var t := Attempted(last).1;
    hide Attempted;
    NothingLanded();
    LandedCons(t, []);
    assert [t] + [] == [t];
    assert CallFrom([last], maxRetries, [false], 0) == (Attempted(last).0, [t]);
  }

  /**
   * An error of a known outcome means that nothing landed exactly when the callbacks write their statements over
   * such code units.
   */
  lemma KnownOutcomeExactly(maxRetries: nat, units: set<int>)
    ensures !EarlyCommit.CommitWritable(units) <==>
            forall attempts, signal | Permitted(attempts, signal, units) ::
              OutcomeKnown(CallFrom(attempts, maxRetries, signal, 0).0) ==>
                Landed(CallFrom(attempts, maxRetries, signal, 0).1) == 0
  {
    hide EarlyCommit.CommitWritable, Possible, Landed, CallFrom, Escaping, OutcomeKnown;
    if !EarlyCommit.CommitWritable(units) {
      forall attempts, signal | Permitted(attempts, signal, units)
        ensures OutcomeKnown(CallFrom(attempts, maxRetries, signal, 0).0) ==>
                  Landed(CallFrom(attempts, maxRetries, signal, 0).1) == 0
      {
        PermittedStays(attempts, signal, units);
        CallTells(attempts, maxRetries, signal, 0);
      }
    } else {
      var text := EscapingIsPossible(units);
      OneLandsUnknown(maxRetries, text);
      assert Permitted([Escaping(text).(signalAfter := true)], [false], units);
    }
  }

  /** Such a callback, with a text that is a SELECT to the scanner: both attempts of a call with a retry land. */
  lemma SelectLandsTwice(maxRetries: nat)
    requires maxRetries >= 1
    ensures var a := Escaping(EarlyCommit.Units(EarlyCommit.SelectCommit));
            CanEscape(a.sent) && Landed(CallFrom([a, a], maxRetries, [false, false], 0).1) == 2
  {
    hide SqlScanner.Acceptable, EarlyCommit.HoldsCommit, EarlyCommit.Units, Landed, CallFrom;
    EarlyCommit.SelectCommitIsBoth();
    var text := EarlyCommit.Units(EarlyCommit.SelectCommit);
    assert Escaping(text).sent[0] == text;
    TwoLand(maxRetries, text);
  }

  /**
   * When a callback has committed for itself and a serialization failure is then reported, the attempt has landed
   * and meets every condition runTransaction retries on.
   */
  lemma EscapedCommitIsRetried(a: Attempt)
    requires a.acquire.Acquired? && FirstError(a.setup).None?
    requires a.escaped && a.callback == Throws(Some("40001")) && !a.releaseThrows
    ensures var (o, t) := Attempted(a); t.landed && OutcomeKnown(o) && Retryable(o.code)
  {
  }
}
