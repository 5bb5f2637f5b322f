/**
 Lease state of a transport batch: a dictionary updated in place by lease, claim-clearing and timeout
 helpers, and what it means in terms of the history of those updates.

 Instants are reals (seconds); the ISO text they are stored as is not modelled.
 */
module BatchLease {
  import opened PyValue

  const DEFAULT_LEASE_SECONDS := 60.0

  /** The `lease_seconds` argument: absent, a number, or something `float()` refuses. */
  datatype LeaseArg = NoLease | Seconds(seconds: real) | NotANumber

  /** A lease lasts as long as it is asked to, never less than no time, and by default a minute. */
  predicate Lasts(arg: LeaseArg, seconds: real) {
    && seconds >= 0.0
    && (arg.Seconds? && arg.seconds >= 0.0 ==> seconds == arg.seconds)
    && (arg.Seconds? && arg.seconds < 0.0 ==> seconds == 0.0)
    && (!arg.Seconds? ==> seconds == 60.0)
  }

  function CoerceLease(arg: LeaseArg): (seconds: real)
    ensures Lasts(arg, seconds)
  {
    match arg
    case NoLease => DEFAULT_LEASE_SECONDS
    case Seconds(s) => if s < 0.0 then 0.0 else s
    case NotANumber => DEFAULT_LEASE_SECONDS
  }

  /** The keys of a batch that the helpers read or write; `None` is an absent key. */
  datatype State = State(
    runtimeId: Value, previousRuntimeId: Option<string>, claimedByNodeId: Value,
    heartbeatAt: Option<real>, leaseSeconds: Option<real>, leaseExpiresAt: Option<real>,
    status: string, updatedAt: Option<real>, timedOutAt: Option<real>, timeoutReason: Option<string>,
    lastError: Option<string>, error: Option<string>, retryable: Option<bool>)

  /** One update.  `Claim` is the assignment of a runtime and node id by the code that claims a batch. */
  datatype Op =
    | Apply(now: real, arg: LeaseArg)
    | Clear
    | MarkTimedOut(now: real, message: string, reason: string)
    | Claim(runtimeId: Value, nodeId: Value)

  function Step(st: State, op: Op): State {
    match op
    case Apply(now, arg) =>
      st.(heartbeatAt := Some(now), leaseSeconds := Some(CoerceLease(arg)),
          leaseExpiresAt := Some(now + CoerceLease(arg)))
    case Clear =>
      st.(previousRuntimeId := if Clean(st.runtimeId) != "" then Some(Clean(st.runtimeId)) else st.previousRuntimeId,
          runtimeId := Null, heartbeatAt := None, leaseExpiresAt := None, leaseSeconds := None, claimedByNodeId := Null)
    case MarkTimedOut(now, message, reason) =>
      st.(status := "timed_out", updatedAt := Some(now), timedOutAt := Some(now), timeoutReason := Some(reason),
          lastError := Some(message), error := Some(message), retryable := Some(false))
    case Claim(runtimeId, nodeId) => st.(runtimeId := runtimeId, claimedByNodeId := nodeId)
  }

  /** A batch that was never claimed, leased or timed out. */
  predicate Untouched(st: State) {
    && st.runtimeId == Null && st.previousRuntimeId == None && st.leaseExpiresAt == None && st.leaseSeconds == None
    && st.heartbeatAt == None && st.timedOutAt == None && st.retryable != Some(false)
  }

  function Run(st: State, ops: seq<Op>): State {
    if ops == [] then st else Step(Run(st, ops[..|ops| - 1]), ops[|ops| - 1])
  }

  /** A lease without a readable expiry counts as expired. */
  predicate Expired(st: State, now: real) {
    st.leaseExpiresAt.Some? ==> st.leaseExpiresAt.value <= now
  }

  class Batch {
    var entries: State

    constructor (initial: State)
      ensures entries == initial
    {
      entries := initial;
    }

    method ApplyLease(now: real, arg: LeaseArg)
      modifies this
      ensures entries == Step(old(entries), Apply(now, arg))
    {
      var seconds := CoerceLease(arg);
      entries := entries.(heartbeatAt := Some(now));
      entries := entries.(leaseSeconds := Some(seconds));
      entries := entries.(leaseExpiresAt := Some(now + seconds));
    }

    method ClearClaim()
      modifies this
      ensures entries == Step(old(entries), Clear)
    {
      var runtimeId := Clean(entries.runtimeId);
      if runtimeId != "" {
        entries := entries.(previousRuntimeId := Some(runtimeId));
      }
      entries := entries.(runtimeId := Null);
      entries := entries.(heartbeatAt := None);
      entries := entries.(leaseExpiresAt := None);
      entries := entries.(leaseSeconds := None);
      entries := entries.(claimedByNodeId := Null);
    }

    method TimeOut(now: real, message: string, reason: string)
      modifies this
      ensures entries == Step(old(entries), MarkTimedOut(now, message, reason))
    {
      entries := entries.(status := "timed_out");
      entries := entries.(updatedAt := Some(now));
      entries := entries.(timedOutAt := Some(now));
      entries := entries.(timeoutReason := Some(reason));
      entries := entries.(lastError := Some(message), error := Some(message));
      entries := entries.(retryable := Some(false));
    }

    method LeaseExpired(now: real) returns (expired: bool)
      ensures expired == Expired(entries, now)
    {
      if entries.leaseExpiresAt.None? {
        return true;
      }
      return entries.leaseExpiresAt.value <= now;
    }
  }

  // ---------------------------------------------------------------- meaning over histories

  /** Update `i` is the last lease of the history and no clear follows it. */
  predicate LiveLease(ops: seq<Op>, i: int) {
    0 <= i < |ops| && ops[i].Apply? && forall j :: i < j < |ops| ==> !ops[j].Apply? && !ops[j].Clear?
  }

  /** What the stored expiry is, in terms of the history. */
  lemma {:induction false} StoredExpiry(st: State, ops: seq<Op>)
    requires Untouched(st)
    ensures match Run(st, ops).leaseExpiresAt
            case Some(t) => exists i :: LiveLease(ops, i) && t == ops[i].now + CoerceLease(ops[i].arg)
            case None => forall i :: !LiveLease(ops, i)
  {
    if ops == [] {
    } else {
      var n := |ops| - 1;
      var before, op := ops[..n], ops[n];
      StoredExpiry(st, before);
      if op.Apply? {
        assert LiveLease(ops, n);
      } else if !op.Clear? {
        forall i ensures LiveLease(ops, i) <==> LiveLease(before, i) {
          if LiveLease(before, i) {
            forall j | i < j < |ops| ensures !ops[j].Apply? && !ops[j].Clear? {
              if j < n { assert before[j] == ops[j]; }
            }
          }
          if LiveLease(ops, i) {
            forall j | i < j < n ensures !before[j].Apply? && !before[j].Clear? { assert before[j] == ops[j]; }
          }
        }
      }
    }
  }

  /**
   Lease history: after any updates the lease is expired at `t` exactly when the last lease not followed
   by a clear, if there is one, has run out by `t`.
   */
  lemma ExpiredMeansHistory(st: State, ops: seq<Op>, t: real)
    requires Untouched(st)
    ensures Expired(Run(st, ops), t) <==> forall i :: LiveLease(ops, i) ==> ops[i].now + CoerceLease(ops[i].arg) <= t
  {
    StoredExpiry(st, ops);
    forall i, j | LiveLease(ops, i) && LiveLease(ops, j) ensures i == j {
      LiveLeaseIsUnique(ops, i, j);
    }
  }

  lemma LiveLeaseIsUnique(ops: seq<Op>, i: int, j: int)
    requires LiveLease(ops, i) && LiveLease(ops, j)
    ensures i == j
  {
  }

  /** The runtime id a history leaves in place: the last claimed one, unless it was cleared since. */
  function Held(ops: seq<Op>): string {
    if ops == [] then ""
    else
      match ops[|ops| - 1]
      case Claim(id, _) => Clean(id)
      case Clear => ""
      case _ => Held(ops[..|ops| - 1])
  }

  /** Update `i` cleared a non-empty runtime id. */
  predicate Cleared(ops: seq<Op>, i: int) { 0 <= i < |ops| && ops[i].Clear? && Held(ops[..i]) != "" }

  /** Update `i` is the last one that cleared a non-empty runtime id. */
  ghost predicate LastCleared(ops: seq<Op>, i: int) { Cleared(ops, i) && forall j :: j > i ==> !Cleared(ops, j) }

  lemma {:induction false} HeldIsStored(st: State, ops: seq<Op>)
    requires Untouched(st)
    ensures Clean(Run(st, ops).runtimeId) == Held(ops)
  {
    if ops == [] {
    } else {
      HeldIsStored(st, ops[..|ops| - 1]);
    }
  }

  lemma ClearedBefore(ops: seq<Op>, n: nat, i: int)
    requires |ops| == n + 1 && i != n
    ensures Cleared(ops, i) <==> Cleared(ops[..n], i)
    ensures 0 <= i < n ==> ops[..n][..i] == ops[..i]
  {
    if 0 <= i < n { assert ops[..n][..i] == ops[..i] && ops[..n][i] == ops[i]; }
  }

  /** An update that clears nothing leaves the last cleared one as it was. */
  lemma LastClearedStays(ops: seq<Op>, n: nat, i: int)
    requires |ops| == n + 1 && !Cleared(ops, n) && LastCleared(ops[..n], i)
    ensures LastCleared(ops, i) && ops[..i] == ops[..n][..i]
  {
    ClearedBefore(ops, n, i);
    forall j | j > i ensures !Cleared(ops, j) {
      if j != n { ClearedBefore(ops, n, j); }
    }
  }

  lemma PreviousStep(st: State, ops: seq<Op>, n: nat)
    requires Untouched(st) && |ops| == n + 1
    ensures Run(st, ops).previousRuntimeId ==
              if Cleared(ops, n) then Some(Held(ops[..n])) else Run(st, ops[..n]).previousRuntimeId
  {
    HeldIsStored(st, ops[..n]);
  }

  /** `previousRuntimeId` is the last non-empty runtime id that was cleared, and absent if there was none. */
  lemma {:induction false} PreviousIsLastCleared(st: State, ops: seq<Op>)
    requires Untouched(st)
    ensures match Run(st, ops).previousRuntimeId
            case Some(id) => exists i :: LastCleared(ops, i) && id == Held(ops[..i])
            case None => forall i :: !Cleared(ops, i)
  {
    if ops == [] {
    } else {
      var n := |ops| - 1;
      PreviousStep(st, ops, n);
      if Cleared(ops, n) {
        assert LastCleared(ops, n);
      } else {
        PreviousIsLastCleared(st, ops[..n]);
        if Run(st, ops[..n]).previousRuntimeId.Some? {
          var i :| LastCleared(ops[..n], i) && Run(st, ops[..n]).previousRuntimeId == Some(Held(ops[..n][..i]));
          LastClearedStays(ops, n, i);
        } else {
          forall i ensures !Cleared(ops, i) {
            if i != n { ClearedBefore(ops, n, i); }
          }
        }
      }
    }
  }

  /** Update `i` is the last timeout mark of the history. */
  predicate LastMark(ops: seq<Op>, i: int) {
    0 <= i < |ops| && ops[i].MarkTimedOut? && forall j :: i < j < |ops| ==> !ops[j].MarkTimedOut?
  }

  predicate Stamped(st: State, op: Op)
    requires op.MarkTimedOut?
  {
    && st.status == "timed_out" && st.timedOutAt == Some(op.now) && st.updatedAt == Some(op.now)
    && st.timeoutReason == Some(op.reason) && st.error == Some(op.message) && st.lastError == Some(op.message)
  }

  /** A batch is not retryable exactly from its first timeout mark on, and then carries the last mark. */
  lemma {:induction false} TimeoutIsSticky(st: State, ops: seq<Op>)
    requires Untouched(st)
    ensures Run(st, ops).retryable == Some(false) <==> exists i :: LastMark(ops, i)
    ensures forall i :: LastMark(ops, i) ==> Stamped(Run(st, ops), ops[i])
  {
    if ops == [] {
    } else {
      var n := |ops| - 1;
      var before := ops[..n];
      TimeoutIsSticky(st, before);
      if ops[n].MarkTimedOut? {
        assert LastMark(ops, n);
      } else {
        forall i ensures LastMark(ops, i) <==> LastMark(before, i) {
          if LastMark(before, i) {
            forall j | i < j < |ops| ensures !ops[j].MarkTimedOut? { if j < n { assert before[j] == ops[j]; } }
          }
          if LastMark(ops, i) {
            forall j | i < j < n ensures !before[j].MarkTimedOut? { assert before[j] == ops[j]; }
          }
        }
      }
    }
  }
}
