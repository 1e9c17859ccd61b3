/**
 * The coordinator's message handling: the table of client schedules, the grant
 * of the lowest-index pending job, and the dispatch of one inbound message
 * code.  Each handler is a pure transition from the coordinator's state to a
 * new state and the tokens it sends back; the exceptions the handlers raise
 * become an `Aborted` step carrying what had been sent and changed by then.
 */
module Coordinator {
  import opened Messages
  import opened ScheduleStream

  /** Everything a handler reads or writes; the global model is an opaque serialised blob. */
  datatype State = State(schedules: seq<ClientSchedule>, totalUpdates: int, totalTrajectories: int, model: seq<Byte>)

  /** The state the coordinator loop starts from: no schedules and zero counters. */
  function Initial(model: seq<Byte>): State {
    State([], 0, 0, model)
  }

  predicate IsPending(cs: ClientSchedule) {
    cs.job.status == Pending
  }

  /** `i` is the lowest index of the table holding a pending job. */
  predicate IsFirstPending(s: seq<ClientSchedule>, i: int) {
    0 <= i < |s| && IsPending(s[i]) && forall k | 0 <= k < i :: !IsPending(s[k])
  }

  predicate NonePending(s: seq<ClientSchedule>) {
    forall k | 0 <= k < |s| :: !IsPending(s[k])
  }

  /** How many jobs of the table are pending. */
  function PendingCount(s: seq<ClientSchedule>): nat {
    if s == [] then 0 else (if IsPending(s[0]) then 1 else 0) + PendingCount(s[1..])
  }

  /** The scan of the table from index `from` upward for a pending job. */
  function FirstPending(s: seq<ClientSchedule>, from: nat): (r: Wrappers.Option<nat>)
    requires from <= |s|
    decreases |s| - from
    ensures r.Some? ==> from <= r.value < |s| && IsPending(s[r.value])
    ensures r.Some? ==> forall k | from <= k < r.value :: !IsPending(s[k])
    ensures r.None? ==> forall k | from <= k < |s| :: !IsPending(s[k])
  {
    if from == |s| then Wrappers.None
    else if IsPending(s[from]) then Wrappers.Some(from)
    else FirstPending(s, from + 1)
  }

  /** The job marked as handed out to a worker; nothing else about it changes. */
  function MarkWaiting(cs: ClientSchedule): ClientSchedule {
    cs.(job := cs.job.(status := Waiting))
  }

  /** The reply granting job `i`: its index, window and step budget. */
  function ScheduleReply(i: nat, j: Job): seq<Token> {
    [Int(MSG_SCHEDULE), Int(i), Int(j.startTime), Int(j.endTime), Int(j.steps)]
  }

  datatype Granted = Granted(schedules: seq<ClientSchedule>, reply: seq<Token>)

  /**
   * Handling of a schedule request: hand out the lowest-index pending job and
   * mark it waiting, or tell the worker to sleep when no job is pending.
   */
  function Grant(s: seq<ClientSchedule>): (g: Granted)
    ensures forall i | IsFirstPending(s, i) ::
      && |g.schedules| == |s|
      && g.schedules[i].job.status == Waiting
      && g.schedules[i].bounds == s[i].bounds
      && g.schedules[i].engine == s[i].engine
      && g.schedules[i].job.startTime == s[i].job.startTime
      && g.schedules[i].job.endTime == s[i].job.endTime
      && g.schedules[i].job.steps == s[i].job.steps
      && (forall k | 0 <= k < |s| && k != i :: g.schedules[k] == s[k])
      && g.reply == [Int(MSG_SCHEDULE), Int(i), Int(s[i].job.startTime), Int(s[i].job.endTime), Int(s[i].job.steps)]
      && PendingCount(g.schedules) == PendingCount(s) - 1
    ensures NonePending(s) ==> g.schedules == s && g.reply == [Int(MSG_SLEEP)]
  {
    match FirstPending(s, 0)
    case None => Granted(s, [Int(MSG_SLEEP)])
    case Some(i) =>
      PendingCountAfterGrant(s, i);
      Granted(s[i := MarkWaiting(s[i])], ScheduleReply(i, s[i].job))
  }

  /** Marking one pending job waiting lowers the pending count by exactly one. */
  lemma {:induction false} PendingCountAfterGrant(s: seq<ClientSchedule>, i: nat)
    requires i < |s| && IsPending(s[i])
    ensures PendingCount(s[i := MarkWaiting(s[i])]) == PendingCount(s) - 1
  {
    var s' := s[i := MarkWaiting(s[i])];
    if i == 0 {
      assert s'[1..] == s[1..];
    } else {
      assert s'[1..] == s[1..][i - 1 := MarkWaiting(s[i])];
      PendingCountAfterGrant(s[1..], i - 1);
    }
  }

  /** The pending count is zero exactly when no job of the table is pending. */
  lemma {:induction false} PendingCountZeroIff(s: seq<ClientSchedule>)
    ensures PendingCount(s) == 0 <==> NonePending(s)
  {
    if s != [] {
      PendingCountZeroIff(s[1..]);
      assert forall k | 1 <= k < |s| :: s[k] == s[1..][k - 1];
    }
  }

  /** Serve `n` schedule requests in a row, keeping only the resulting table. */
  function GrantTimes(s: seq<ClientSchedule>, n: nat): seq<ClientSchedule>
    decreases n
  {
    if n == 0 then s else GrantTimes(Grant(s).schedules, n - 1)
  }

  /**
   * Once as many requests as there were pending jobs have been served, no job
   * is pending any more and the next request is told to sleep.
   */
  lemma {:induction false} GrantsExhaustPending(s: seq<ClientSchedule>)
    ensures NonePending(GrantTimes(s, PendingCount(s)))
    ensures Grant(GrantTimes(s, PendingCount(s))).reply == [Int(MSG_SLEEP)]
    decreases PendingCount(s)
  {
    PendingCountZeroIff(s);
    if PendingCount(s) > 0 {
      var i := FirstPending(s, 0).value;
      assert IsFirstPending(s, i);
      var g := Grant(s).schedules;
      assert PendingCount(g) == PendingCount(s) - 1;
      assert GrantTimes(s, PendingCount(s)) == GrantTimes(g, PendingCount(g));
      GrantsExhaustPending(g);
    }
  }

  /** Why a handler gave up: an unimplemented handler or an unknown message code. */
  datatype Fault = NotImplemented | UnknownMessage(code: int)

  /**
   * The result of handling one message: a normal reply, or an exception raised
   * after `sent` had gone out and the state had become `state`.
   */
  datatype Step =
    | Replied(state: State, reply: seq<Token>)
    | Aborted(state: State, sent: seq<Token>, fault: Fault)

  /** The reply to a request for the global model. */
  function GlobalModelReply(st: State): seq<Token> {
    [Int(MSG_GLOBAL_MODEL), Buf(st.model), Int(st.totalUpdates), Int(st.totalTrajectories)]
  }

  /** Handling of one inbound message code. */
  function Dispatch(st: State, msg: int): (r: Step)
    ensures r.Replied? <==> msg == MSG_GET_GLOBAL_MODEL
    ensures r.Replied? ==>
      r.state == st && r.reply == [Int(MSG_GLOBAL_MODEL), Buf(st.model), Int(st.totalUpdates), Int(st.totalTrajectories)]
    ensures msg == MSG_GET_SCHEDULE ==>
      && r.fault == NotImplemented
      && r.sent == Grant(st.schedules).reply
      && r.state == State(Grant(st.schedules).schedules, st.totalUpdates, st.totalTrajectories, st.model)
    ensures msg == MSG_UPDATE_GLOBAL_MODEL ==> r == Aborted(st, [], NotImplemented)
    ensures msg != MSG_GET_GLOBAL_MODEL && msg != MSG_GET_SCHEDULE && msg != MSG_UPDATE_GLOBAL_MODEL ==>
      r == Aborted(st, [], UnknownMessage(msg))
  {
    if msg == MSG_GET_SCHEDULE then
      var g := Grant(st.schedules);
      Aborted(st.(schedules := g.schedules), g.reply, NotImplemented)
    else if msg == MSG_UPDATE_GLOBAL_MODEL then
      Aborted(st, [], NotImplemented)
    else if msg == MSG_GET_GLOBAL_MODEL then
      Replied(st, GlobalModelReply(st))
    else
      Aborted(st, [], UnknownMessage(msg))
  }

  /**
   * The coordinator loop over a finite inbox: still running with the replies so
   * far, or halted by an exception (whose partial reply is the last one listed).
   */
  datatype Run =
    | Running(state: State, replies: seq<seq<Token>>)
    | Halted(state: State, replies: seq<seq<Token>>, fault: Fault)

  /** Handle the message codes of `inbox` in order until one of them raises. */
  function Serve(st: State, inbox: seq<int>): (r: Run)
    decreases |inbox|
    ensures r.Running? <==> forall k | 0 <= k < |inbox| :: inbox[k] == MSG_GET_GLOBAL_MODEL
    ensures r.Running? ==> r.state == st && |r.replies| == |inbox|
    ensures r.Halted? ==> 1 <= |r.replies| <= |inbox|
    ensures forall k | 0 <= k < |r.replies| && (r.Running? || k < |r.replies| - 1) ::
      inbox[k] == MSG_GET_GLOBAL_MODEL && r.replies[k] == GlobalModelReply(st)
    ensures r.Halted? ==>
      var j := |r.replies| - 1;
      inbox[j] != MSG_GET_GLOBAL_MODEL && Dispatch(st, inbox[j]) == Aborted(r.state, r.replies[j], r.fault)
  {
    if inbox == [] then
      Running(st, [])
    else
      match Dispatch(st, inbox[0])
      case Aborted(st', sent, fault) => Halted(st', [sent], fault)
      case Replied(st', reply) =>
        match Serve(st', inbox[1..])
        case Running(s2, rs) => Running(s2, [reply] + rs)
        case Halted(s2, rs, fault) => Halted(s2, [reply] + rs, fault)
  }

  /**
   * The table the loop starts with is empty and no handler fills it, so a
   * schedule request is always answered with a sleep directive.
   */
  lemma InitialTableOnlySleeps(model: seq<Byte>)
    ensures Dispatch(Initial(model), MSG_GET_SCHEDULE) == Aborted(Initial(model), [Int(MSG_SLEEP)], NotImplemented)
  {
  }
}
