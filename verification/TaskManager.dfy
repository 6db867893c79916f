/** Ownership and life cycle of child-agent runs. Every block under the manager's lock is one step;
    callers and workers interleave freely. Task ids are positions in launch order. */
module TaskManager {
  import opened Wrappers

  type SessionId = nat

  datatype Status = Queued | Running | WaitingApproval | Completed | Failed | Cancelling | Cancelled {
    predicate Terminal() {
      Completed? || Failed? || Cancelled?
    }
  }

  /** Where the worker that owns a task stands. */
  datatype Runner = NotStarted | Executing | Ended

  datatype Task = Task(session: SessionId, status: Status, notify: bool, runner: Runner)

  /** How a child run ended, as the session reports it. */
  datatype Outcome = RunCompleted | RunFailed | RunCancelled {
    function Status(): Status {
      match this
      case RunCompleted => Completed
      case RunFailed => Failed
      case RunCancelled => Cancelled
    }
  }

  /** `done` and `notified` list everything ever put on the two queues. */
  datatype State = State(
    tasks: seq<Task>,
    sessions: set<SessionId>,
    names: map<string, SessionId>,
    done: seq<nat>,
    notified: seq<nat>,
    closed: bool,
    closedSessions: set<SessionId>,
    closeCalls: seq<SessionId>)

  /** The name a session carries never changes. */
  type Naming = SessionId -> string

  datatype Action =
    | Launch(session: SessionId, blank: bool, notify: bool)
    | Stop(task: nat)
    | MarkWaiting(name: string, waiting: bool)
    | MarkBackground(task: nat)
    | CloseManager
    | StartRun(task: nat)
    | EndRun(task: nat, outcome: Outcome)
    | CloseSession(session: SessionId)

  datatype LaunchResult =
    | Launched(task: nat, superseded: Option<SessionId>)
    | Blank
    | ManagerClosed
    | NameTaken
    | SessionBusy(popped: Option<SessionId>)

  const EMPTY := State([], {}, map[], [], [], false, {}, [])

  predicate Active(t: Task) {
    !t.status.Terminal()
  }

  predicate HasActive(tasks: seq<Task>, session: SessionId) {
    exists i :: 0 <= i < |tasks| && tasks[i].session == session && Active(tasks[i])
  }

  /** The latest task of that name that has not ended. */
  function LatestActive(tasks: seq<Task>, name: string, naming: Naming): (at: Option<nat>)
    ensures at.Some? ==> at.value < |tasks| && Active(tasks[at.value]) && naming(tasks[at.value].session) == name
    ensures at.None? ==> forall i :: 0 <= i < |tasks| && Active(tasks[i]) ==> naming(tasks[i].session) != name
  {
    if tasks == [] then None
    else
      var last := |tasks| - 1;
      if naming(tasks[last].session) == name && Active(tasks[last]) then Some(last)
      else LatestActive(tasks[..last], name, naming)
  }

  function Finished(s: State, id: nat): State
    requires id < |s.tasks|
  {
    s.(done := s.done + [id], notified := if s.tasks[id].notify then s.notified + [id] else s.notified)
  }

  /** What `launch` answers, and the sessions left once it has answered. */
  function TryLaunch(s: State, session: SessionId, blank: bool, naming: Naming): (LaunchResult, set<SessionId>) {
    var name := naming(session);
    if blank then (Blank, s.sessions)
    else if s.closed then (ManagerClosed, s.sessions)
    else
      var other := if name in s.names && s.names[name] != session then Some(s.names[name]) else None;
      if other.Some? && HasActive(s.tasks, other.value) then (NameTaken, s.sessions)
      else
        var superseded := if other.Some? && other.value in s.sessions then other else None;
        var left := if other.Some? then s.sessions - {other.value} else s.sessions;
        if HasActive(s.tasks, session) then (SessionBusy(superseded), left)
        else (Launched(|s.tasks|, superseded), left + {session})
  }

  /** Cancels every task that has not ended: queued ones at once, the others when their run ends. */
  function CloseFrom(s: State, i: nat): (t: State)
    requires i <= |s.tasks|
    ensures |t.tasks| == |s.tasks|
    decreases |s.tasks| - i
  {
    if i == |s.tasks| then s
    else CloseFrom(CloseOne(s, i), i + 1)
  }

  function CloseOne(s: State, i: nat): State
    requires i < |s.tasks|
  {
    var t := s.tasks[i];
    if !Active(t) then s
    else if t.status.Queued? then Finished(s.(tasks := s.tasks[i := t.(status := Cancelled)]), i)
    else s.(tasks := s.tasks[i := t.(status := Cancelling)])
  }

  function SetStatus(s: State, id: nat, status: Status): State
    requires id < |s.tasks|
  {
    s.(tasks := s.tasks[id := s.tasks[id].(status := status)])
  }

  function SetTask(s: State, id: nat, runner: Runner, status: Status): State
    requires id < |s.tasks|
  {
    s.(tasks := s.tasks[id := s.tasks[id].(runner := runner, status := status)])
  }

  /** First locked block of a worker's run. */
  function Start(s: State, id: nat): State
    requires id < |s.tasks|
  {
    var status := s.tasks[id].status;
    if status.Terminal() then SetTask(s, id, Ended, status)
    else if status.Cancelling? then Finished(SetTask(s, id, Ended, Cancelled), id)
    else SetTask(s, id, Executing, Running)
  }

  /** Last locked block of a worker's run. */
  function End(s: State, id: nat, outcome: Outcome): State
    requires id < |s.tasks|
  {
    var status := if s.tasks[id].status.Cancelling? then Cancelled else outcome.Status();
    Finished(SetTask(s, id, Ended, status), id)
  }

  function Step(s: State, a: Action, naming: Naming): State {
    match a
    case Launch(session, blank, notify) =>
      var (result, sessions) := TryLaunch(s, session, blank, naming);
      if result.Launched? then
        s.(tasks := s.tasks + [Task(session, Queued, notify, NotStarted)],
           sessions := sessions, names := s.names[naming(session) := session])
      else s.(sessions := sessions)
    case Stop(id) =>
      if id < |s.tasks| && Active(s.tasks[id]) then SetStatus(s, id, Cancelling) else s
    case MarkWaiting(name, waiting) =>
      var at := LatestActive(s.tasks, name, naming);
      if at.None? then s
      else if waiting && s.tasks[at.value].status.Running? then SetStatus(s, at.value, WaitingApproval)
      else if !waiting && s.tasks[at.value].status.WaitingApproval? then SetStatus(s, at.value, Running)
      else s
    case MarkBackground(id) =>
      if id < |s.tasks| && !s.tasks[id].notify then
        s.(tasks := s.tasks[id := s.tasks[id].(notify := true)],
           notified := if s.tasks[id].status.Terminal() then s.notified + [id] else s.notified)
      else s
    case CloseManager =>
      if s.closed then s else CloseFrom(s.(closed := true), 0)
    case StartRun(id) =>
      if id < |s.tasks| && s.tasks[id].runner.NotStarted? then Start(s, id) else s
    case EndRun(id, outcome) =>
      if id < |s.tasks| && s.tasks[id].runner.Executing? then End(s, id, outcome) else s
    case CloseSession(session) =>
      if s.closed && session !in s.closedSessions then
        s.(closedSessions := s.closedSessions + {session}, closeCalls := s.closeCalls + [session])
      else s
  }

  function Run(actions: seq<Action>, naming: Naming): State {
    if actions == [] then EMPTY
    else Step(Run(actions[..|actions| - 1], naming), actions[|actions| - 1], naming)
  }

  // ---- queues ----

  ghost predicate TaskQueues(t: Task, done: nat, notified: nat) {
    && done == (if t.status.Terminal() then 1 else 0)
    && notified == (if t.status.Terminal() && t.notify then 1 else 0)
    // a run in progress has not ended its task; a task that never ran ends only by being cancelled
    && (t.runner.Executing? ==> t.status.Running? || t.status.WaitingApproval? || t.status.Cancelling?)
    && (t.runner.NotStarted? ==> t.status.Queued? || t.status.Cancelling? || t.status.Cancelled?)
    && (t.runner.Ended? ==> t.status.Terminal())
  }

  ghost predicate QueuesInv(s: State) {
    && (forall id :: id in s.done ==> id < |s.tasks|)
    && (forall id :: id in s.notified ==> id < |s.tasks|)
    && (forall id :: 0 <= id < |s.tasks| ==>
          TaskQueues(s.tasks[id], multiset(s.done)[id], multiset(s.notified)[id]))
  }

  lemma FinishedQueues(s: State, id: nat, t: Task)
    requires QueuesInv(s) && id < |s.tasks| && Active(s.tasks[id])
    requires t.status.Terminal() && !t.runner.Executing? && t.notify == s.tasks[id].notify
    requires t.runner.NotStarted? ==> t.status.Cancelled?
    ensures QueuesInv(Finished(s.(tasks := s.tasks[id := t]), id))
  {
    var r := Finished(s.(tasks := s.tasks[id := t]), id);
    forall k | 0 <= k < |r.tasks| ensures TaskQueues(r.tasks[k], multiset(r.done)[k], multiset(r.notified)[k]) {
      assert TaskQueues(s.tasks[k], multiset(s.done)[k], multiset(s.notified)[k]);
    }
  }

  lemma RelabelledQueues(s: State, id: nat, t: Task)
    requires QueuesInv(s) && id < |s.tasks|
    requires t.notify == s.tasks[id].notify && t.status.Terminal() == s.tasks[id].status.Terminal()
    requires TaskQueues(t, multiset(s.done)[id], multiset(s.notified)[id])
    ensures QueuesInv(s.(tasks := s.tasks[id := t]))
  {
    var r := s.(tasks := s.tasks[id := t]);
    forall k | 0 <= k < |r.tasks| ensures TaskQueues(r.tasks[k], multiset(r.done)[k], multiset(r.notified)[k]) {
      assert TaskQueues(s.tasks[k], multiset(s.done)[k], multiset(s.notified)[k]);
    }
  }

  lemma CloseOneQueues(s: State, i: nat)
    requires QueuesInv(s) && i < |s.tasks|
    ensures QueuesInv(CloseOne(s, i))
  {
    var t := s.tasks[i];
    assert TaskQueues(t, multiset(s.done)[i], multiset(s.notified)[i]);
    if Active(t) {
      if t.status.Queued? {
        assert !t.runner.Executing?;
        FinishedQueues(s, i, t.(status := Cancelled));
      } else {
        RelabelledQueues(s, i, t.(status := Cancelling));
      }
    }
  }

  lemma {:induction false} CloseFromQueues(s: State, i: nat)
    requires QueuesInv(s) && i <= |s.tasks|
    ensures QueuesInv(CloseFrom(s, i))
    decreases |s.tasks| - i
  {
    if i < |s.tasks| {
      CloseOneQueues(s, i);
      CloseFromQueues(CloseOne(s, i), i + 1);
    }
  }

  lemma LaunchQueues(s: State, session: SessionId, blank: bool, notify: bool, naming: Naming)
    requires QueuesInv(s)
    ensures QueuesInv(Step(s, Launch(session, blank, notify), naming))
  {
    var r := Step(s, Launch(session, blank, notify), naming);
    forall k | 0 <= k < |r.tasks| ensures TaskQueues(r.tasks[k], multiset(r.done)[k], multiset(r.notified)[k]) {
      if k < |s.tasks| {
        assert TaskQueues(s.tasks[k], multiset(s.done)[k], multiset(s.notified)[k]);
      } else {
        assert k !in r.done && k !in r.notified;
      }
    }
  }

  lemma BackgroundQueues(s: State, id: nat, naming: Naming)
    requires QueuesInv(s)
    ensures QueuesInv(Step(s, MarkBackground(id), naming))
  {
    var r := Step(s, MarkBackground(id), naming);
    forall k | 0 <= k < |r.tasks| ensures TaskQueues(r.tasks[k], multiset(r.done)[k], multiset(r.notified)[k]) {
      assert TaskQueues(s.tasks[k], multiset(s.done)[k], multiset(s.notified)[k]);
    }
  }

  lemma StartQueues(s: State, id: nat)
    requires QueuesInv(s) && id < |s.tasks| && s.tasks[id].runner.NotStarted?
    ensures QueuesInv(Start(s, id))
  {
    var t := s.tasks[id];
    assert TaskQueues(t, multiset(s.done)[id], multiset(s.notified)[id]);
    hide QueuesInv;
    if t.status.Terminal() {
      RelabelledQueues(s, id, t.(runner := Ended, status := t.status));
    } else if t.status.Cancelling? {
      FinishedQueues(s, id, t.(runner := Ended, status := Cancelled));
    } else {
      RelabelledQueues(s, id, t.(runner := Executing, status := Running));
    }
  }

  lemma EndQueues(s: State, id: nat, outcome: Outcome)
    requires QueuesInv(s) && id < |s.tasks| && s.tasks[id].runner.Executing?
    ensures QueuesInv(End(s, id, outcome))
  {
    var t := s.tasks[id];
    assert TaskQueues(t, multiset(s.done)[id], multiset(s.notified)[id]);
    hide QueuesInv;
    var status := if t.status.Cancelling? then Cancelled else outcome.Status();
    FinishedQueues(s, id, t.(runner := Ended, status := status));
  }

  lemma StatusQueues(s: State, a: Action, naming: Naming)
    requires QueuesInv(s) && (a.Stop? || a.MarkWaiting?)
    ensures QueuesInv(Step(s, a, naming))
  {
    var at := if a.Stop? then (if a.task < |s.tasks| then Some(a.task) else None) else LatestActive(s.tasks, a.name, naming);
    if at.Some? {
      var t := s.tasks[at.value];
      assert TaskQueues(t, multiset(s.done)[at.value], multiset(s.notified)[at.value]);
      var r := Step(s, a, naming);
      RelabelledQueues(s, at.value, r.tasks[at.value]);
    }
  }

  lemma StepQueues(s: State, a: Action, naming: Naming)
    requires QueuesInv(s)
    ensures QueuesInv(Step(s, a, naming))
  {
    hide QueuesInv;
    match a
    case Launch(session, blank, notify) => LaunchQueues(s, session, blank, notify, naming);
    case Stop(_) => StatusQueues(s, a, naming);
    case MarkWaiting(_, _) => StatusQueues(s, a, naming);
    case MarkBackground(id) => BackgroundQueues(s, id, naming);
    case CloseManager =>
      if !s.closed {
        SameQueues(s, s.(closed := true));
        CloseFromQueues(s.(closed := true), 0);
      }
    case StartRun(id) => if id < |s.tasks| && s.tasks[id].runner.NotStarted? { StartQueues(s, id); }
    case EndRun(id, outcome) => if id < |s.tasks| && s.tasks[id].runner.Executing? { EndQueues(s, id, outcome); }
    case CloseSession(_) => SameQueues(s, Step(s, a, naming));
  }

  lemma SameQueues(s: State, r: State)
    requires QueuesInv(s) && r.tasks == s.tasks && r.done == s.done && r.notified == s.notified
    ensures QueuesInv(r)
  {
  }

  // ---- ownership ----

  ghost predicate OwnershipInv(s: State, naming: Naming) {
    // an active task's session is live and its name leads to that session
    && (forall i :: 0 <= i < |s.tasks| && Active(s.tasks[i]) ==>
          s.tasks[i].session in s.sessions
          && naming(s.tasks[i].session) in s.names && s.names[naming(s.tasks[i].session)] == s.tasks[i].session)
    // no two active tasks share a session
    && (forall i, j :: 0 <= i < j < |s.tasks| && Active(s.tasks[i]) && Active(s.tasks[j]) ==>
          s.tasks[i].session != s.tasks[j].session)
  }

  /** Nothing that only ends tasks, or moves them between active states, changes who owns what. */
  lemma OwnershipShrinks(s: State, r: State, naming: Naming)
    requires OwnershipInv(s, naming)
    requires |r.tasks| == |s.tasks| && r.names == s.names && r.sessions == s.sessions
    requires forall i :: 0 <= i < |s.tasks| ==>
      r.tasks[i].session == s.tasks[i].session && (Active(r.tasks[i]) ==> Active(s.tasks[i]))
    ensures OwnershipInv(r, naming)
  {
    assert forall i :: 0 <= i < |r.tasks| && Active(r.tasks[i]) ==> Active(s.tasks[i]);
  }

  /** `launch` never refuses once it has taken a superseded session out. */
  lemma NoRefusalAfterPop(s: State, session: SessionId, blank: bool, naming: Naming)
    requires OwnershipInv(s, naming)
    ensures var (result, sessions) := TryLaunch(s, session, blank, naming);
            !result.Launched? ==> sessions == s.sessions && (result.SessionBusy? ==> result.popped == None)
  {
    var name := naming(session);
    if name in s.names && s.names[name] != session {
      forall i | 0 <= i < |s.tasks| && s.tasks[i].session == session ensures !Active(s.tasks[i]) {}
      assert !HasActive(s.tasks, session);
    }
  }

  /** A task of this session has not ended. */
  ghost predicate Busy(s: State, session: SessionId) {
    exists i :: 0 <= i < |s.tasks| && s.tasks[i].session == session
                && s.tasks[i].status in {Queued, Running, WaitingApproval, Cancelling}
  }

  lemma BusyIff(s: State, session: SessionId)
    ensures Busy(s, session) <==> HasActive(s.tasks, session)
  {
  }

  /** What a launch is answered, and what it leaves: refused for a blank task, after the end of the manager, while the
      session its name leads to is busy, or while the session itself is; otherwise a queued task more, its session under
      its name, and a session that had the name before taken out. */
  lemma LaunchIff(s: State, session: SessionId, blank: bool, notify: bool, naming: Naming)
    requires OwnershipInv(s, naming)
    ensures var r, u, name := TryLaunch(s, session, blank, naming).0, Step(s, Launch(session, blank, notify), naming), naming(session);
            var other := name in s.names && s.names[name] != session;
            && (r.Blank? <==> blank)
            && (r.ManagerClosed? <==> !blank && s.closed)
            && (r.NameTaken? <==> !blank && !s.closed && other && Busy(s, s.names[name]))
            && (r.SessionBusy? <==> !blank && !s.closed && Busy(s, session))
            && (if !r.Launched? then u == s
                else
                  && r == Launched(|s.tasks|, if other && s.names[name] in s.sessions then Some(s.names[name]) else None)
                  && u == State(s.tasks + [Task(session, Queued, notify, NotStarted)],
                                (if other then s.sessions - {s.names[name]} else s.sessions) + {session},
                                s.names[name := session], s.done, s.notified, s.closed, s.closedSessions, s.closeCalls))
  {
    var name := naming(session);
    NoRefusalAfterPop(s, session, blank, naming);
    BusyIff(s, session);
    if name in s.names { BusyIff(s, s.names[name]); }
    if Busy(s, session) {
      assert name in s.names && s.names[name] == session;
    }
    hide Busy, HasActive, OwnershipInv;
  }

  lemma LaunchOwnership(s: State, session: SessionId, blank: bool, notify: bool, naming: Naming)
    requires OwnershipInv(s, naming)
    ensures OwnershipInv(Step(s, Launch(session, blank, notify), naming), naming)
  {
    NoRefusalAfterPop(s, session, blank, naming);
    var (result, sessions) := TryLaunch(s, session, blank, naming);
    var r := Step(s, Launch(session, blank, notify), naming);
    if result.Launched? {
      var name := naming(session);
      assert !HasActive(s.tasks, session);
      forall i | 0 <= i < |r.tasks| && Active(r.tasks[i])
        ensures r.tasks[i].session in r.sessions
             && naming(r.tasks[i].session) in r.names && r.names[naming(r.tasks[i].session)] == r.tasks[i].session
      {
        if i < |s.tasks| {
          assert s.tasks[i].session != session;
          if name in s.names && s.names[name] != session {
            assert !HasActive(s.tasks, s.names[name]);
            assert s.tasks[i].session != s.names[name];
          }
        }
      }
      forall i, j | 0 <= i < j < |r.tasks| && Active(r.tasks[i]) && Active(r.tasks[j])
        ensures r.tasks[i].session != r.tasks[j].session
      {
        if j == |s.tasks| { assert s.tasks[i].session != session; }
      }
    }
  }

  lemma {:induction false} CloseKeepsOwners(s: State, i: nat)
    requires i <= |s.tasks|
    ensures var r := CloseFrom(s, i);
            && |r.tasks| == |s.tasks| && r.names == s.names && r.sessions == s.sessions && r.closed == s.closed
            && forall k :: 0 <= k < |s.tasks| ==>
                 r.tasks[k].session == s.tasks[k].session
                 && (Active(r.tasks[k]) ==> Active(s.tasks[k]))
                 && (s.tasks[k].status.Terminal() ==> r.tasks[k] == s.tasks[k])
                 && (s.tasks[k].status.Cancelling? ==> r.tasks[k].status.Cancelling?)
                 && (k >= i ==> !r.tasks[k].status.Queued? && (Active(r.tasks[k]) ==> r.tasks[k].status.Cancelling?))
    decreases |s.tasks| - i
  {
    if i < |s.tasks| {
      CloseKeepsOwners(CloseOne(s, i), i + 1);
      CloseLeavesEarlier(CloseOne(s, i), i + 1, i);
    }
  }

  lemma {:induction false} CloseLeavesEarlier(s: State, i: nat, k: nat)
    requires k < i <= |s.tasks|
    ensures CloseFrom(s, i).tasks[k] == s.tasks[k]
    decreases |s.tasks| - i
  {
    if i < |s.tasks| { CloseLeavesEarlier(CloseOne(s, i), i + 1, k); }
  }

  lemma StepOwnership(s: State, a: Action, naming: Naming)
    requires OwnershipInv(s, naming)
    ensures OwnershipInv(Step(s, a, naming), naming)
  {
    hide OwnershipInv;
    match a
    case Launch(session, blank, notify) => LaunchOwnership(s, session, blank, notify, naming);
    case CloseManager =>
      CloseKeepsOwners(s.(closed := true), 0);
      OwnershipShrinks(s, Step(s, a, naming), naming);
    case _ =>
      NobodyGains(s, a, naming);
      OwnershipShrinks(s, Step(s, a, naming), naming);
  }

  /** Outside a launch and the end of the manager no task, name or session is added. */
  lemma {:induction false} NobodyGains(s: State, a: Action, naming: Naming)
    requires !a.Launch? && !a.CloseManager?
    ensures var r := Step(s, a, naming);
            && |r.tasks| == |s.tasks| && r.names == s.names && r.sessions == s.sessions
            && forall i :: 0 <= i < |s.tasks| ==>
                 r.tasks[i].session == s.tasks[i].session && (Active(r.tasks[i]) ==> Active(s.tasks[i]))
  {
    match a
    case MarkWaiting(_, _) => return;
    case StartRun(_) => return;
    case EndRun(_, _) => return;
    case _ =>
  }

  // ---- every interleaving ----

  lemma {:induction false} RunInv(actions: seq<Action>, naming: Naming)
    ensures QueuesInv(Run(actions, naming)) && OwnershipInv(Run(actions, naming), naming)
  {
    if actions != [] {
      var front := actions[..|actions| - 1];
      RunInv(front, naming);
      hide QueuesInv, OwnershipInv, Step;
      StepQueues(Run(front, naming), actions[|actions| - 1], naming);
      StepOwnership(Run(front, naming), actions[|actions| - 1], naming);
    }
  }

  /** A task id is on the done queue once if its task has ended and never otherwise, and on the
      notification queue once exactly if it has ended and a notification was asked for, however
      `mark_background`, cancelling and finishing race. */
  lemma QueuedExactlyOnce(actions: seq<Action>, naming: Naming, id: nat)
    ensures var s := Run(actions, naming);
            && multiset(s.done)[id] == (if id < |s.tasks| && s.tasks[id].status.Terminal() then 1 else 0)
            && multiset(s.notified)[id]
               == (if id < |s.tasks| && s.tasks[id].status.Terminal() && s.tasks[id].notify then 1 else 0)
  {
    RunInv(actions, naming);
    var s := Run(actions, naming);
    if id < |s.tasks| {
      assert TaskQueues(s.tasks[id], multiset(s.done)[id], multiset(s.notified)[id]);
    } else {
      assert id !in s.done && id !in s.notified;
    }
  }

  lemma OneOwnerPerName(actions: seq<Action>, naming: Naming)
    ensures var s := Run(actions, naming);
            && (forall i, j :: 0 <= i < j < |s.tasks| && Active(s.tasks[i]) && Active(s.tasks[j]) ==>
                  s.tasks[i].session != s.tasks[j].session
                  && naming(s.tasks[i].session) != naming(s.tasks[j].session))
            && (forall i :: 0 <= i < |s.tasks| && Active(s.tasks[i]) ==>
                  naming(s.tasks[i].session) in s.names
                  && s.names[naming(s.tasks[i].session)] == s.tasks[i].session
                  && s.tasks[i].session in s.sessions)
  {
    RunInv(actions, naming);
  }

  lemma LaunchIsAllOrNothing(actions: seq<Action>, naming: Naming, session: SessionId, blank: bool)
    ensures var s := Run(actions, naming);
            var (result, sessions) := TryLaunch(s, session, blank, naming);
            !result.Launched? ==> sessions == s.sessions
  {
    RunInv(actions, naming);
    NoRefusalAfterPop(Run(actions, naming), session, blank, naming);
  }

  /** What may become of a task: a terminal status stays, `cancelling` can only become `cancelled`,
      and a wish to be notified is never withdrawn. */
  predicate Follows(t: Task, u: Task) {
    && u.session == t.session
    && (t.status.Terminal() ==> u.status == t.status)
    && (t.status.Cancelling? ==> u.status.Cancelling? || u.status.Cancelled?)
    && (t.notify ==> u.notify)
  }

  lemma RunEndsAreFinal(s: State, a: Action, naming: Naming, id: nat)
    requires QueuesInv(s) && id < |s.tasks| && (a.StartRun? || a.EndRun?)
    ensures id < |Step(s, a, naming).tasks| && Follows(s.tasks[id], Step(s, a, naming).tasks[id])
  {
    assert TaskQueues(s.tasks[id], multiset(s.done)[id], multiset(s.notified)[id]);
    hide QueuesInv, CloseFrom, TryLaunch, LatestActive;
  }

  lemma EndsAreFinal(s: State, a: Action, naming: Naming, id: nat)
    requires QueuesInv(s) && id < |s.tasks|
    ensures id < |Step(s, a, naming).tasks| && Follows(s.tasks[id], Step(s, a, naming).tasks[id])
  {
    hide QueuesInv, Start, End;
    match a
    case CloseManager =>
      CloseKeepsOwners(s.(closed := true), 0);
      CloseKeepsNotify(s.(closed := true), 0, id);
    case StartRun(_) => RunEndsAreFinal(s, a, naming, id);
    case EndRun(_, _) => RunEndsAreFinal(s, a, naming, id);
    case _ => hide CloseFrom, HasActive;
  }

  /** Closing cancels a queued task at once and marks every other that has not ended. */
  lemma {:induction false} CloseMarks(s: State, i: nat, id: nat)
    requires i <= id < |s.tasks|
    ensures var t := s.tasks[id];
            CloseFrom(s, i).tasks[id].status ==
              if t.status.Queued? then Cancelled else if Active(t) then Cancelling else t.status
    decreases |s.tasks| - i
  {
    if i < id {
      CloseMarks(CloseOne(s, i), i + 1, id);
    } else {
      CloseLeavesEarlier(CloseOne(s, i), i + 1, id);
    }
  }

  /** The run of `t` ends by this action, before anyone asked to cancel it. */
  predicate RunsOut(t: Task, a: Action, id: nat, outcome: Outcome) {
    a == EndRun(id, outcome) && t.runner.Executing? && !t.status.Cancelling?
  }

  /** The task ends cancelled: by its run, by being cancelled before its run began, or as a queued one when the
      manager closes. */
  predicate Cancels(s: State, t: Task, a: Action, id: nat) {
    || (a.EndRun? && a.task == id && t.runner.Executing? && (t.status.Cancelling? || a.outcome == RunCancelled))
    || (a == StartRun(id) && t.runner.NotStarted? && t.status.Cancelling?)
    || (a == CloseManager && !s.closed && t.status.Queued?)
  }

  /** The action says of this task, as the last of its name that has not ended, that it waits or no longer waits. */
  ghost predicate TellsWaiting(s: State, a: Action, naming: Naming, id: nat, waiting: bool)
    requires id < |s.tasks|
  {
    && a.MarkWaiting? && a.waiting == waiting && naming(s.tasks[id].session) == a.name
    && forall j :: id < j < |s.tasks| && Active(s.tasks[j]) ==> naming(s.tasks[j].session) != a.name
  }

  lemma {:induction false} LastOfItsName(tasks: seq<Task>, name: string, naming: Naming, id: nat)
    requires id < |tasks| && Active(tasks[id])
    ensures LatestActive(tasks, name, naming) == Some(id)
       <==> naming(tasks[id].session) == name
            && forall j :: id < j < |tasks| && Active(tasks[j]) ==> naming(tasks[j].session) != name
  {
    var last := |tasks| - 1;
    hide Active;
    if id < last { LastOfItsName(tasks[..last], name, naming, id); }
  }

  lemma {:induction false} StatusGoesOn(s: State, a: Action, naming: Naming, id: nat)
    requires id < |s.tasks| && Active(s.tasks[id])
    ensures id < |Step(s, a, naming).tasks|
    ensures var t, u := s.tasks[id], Step(s, a, naming).tasks[id];
            var closes := a == CloseManager && !s.closed;
            var starts := a == StartRun(id) && t.runner.NotStarted?;
            var ends := a.EndRun? && a.task == id && t.runner.Executing?;
            && (u.status.Cancelling? <==> a == Stop(id) || (closes && !t.status.Queued?)
                                          || (t.status.Cancelling? && !starts && !ends))
            && (u.status.Running? <==> (starts && !t.status.Cancelling?)
                                       || (t.status.WaitingApproval? && TellsWaiting(s, a, naming, id, false))
                                       || (t.status.Running? && a != Stop(id) && !closes && !ends
                                           && !TellsWaiting(s, a, naming, id, true)))
  {
    if a == CloseManager && !s.closed {
      CloseMarks(s.(closed := true), 0, id);
      CloseKeepsNotify(s.(closed := true), 0, id);
    }
    if a.MarkWaiting? { LastOfItsName(s.tasks, a.name, naming, id); }
    hide CloseFrom, HasActive, LatestActive;
  }

  lemma {:induction false} WaitingGoesOn(s: State, a: Action, naming: Naming, id: nat)
    requires id < |s.tasks| && Active(s.tasks[id])
    ensures id < |Step(s, a, naming).tasks|
    ensures var t, u := s.tasks[id], Step(s, a, naming).tasks[id];
            var closes := a == CloseManager && !s.closed;
            var starts := a == StartRun(id) && t.runner.NotStarted?;
            var ends := a.EndRun? && a.task == id && t.runner.Executing?;
            && (u.status.WaitingApproval? <==> (t.status.Running? && TellsWaiting(s, a, naming, id, true))
                                               || (t.status.WaitingApproval? && a != Stop(id) && !closes && !starts && !ends
                                                   && !TellsWaiting(s, a, naming, id, false)))
  {
    if a == CloseManager && !s.closed {
      CloseMarks(s.(closed := true), 0, id);
      CloseKeepsNotify(s.(closed := true), 0, id);
    }
    if a.MarkWaiting? { LastOfItsName(s.tasks, a.name, naming, id); }
    hide CloseFrom, HasActive, LatestActive;
  }

  lemma {:induction false} RestGoesOn(s: State, a: Action, naming: Naming, id: nat)
    requires id < |s.tasks| && Active(s.tasks[id])
    ensures id < |Step(s, a, naming).tasks|
    ensures var t, u := s.tasks[id], Step(s, a, naming).tasks[id];
            var starts := a == StartRun(id) && t.runner.NotStarted?;
            var ends := a.EndRun? && a.task == id && t.runner.Executing?;
            && (u.notify <==> t.notify || a == MarkBackground(id))
            && (u.runner.Executing? <==> (starts && !t.status.Cancelling?) || (t.runner.Executing? && !ends))
  {
    if a == CloseManager && !s.closed {
      CloseMarks(s.(closed := true), 0, id);
      CloseKeepsNotify(s.(closed := true), 0, id);
    }
    if a.MarkWaiting? { LastOfItsName(s.tasks, a.name, naming, id); }
    hide CloseFrom, HasActive, LatestActive;
  }

  /** What each action makes of a task that has not ended, short of ending it. */
  lemma {:induction false} GoesOnAs(s: State, a: Action, naming: Naming, id: nat)
    requires id < |s.tasks| && Active(s.tasks[id])
    ensures id < |Step(s, a, naming).tasks|
    ensures var t, u := s.tasks[id], Step(s, a, naming).tasks[id];
            var closes := a == CloseManager && !s.closed;
            var starts := a == StartRun(id) && t.runner.NotStarted?;
            var ends := a.EndRun? && a.task == id && t.runner.Executing?;
            && (u.status.Cancelling? <==> a == Stop(id) || (closes && !t.status.Queued?)
                                          || (t.status.Cancelling? && !starts && !ends))
            && (u.status.Running? <==> (starts && !t.status.Cancelling?)
                                       || (t.status.WaitingApproval? && TellsWaiting(s, a, naming, id, false))
                                       || (t.status.Running? && a != Stop(id) && !closes && !ends
                                           && !TellsWaiting(s, a, naming, id, true)))
            && (u.status.WaitingApproval? <==> (t.status.Running? && TellsWaiting(s, a, naming, id, true))
                                               || (t.status.WaitingApproval? && a != Stop(id) && !closes && !starts && !ends
                                                   && !TellsWaiting(s, a, naming, id, false)))
            && (u.notify <==> t.notify || a == MarkBackground(id))
            && (u.runner.Executing? <==> (starts && !t.status.Cancelling?) || (t.runner.Executing? && !ends))
  {
    hide *;
    StatusGoesOn(s, a, naming, id);
    WaitingGoesOn(s, a, naming, id);
    RestGoesOn(s, a, naming, id);
  }

  /** Why a task ends as it does, action by action. */
  lemma {:induction false} EndsBecause(s: State, a: Action, naming: Naming, id: nat)
    requires id < |s.tasks| && Active(s.tasks[id])
    ensures id < |Step(s, a, naming).tasks|
    ensures var t, status := s.tasks[id], Step(s, a, naming).tasks[id].status;
            && (status.Completed? <==> RunsOut(t, a, id, RunCompleted))
            && (status.Failed? <==> RunsOut(t, a, id, RunFailed))
            && (status.Cancelled? <==> Cancels(s, t, a, id))
  {
    if a == CloseManager && !s.closed { CloseMarks(s.(closed := true), 0, id); }
    hide CloseFrom, HasActive;
  }

  ghost predicate RanOutAt(actions: seq<Action>, naming: Naming, id: nat, outcome: Outcome, k: nat) {
    && k < |actions| && id < |Run(actions[..k], naming).tasks|
    && RunsOut(Run(actions[..k], naming).tasks[id], actions[k], id, outcome)
  }

  ghost predicate CancelledAt(actions: seq<Action>, naming: Naming, id: nat, k: nat) {
    && k < |actions| && id < |Run(actions[..k], naming).tasks|
    && var s := Run(actions[..k], naming);
       Active(s.tasks[id]) && Cancels(s, s.tasks[id], actions[k], id)
  }

  ghost predicate RanOut(actions: seq<Action>, naming: Naming, id: nat, outcome: Outcome) {
    exists k :: RanOutAt(actions, naming, id, outcome, k)
  }

  ghost predicate WasCancelled(actions: seq<Action>, naming: Naming, id: nat) {
    exists k :: CancelledAt(actions, naming, id, k)
  }

  lemma {:induction false} RanOutEarlierOrLast(actions: seq<Action>, naming: Naming, id: nat, outcome: Outcome)
    requires actions != []
    ensures var n, s := |actions| - 1, Run(actions[..|actions| - 1], naming);
            RanOut(actions, naming, id, outcome)
            <==> RanOut(actions[..n], naming, id, outcome)
                 || (id < |s.tasks| && RunsOut(s.tasks[id], actions[n], id, outcome))
  {
    var n := |actions| - 1;
    var front := actions[..n];
    forall k: nat | k < n
      ensures RanOutAt(actions, naming, id, outcome, k) <==> RanOutAt(front, naming, id, outcome, k)
    {
      assert front[..k] == actions[..k] && front[k] == actions[k];
    }
    hide Run, RunsOut;
    if RanOut(actions, naming, id, outcome) {
      var k: nat :| RanOutAt(actions, naming, id, outcome, k);
      if k < n { assert RanOutAt(front, naming, id, outcome, k); }
    }
    if RanOut(front, naming, id, outcome) {
      var k: nat :| RanOutAt(front, naming, id, outcome, k);
      assert RanOutAt(actions, naming, id, outcome, k);
    }
    if RanOutAt(actions, naming, id, outcome, n) { assert RanOut(actions, naming, id, outcome); }
  }

  lemma {:induction false} CancelledEarlierOrLast(actions: seq<Action>, naming: Naming, id: nat)
    requires actions != []
    ensures var n, s := |actions| - 1, Run(actions[..|actions| - 1], naming);
            WasCancelled(actions, naming, id)
            <==> WasCancelled(actions[..n], naming, id)
                 || (id < |s.tasks| && Active(s.tasks[id]) && Cancels(s, s.tasks[id], actions[n], id))
  {
    var n := |actions| - 1;
    var front := actions[..n];
    forall k: nat | k < n ensures CancelledAt(actions, naming, id, k) <==> CancelledAt(front, naming, id, k) {
      assert front[..k] == actions[..k] && front[k] == actions[k];
    }
    hide Run, Cancels;
    if WasCancelled(actions, naming, id) {
      var k: nat :| CancelledAt(actions, naming, id, k);
      if k < n { assert CancelledAt(front, naming, id, k); }
    }
    if WasCancelled(front, naming, id) {
      var k: nat :| CancelledAt(front, naming, id, k);
      assert CancelledAt(actions, naming, id, k);
    }
    if CancelledAt(actions, naming, id, n) { assert WasCancelled(actions, naming, id); }
  }

  lemma {:induction false} NewIsQueued(s: State, a: Action, naming: Naming, id: nat)
    requires |s.tasks| <= id < |Step(s, a, naming).tasks|
    ensures Step(s, a, naming).tasks[id].status.Queued?
  {
    hide HasActive, CloseOne;
  }

  /** The same for a task that may have ended before. */
  lemma {:induction false} LastActionEnds(s: State, a: Action, naming: Naming, id: nat)
    requires QueuesInv(s) && id < |s.tasks|
    ensures id < |Step(s, a, naming).tasks|
    ensures var t, status := s.tasks[id], Step(s, a, naming).tasks[id].status;
            && (status.Completed? <==> t.status.Completed? || RunsOut(t, a, id, RunCompleted))
            && (status.Failed? <==> t.status.Failed? || RunsOut(t, a, id, RunFailed))
            && (status.Cancelled? <==> t.status.Cancelled? || (Active(t) && Cancels(s, t, a, id)))
  {
    assert TaskQueues(s.tasks[id], multiset(s.done)[id], multiset(s.notified)[id]);
    EndsAreFinal(s, a, naming, id);
    if Active(s.tasks[id]) { EndsBecause(s, a, naming, id); }
    hide QueuesInv, Step, Cancels;
  }

  /** Before a task is launched nothing ends it. */
  lemma {:induction false} NotEndedYet(actions: seq<Action>, naming: Naming, id: nat)
    requires |Run(actions, naming).tasks| <= id
    ensures !WasCancelled(actions, naming, id) && forall outcome :: !RanOut(actions, naming, id, outcome)
  {
    forall k: nat | k < |actions| ensures |Run(actions[..k], naming).tasks| <= id {
      assert actions[..k] + actions[k..] == actions;
      hide Run;
      if id < |Run(actions[..k], naming).tasks| { EndsStayFinal(actions[..k], actions[k..], naming, id); }
    }
    hide Run, RunsOut, Cancels;
  }

  /** Over every interleaving: a task has completed, failed or been cancelled exactly if some action ended it so. */
  lemma {:induction false} EndedBecause(actions: seq<Action>, naming: Naming, id: nat)
    requires id < |Run(actions, naming).tasks|
    ensures var status := Run(actions, naming).tasks[id].status;
            && (status.Completed? <==> RanOut(actions, naming, id, RunCompleted))
            && (status.Failed? <==> RanOut(actions, naming, id, RunFailed))
            && (status.Cancelled? <==> WasCancelled(actions, naming, id))
  {
    hide *;
    RunIsLastStep(actions, naming, id);
    var n := |actions| - 1;
    var front, a := actions[..n], actions[n];
    var s := Run(front, naming);
    RanOutEarlierOrLast(actions, naming, id, RunCompleted);
    RanOutEarlierOrLast(actions, naming, id, RunFailed);
    CancelledEarlierOrLast(actions, naming, id);
    if id < |s.tasks| {
      EndedBecause(front, naming, id);
      RunInv(front, naming);
      LastActionEnds(s, a, naming, id);
    } else {
      NotEndedYet(front, naming, id);
      NewIsQueued(s, a, naming, id);
    }
  }

  lemma RunIsLastStep(actions: seq<Action>, naming: Naming, id: nat)
    requires id < |Run(actions, naming).tasks|
    ensures actions != []
    ensures var n := |actions| - 1; Run(actions, naming) == Step(Run(actions[..n], naming), actions[n], naming)
  {
    hide Step;
  }

  lemma {:induction false} CloseKeepsNotify(s: State, i: nat, id: nat)
    requires i <= |s.tasks| && id < |s.tasks|
    ensures CloseFrom(s, i).tasks[id].notify == s.tasks[id].notify
    ensures CloseFrom(s, i).tasks[id].runner == s.tasks[id].runner
    decreases |s.tasks| - i
  {
    if i < |s.tasks| { CloseKeepsNotify(CloseOne(s, i), i + 1, id); }
  }

  lemma FollowsChain(t: Task, u: Task, v: Task)
    requires Follows(t, u) && Follows(u, v)
    ensures Follows(t, v)
  {
  }

  lemma RunOnce(actions: seq<Action>, a: Action, naming: Naming)
    ensures Run(actions + [a], naming) == Step(Run(actions, naming), a, naming)
  {
    hide Step;
    assert (actions + [a])[..|actions|] == actions;
  }

  /** The same over any continuation of any run. */
  lemma {:induction false} EndsStayFinal(before: seq<Action>, more: seq<Action>, naming: Naming, id: nat)
    requires id < |Run(before, naming).tasks|
    ensures id < |Run(before + more, naming).tasks|
         && Follows(Run(before, naming).tasks[id], Run(before + more, naming).tasks[id])
  {
    if more == [] {
      assert before + more == before;
      hide Run;
    } else {
      var front, last := more[..|more| - 1], more[|more| - 1];
      EndsStayFinal(before, front, naming, id);
      assert before + more == (before + front) + [last];
      RunInv(before + front, naming);
      hide QueuesInv, OwnershipInv, Step, Follows, Run;
      RunOnce(before + front, last, naming);
      EndsAreFinal(Run(before + front, naming), last, naming, id);
      FollowsChain(Run(before, naming).tasks[id], Run(before + front, naming).tasks[id],
                   Run(before + more, naming).tasks[id]);
    }
  }

  /** Sessions handed to `_close_session_once` are closed at most once. */
  lemma {:induction false} SessionsCloseOnce(actions: seq<Action>, naming: Naming, session: SessionId)
    ensures var s := Run(actions, naming);
            multiset(s.closeCalls)[session] == (if session in s.closedSessions then 1 else 0)
  {
    if actions != [] {
      var s, a := Run(actions[..|actions| - 1], naming), actions[|actions| - 1];
      SessionsCloseOnce(actions[..|actions| - 1], naming, session);
      if a.CloseManager? {
        CloseKeepsCloses(s.(closed := true), 0);
        return;
      }
      if a.CloseSession? {
        return;
      }
      hide CloseFrom, TryLaunch, LatestActive;
    }
  }

  lemma {:induction false} CloseKeepsCloses(s: State, i: nat)
    requires i <= |s.tasks|
    ensures CloseFrom(s, i).closeCalls == s.closeCalls && CloseFrom(s, i).closedSessions == s.closedSessions
    decreases |s.tasks| - i
  {
    if i < |s.tasks| { CloseKeepsCloses(CloseOne(s, i), i + 1); }
  }

  // ---- the manager ----

  class Manager {
    const naming: Naming
    var tasks: seq<Task>
    var sessions: set<SessionId>
    var names: map<string, SessionId>
    var done: seq<nat>
    var notified: seq<nat>
    var closed: bool
    var closedSessions: set<SessionId>
    ghost var closeCalls: seq<SessionId>

    ghost function Now(): State
      reads this
    {
      State(tasks, sessions, names, done, notified, closed, closedSessions, closeCalls)
    }

    ghost predicate Valid()
      reads this
    {
      QueuesInv(Now()) && OwnershipInv(Now(), naming)
    }

    constructor (naming: Naming)
      ensures Valid() && Now() == EMPTY && this.naming == naming
    {
      this.naming := naming;
      tasks, sessions, names, done, notified := [], {}, map[], [], [];
      closed, closedSessions, closeCalls := false, {}, [];
    }

    ghost method KeepInvariants(a: Action)
      requires Valid()
      ensures QueuesInv(Step(Now(), a, naming)) && OwnershipInv(Step(Now(), a, naming), naming)
    {
      StepQueues(Now(), a, naming);
      StepOwnership(Now(), a, naming);
    }

    method LaunchTask(session: SessionId, blank: bool, notify: bool) returns (result: LaunchResult)
      requires Valid()
      modifies this
      ensures Valid() && result == TryLaunch(old(Now()), session, blank, naming).0
      ensures Now() == Step(old(Now()), Launch(session, blank, notify), naming)
      ensures !result.Launched? ==> Now() == old(Now())
    {
      hide QueuesInv, OwnershipInv, HasActive;
      KeepInvariants(Launch(session, blank, notify));
      NoRefusalAfterPop(Now(), session, blank, naming);
      if blank {
        return Blank;
      }
      if closed {
        return ManagerClosed;
      }
      var name := naming(session);
      var superseded: Option<SessionId> := None;
      if name in names && names[name] != session {
        if HasActive(tasks, names[name]) {
          return NameTaken;
        }
        superseded := if names[name] in sessions then Some(names[name]) else None;
        sessions := sessions - {names[name]};
      }
      if HasActive(tasks, session) {
        return SessionBusy(superseded);
      }
      sessions := sessions + {session};
      names := names[name := session];
      tasks := tasks + [Task(session, Queued, notify, NotStarted)];
      return Launched(|tasks| - 1, superseded);
    }

    method Finish(id: nat)
      requires id < |tasks|
      modifies this`done, this`notified
      ensures Now() == Finished(old(Now()), id)
    {
      done := done + [id];
      if tasks[id].notify {
        notified := notified + [id];
      }
    }

    method StopTask(id: nat) returns (stopped: bool)
      requires Valid() && id < |tasks|
      modifies this
      ensures Valid() && stopped == Active(old(tasks)[id])
      ensures Now() == Step(old(Now()), Stop(id), naming)
    {
      hide QueuesInv, OwnershipInv;
      KeepInvariants(Stop(id));
      stopped := Active(tasks[id]);
      if stopped {
        tasks := tasks[id := tasks[id].(status := Cancelling)];
      }
    }

    method MarkWaitingApproval(name: string, waiting: bool) returns (found: bool)
      requires Valid()
      modifies this
      ensures Valid() && found == LatestActive(old(tasks), name, naming).Some?
      ensures Now() == Step(old(Now()), MarkWaiting(name, waiting), naming)
    {
      hide QueuesInv, OwnershipInv;
      KeepInvariants(MarkWaiting(name, waiting));
      var at := LatestActive(tasks, name, naming);
      if at.None? {
        return false;
      }
      var t := tasks[at.value];
      if waiting && t.status.Running? {
        tasks := tasks[at.value := t.(status := WaitingApproval)];
      } else if !waiting && t.status.WaitingApproval? {
        tasks := tasks[at.value := t.(status := Running)];
      }
      return true;
    }

    method Detach(id: nat)
      requires Valid() && id < |tasks|
      modifies this
      ensures Valid() && Now() == Step(old(Now()), MarkBackground(id), naming)
    {
      hide QueuesInv, OwnershipInv;
      KeepInvariants(MarkBackground(id));
      if !tasks[id].notify {
        var ended := tasks[id].status.Terminal();
        tasks := tasks[id := tasks[id].(notify := true)];
        if ended {
          notified := notified + [id];
        }
      }
    }

    /** The locked part of `close`: one pass over all tasks. */
    method CloseAll()
      requires Valid()
      modifies this
      ensures Valid() && closed
      ensures Now() == Step(old(Now()), CloseManager, naming)
      ensures !old(closed) ==> forall i :: 0 <= i < |tasks| && Active(tasks[i]) ==> tasks[i].status.Cancelling?
    {
      hide QueuesInv, OwnershipInv;
      KeepInvariants(CloseManager);
      if closed {
        return;
      }
      closed := true;
      ghost var target := CloseFrom(Now(), 0);
      CloseKeepsOwners(Now(), 0);
      var i := 0;
      while i < |tasks|
        invariant i <= |tasks| && CloseFrom(Now(), i) == target && closed
        decreases |tasks| - i
      {
        var t := tasks[i];
        if Active(t) {
          if t.status.Queued? {
            tasks := tasks[i := t.(status := Cancelled)];
            Finish(i);
          } else {
            tasks := tasks[i := t.(status := Cancelling)];
          }
        }
        i := i + 1;
      }
    }

    /** First locked block of a worker's run. */
    method BeginRun(id: nat) returns (proceed: bool)
      requires Valid() && id < |tasks| && tasks[id].runner.NotStarted?
      modifies this
      ensures Valid() && Now() == Step(old(Now()), StartRun(id), naming)
      ensures proceed <==> old(tasks)[id].status.Queued?
    {
      assert TaskQueues(tasks[id], multiset(done)[id], multiset(notified)[id]);
      hide QueuesInv, OwnershipInv, CloseFrom, TryLaunch, LatestActive, End;
      KeepInvariants(StartRun(id));
      var t := tasks[id];
      if t.status.Terminal() {
        tasks := tasks[id := t.(runner := Ended)];
        return false;
      }
      if t.status.Cancelling? {
        tasks := tasks[id := t.(runner := Ended, status := Cancelled)];
        Finish(id);
        return false;
      }
      tasks := tasks[id := t.(runner := Executing, status := Running)];
      return true;
    }

    /** Last locked block of a worker's run; says whether the session is to be closed as well. */
    method CompleteRun(id: nat, outcome: Outcome) returns (closeAfterDetach: bool)
      requires Valid() && id < |tasks| && tasks[id].runner.Executing?
      modifies this
      ensures Valid() && Now() == Step(old(Now()), EndRun(id, outcome), naming)
      ensures closeAfterDetach == closed
    {
      hide QueuesInv, OwnershipInv, CloseFrom, TryLaunch, LatestActive, Start;
      KeepInvariants(EndRun(id, outcome));
      var t := tasks[id];
      var status := if t.status.Cancelling? then Cancelled else outcome.Status();
      tasks := tasks[id := t.(runner := Ended, status := status)];
      Finish(id);
      return closed;
    }

    method CloseSessionOnce(session: SessionId) returns (closes: bool)
      requires Valid() && closed
      modifies this
      ensures Valid() && Now() == Step(old(Now()), CloseSession(session), naming)
      ensures closes <==> session !in old(closedSessions)
    {
      hide QueuesInv, OwnershipInv;
      KeepInvariants(CloseSession(session));
      closes := session !in closedSessions;
      if closes {
        closedSessions, closeCalls := closedSessions + {session}, closeCalls + [session];
      }
    }
  }
}
