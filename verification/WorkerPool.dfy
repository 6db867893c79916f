/** A fixed pool of daemon workers over one shared queue. Every block that runs under the
    executor's lock, every queue operation and every end of a work item is one step, and any
    thread may take the next one. */
module WorkerPool {

  datatype Item = Work(id: nat) | Sentinel

  /** Where a worker stands in its loop. */
  datatype Phase =
    | Looping            // about to count itself idle
    | Waiting            // counted idle, blocked in the queue
    | Holding(item: Item) // has an item, still counted idle
    | Running(id: nat)
    | Exited

  /** `unsent` sentinels are still to be put by the first shutdown. Work is numbered in the order it
      was accepted; `taken` lists what has left the queue. */
  datatype State = State(queue: seq<Item>, workers: seq<Phase>, idle: int, closed: bool, unsent: nat,
                         accepted: nat, taken: seq<nat>, maxWorkers: nat)

  datatype Action =
    | Submit
    | Close
    | PutSentinel
    | CountIdle(w: nat)
    | Dequeue(w: nat)
    | LeaveIdle(w: nat)
    | Finish(w: nat)

  function Initial(maxWorkers: nat): State {
    State([], [], 0, false, 0, 0, [], maxWorkers)
  }

  predicate Enabled(s: State, a: Action) {
    match a
    case Submit => !s.closed
    case Close => true
    case PutSentinel => s.unsent > 0
    case CountIdle(w) => w < |s.workers| && s.workers[w].Looping?
    case Dequeue(w) => w < |s.workers| && s.workers[w].Waiting? && s.queue != []
    case LeaveIdle(w) => w < |s.workers| && s.workers[w].Holding?
    case Finish(w) => w < |s.workers| && s.workers[w].Running?
  }

  /** A step that is not enabled does not happen. */
  function Step(s: State, a: Action): State {
    if !Enabled(s, a) then s
    else
      match a
      case Submit =>
        s.(queue := s.queue + [Work(s.accepted)], accepted := s.accepted + 1,
           workers := if s.idle == 0 && |s.workers| < s.maxWorkers then s.workers + [Looping] else s.workers)
      case Close =>
        if s.closed then s else s.(closed := true, unsent := |s.workers|)
      case PutSentinel =>
        s.(queue := s.queue + [Sentinel], unsent := s.unsent - 1)
      case CountIdle(w) =>
        s.(workers := s.workers[w := Waiting], idle := s.idle + 1)
      case Dequeue(w) =>
        s.(workers := s.workers[w := Holding(s.queue[0])], queue := s.queue[1..],
           taken := if s.queue[0].Work? then s.taken + [s.queue[0].id] else s.taken)
      case LeaveIdle(w) =>
        var next := if s.workers[w].item.Work? then Running(s.workers[w].item.id) else Exited;
        s.(workers := s.workers[w := next], idle := s.idle - 1)
      case Finish(w) =>
        s.(workers := s.workers[w := Looping])
  }

  function Run(s: State, actions: seq<Action>): State {
    if actions == [] then s
    else Step(Run(s, actions[..|actions| - 1]), actions[|actions| - 1])
  }

  // ---- counting ----

  predicate Idle(p: Phase) {
    p.Waiting? || p.Holding?
  }

  /** A worker that has met its sentinel. */
  predicate Leaving(p: Phase) {
    p.Exited? || (p.Holding? && p.item.Sentinel?)
  }

  function IdleCount(ws: seq<Phase>): nat {
    if ws == [] then 0 else IdleCount(ws[..|ws| - 1]) + (if Idle(ws[|ws| - 1]) then 1 else 0)
  }

  function LiveCount(ws: seq<Phase>): nat {
    if ws == [] then 0 else LiveCount(ws[..|ws| - 1]) + (if Leaving(ws[|ws| - 1]) then 0 else 1)
  }

  function Ids(queue: seq<Item>): seq<nat> {
    if queue == [] then []
    else Ids(queue[..|queue| - 1]) + (if queue[|queue| - 1].Work? then [queue[|queue| - 1].id] else [])
  }

  function SentinelCount(queue: seq<Item>): nat {
    if queue == [] then 0 else SentinelCount(queue[..|queue| - 1]) + (if queue[|queue| - 1].Sentinel? then 1 else 0)
  }

  lemma {:induction false} CountsAfterUpdate(ws: seq<Phase>, w: nat, p: Phase)
    requires w < |ws|
    ensures IdleCount(ws[w := p]) == IdleCount(ws) - (if Idle(ws[w]) then 1 else 0) + (if Idle(p) then 1 else 0)
    ensures LiveCount(ws[w := p]) == LiveCount(ws) - (if Leaving(ws[w]) then 0 else 1) + (if Leaving(p) then 0 else 1)
  {
    var last := |ws| - 1;
    if w == last {
      assert ws[w := p][..last] == ws[..last];
    } else {
      CountsAfterUpdate(ws[..last], w, p);
      assert ws[w := p][..last] == ws[..last][w := p];
    }
  }

  lemma CountsAfterSpawn(ws: seq<Phase>)
    ensures IdleCount(ws + [Looping]) == IdleCount(ws) && LiveCount(ws + [Looping]) == LiveCount(ws) + 1
  {
    assert (ws + [Looping])[..|ws|] == ws;
  }

  lemma {:induction false} AllLive(ws: seq<Phase>)
    requires forall i :: 0 <= i < |ws| ==> !Leaving(ws[i])
    ensures LiveCount(ws) == |ws|
  {
    if ws != [] { AllLive(ws[..|ws| - 1]); }
  }

  lemma QueueAfterPut(queue: seq<Item>, item: Item)
    ensures Ids(queue + [item]) == Ids(queue) + (if item.Work? then [item.id] else [])
    ensures SentinelCount(queue + [item]) == SentinelCount(queue) + (if item.Sentinel? then 1 else 0)
  {
    assert (queue + [item])[..|queue|] == queue;
  }

  lemma {:induction false} QueueAfterGet(queue: seq<Item>)
    requires queue != []
    ensures Ids(queue) == (if queue[0].Work? then [queue[0].id] else []) + Ids(queue[1..])
    ensures SentinelCount(queue) == SentinelCount(queue[1..]) + (if queue[0].Sentinel? then 1 else 0)
  {
    var last := |queue| - 1;
    if last == 0 {
      assert queue[..0] == [] && queue[1..] == [];
      return;
    } else {
      QueueAfterGet(queue[..last]);
      assert queue[..last][1..] == queue[1..][..last - 1];
      assert queue[1..][last - 1] == queue[last];
      return;
    }
  }

  lemma {:induction false} SentinelsOnly(queue: seq<Item>)
    requires forall i :: 0 <= i < |queue| ==> queue[i].Sentinel?
    ensures Ids(queue) == [] && SentinelCount(queue) == |queue|
  {
    if queue != [] { SentinelsOnly(queue[..|queue| - 1]); }
  }

  lemma {:induction false} AllWork(queue: seq<Item>)
    requires SentinelCount(queue) == 0
    ensures |Ids(queue)| == |queue| && forall i :: 0 <= i < |queue| ==> queue[i].Work?
  {
    if queue != [] { AllWork(queue[..|queue| - 1]); }
  }

  // ---- the invariant ----

  function Numbers(n: nat): seq<nat> {
    seq(n, i => i)
  }

  ghost predicate SentinelsLast(queue: seq<Item>) {
    forall i, j :: 0 <= i < j < |queue| && queue[i].Sentinel? ==> queue[j].Sentinel?
  }

  ghost predicate Inv(s: State) {
    && |s.workers| <= s.maxWorkers
    && s.idle == IdleCount(s.workers)
    // every accepted item is in exactly one place, and in order
    && s.taken + Ids(s.queue) == Numbers(s.accepted)
    && SentinelsLast(s.queue)
    // nobody meets a sentinel while work is queued, nor before the pool is closed
    && (forall w :: 0 <= w < |s.workers| && Leaving(s.workers[w]) ==> Ids(s.queue) == [] && s.closed)
    && (!s.closed ==> SentinelCount(s.queue) == 0 && s.unsent == 0)
    // after close there is exactly one sentinel, put or still to be put, for each live worker
    && (s.closed ==> s.unsent + SentinelCount(s.queue) == LiveCount(s.workers))
    && (s.accepted > 0 && s.maxWorkers > 0 ==> s.workers != [])
  }

  lemma InitialInv(maxWorkers: nat)
    ensures Inv(Initial(maxWorkers))
  {
    assert Numbers(0) == [];
  }

  lemma {:induction false} SubmitQueues(s: State)
    requires Inv(s) && !s.closed
    ensures var t := Step(s, Submit);
            t.taken + Ids(t.queue) == Numbers(t.accepted) && SentinelCount(t.queue) == 0 && SentinelsLast(t.queue)
  {
    QueueAfterPut(s.queue, Work(s.accepted));
    AllWork(s.queue);
    assert Numbers(s.accepted + 1) == Numbers(s.accepted) + [s.accepted];
    var t := Step(s, Submit);
    assert t.taken == s.taken && t.queue == s.queue + [Work(s.accepted)] && t.accepted == s.accepted + 1;
    hide Step, Ids, SentinelCount, IdleCount, LiveCount, Numbers;
    assert s.taken + (Ids(s.queue) + [s.accepted]) == (s.taken + Ids(s.queue)) + [s.accepted];
  }

  lemma {:induction false} SubmitInv(s: State)
    requires Inv(s) && !s.closed
    ensures Inv(Step(s, Submit))
  {
    SubmitQueues(s);
    CountsAfterSpawn(s.workers);
    forall w | 0 <= w < |s.workers| ensures !Leaving(s.workers[w]) {}
    assert s.workers == [] ==> s.idle == 0;
    hide Ids, SentinelCount, SentinelsLast, Numbers, IdleCount, LiveCount;
  }

  lemma CloseInv(s: State)
    requires Inv(s)
    ensures Inv(Step(s, Close))
  {
    if !s.closed {
      forall w | 0 <= w < |s.workers| ensures !Leaving(s.workers[w]) {}
      AllLive(s.workers);
    }
  }

  lemma PutInv(s: State)
    requires Inv(s) && s.unsent > 0
    ensures Inv(Step(s, PutSentinel))
  {
    QueueAfterPut(s.queue, Sentinel);
    var t := Step(s, PutSentinel);
    assert s.closed;
    assert Ids(t.queue) == Ids(s.queue) + [] == Ids(s.queue);
    forall i, j | 0 <= i < j < |t.queue| && t.queue[i].Sentinel? ensures t.queue[j].Sentinel? {
      if j < |s.queue| { assert s.queue[i].Sentinel?; }
    }
  }

  lemma {:induction false} Reassociated(x: seq<nat>, y: seq<nat>, z: seq<nat>)
    ensures x + (y + z) == (x + y) + z && x + [] == x
  {
  }

  lemma DequeueInv(s: State, w: nat)
    requires Inv(s) && Enabled(s, Dequeue(w))
    ensures Inv(Step(s, Dequeue(w)))
  {
    var t := Step(s, Dequeue(w));
    var item := s.queue[0];
    QueueAfterGet(s.queue);
    CountsAfterUpdate(s.workers, w, Holding(item));
    Reassociated(s.taken, if item.Work? then [item.id] else [], Ids(s.queue[1..]));
    hide Ids, SentinelCount, IdleCount, LiveCount, Numbers;
    forall i, j | 0 <= i < j < |t.queue| && t.queue[i].Sentinel? ensures t.queue[j].Sentinel? {
      assert s.queue[i + 1].Sentinel?;
    }
    if item.Sentinel? {
      forall i | 0 <= i < |s.queue| ensures s.queue[i].Sentinel? {}
      forall i | 0 <= i < |t.queue| ensures t.queue[i].Sentinel? { assert t.queue[i] == s.queue[i + 1]; }
      SentinelsOnly(t.queue);
      assert [] + Ids(t.queue) == Ids(t.queue);
    } else {
      assert s.taken + ([item.id] + Ids(t.queue)) == t.taken + Ids(t.queue);
      assert Ids(s.queue) != [];
    }
    forall v | 0 <= v < |t.workers| && Leaving(t.workers[v]) ensures Ids(t.queue) == [] && t.closed {
      if v != w { assert Leaving(s.workers[v]); }
    }
  }

  lemma LocalInv(s: State, a: Action)
    requires Inv(s) && Enabled(s, a) && (a.CountIdle? || a.LeaveIdle? || a.Finish?)
    ensures Inv(Step(s, a))
  {
    var t := Step(s, a);
    CountsAfterUpdate(s.workers, a.w, t.workers[a.w]);
    forall v | 0 <= v < |t.workers| && Leaving(t.workers[v]) ensures Ids(t.queue) == [] && t.closed {
      assert Leaving(s.workers[v]);
    }
  }

  /** No step of any thread breaks the invariant. */
  lemma StepInv(s: State, a: Action)
    requires Inv(s)
    ensures Inv(Step(s, a))
  {
    if Enabled(s, a) {
      match a
      case Submit => SubmitInv(s);
      case Close => CloseInv(s);
      case PutSentinel => PutInv(s);
      case Dequeue(w) => DequeueInv(s, w);
      case _ => LocalInv(s, a);
    }
  }

  lemma {:induction false} RunKeepsInv(s: State, actions: seq<Action>)
    requires Inv(s)
    ensures Inv(Run(s, actions))
  {
    hide Step, Inv;
    if actions != [] {
      RunKeepsInv(s, actions[..|actions| - 1]);
      StepInv(Run(s, actions[..|actions| - 1]), actions[|actions| - 1]);
    }
  }

  lemma {:induction false} RunInv(maxWorkers: nat, actions: seq<Action>)
    ensures Inv(Run(Initial(maxWorkers), actions))
  {
    InitialInv(maxWorkers);
    RunKeepsInv(Initial(maxWorkers), actions);
  }

  /** What holds after any interleaving of submits, shutdowns and worker steps. */
  lemma EveryInterleaving(maxWorkers: nat, actions: seq<Action>)
    requires maxWorkers >= 1
    ensures var s := Run(Initial(maxWorkers), actions);
            && |s.workers| <= maxWorkers
            // items leave the queue in the order they were accepted, each of them once
            && s.taken == Numbers(|s.taken|)
            && |s.taken| + |Ids(s.queue)| == s.accepted
            // no worker has left, or is about to, while work is queued; somebody is there to take it
            && (Ids(s.queue) != [] ==>
                  (forall w :: 0 <= w < |s.workers| ==> !Leaving(s.workers[w])) && s.workers != [])
            // once closed, one sentinel per live worker
            && (s.closed ==> s.unsent + SentinelCount(s.queue) == LiveCount(s.workers))
  {
    hide Inv, Run, Ids;
    var s := Run(Initial(maxWorkers), actions);
    RunInv(maxWorkers, actions);
    MaxStays(maxWorkers, actions);
    InvFacts(s);
  }

  lemma InvFacts(s: State)
    requires Inv(s) && s.maxWorkers >= 1
    ensures |s.workers| <= s.maxWorkers
    ensures s.taken == Numbers(|s.taken|) && |s.taken| + |Ids(s.queue)| == s.accepted
    ensures Ids(s.queue) != [] ==> (forall w :: 0 <= w < |s.workers| ==> !Leaving(s.workers[w])) && s.workers != []
    ensures s.closed ==> s.unsent + SentinelCount(s.queue) == LiveCount(s.workers)
  {
    var all := s.taken + Ids(s.queue);
    assert s.taken == all[..|s.taken|] && |all| == s.accepted;
    assert Numbers(s.accepted)[..|s.taken|] == Numbers(|s.taken|);
  }

  lemma {:induction false} MaxStays(maxWorkers: nat, actions: seq<Action>)
    ensures Run(Initial(maxWorkers), actions).maxWorkers == maxWorkers
  {
    if actions != [] { MaxStays(maxWorkers, actions[..|actions| - 1]); }
  }

  /** Closing stops new work and is final: whatever follows, nothing more is accepted. */
  lemma {:induction false} ClosedForGood(s: State, actions: seq<Action>)
    requires s.closed
    ensures Run(s, actions).closed && Run(s, actions).accepted == s.accepted
  {
    if actions != [] { ClosedForGood(s, actions[..|actions| - 1]); }
  }

  // ---- who takes a submitted item ----

  /** A worker that goes to the queue next, without finishing any work before. */
  predicate Free(p: Phase) {
    p.Looping? || p.Waiting?
  }

  function FreeCount(ws: seq<Phase>): nat {
    if ws == [] then 0 else FreeCount(ws[..|ws| - 1]) + (if Free(ws[|ws| - 1]) then 1 else 0)
  }

  lemma {:induction false} FreeAfterUpdate(ws: seq<Phase>, w: nat, p: Phase)
    requires w < |ws|
    ensures FreeCount(ws[w := p]) == FreeCount(ws) - (if Free(ws[w]) then 1 else 0) + (if Free(p) then 1 else 0)
  {
    var last := |ws| - 1;
    if w == last {
      assert ws[w := p][..last] == ws[..last];
    } else {
      FreeAfterUpdate(ws[..last], w, p);
      assert ws[w := p][..last] == ws[..last][w := p];
    }
  }

  lemma {:induction false} SomeFree(ws: seq<Phase>) returns (w: nat)
    requires FreeCount(ws) > 0
    ensures w < |ws| && Free(ws[w])
  {
    w := |ws| - 1;
    if !Free(ws[w]) { w := SomeFree(ws[..w]); }
  }

  lemma {:induction false} NobodyIdle(ws: seq<Phase>)
    ensures IdleCount(ws) == 0 <==> forall w :: 0 <= w < |ws| ==> !Idle(ws[w])
  {
    if ws != [] { NobodyIdle(ws[..|ws| - 1]); }
  }

  /** Neither a further submit nor the end of any work. */
  ghost predicate Quiet(actions: seq<Action>) {
    forall a :: a in actions ==> !a.Submit? && !a.Finish?
  }

  lemma {:induction false} RunConcat(s: State, x: seq<Action>, y: seq<Action>)
    ensures Run(s, x + y) == Run(Run(s, x), y)
  {
    hide Step;
    if y == [] {
      assert x + y == x;
    } else {
      assert (x + y)[..|x + y| - 1] == x + y[..|y| - 1];
      RunConcat(s, x, y[..|y| - 1]);
    }
  }

  lemma {:induction false} RunOne(s: State, a: Action)
    ensures Run(s, [a]) == Step(s, a)
  {
    hide Step;
    assert [a][..0] == [];
  }

  /** An item that leaves the queue uses up a free worker. */
  lemma {:induction false} QuietStepUsesFree(s: State, a: Action)
    requires !a.Submit? && !a.Finish?
    ensures var t := Step(s, a);
            FreeCount(t.workers) + |t.taken| <= FreeCount(s.workers) + |s.taken|
  {
    hide FreeCount;
    if Enabled(s, a) && !a.Close? && !a.PutSentinel? {
      FreeAfterUpdate(s.workers, a.w, Step(s, a).workers[a.w]);
    }
  }

  lemma {:induction false} QuietRunUsesFree(s: State, actions: seq<Action>)
    requires Quiet(actions)
    ensures var t := Run(s, actions);
            FreeCount(t.workers) + |t.taken| <= FreeCount(s.workers) + |s.taken|
  {
    hide Step, FreeCount;
    if actions != [] {
      var front, last := actions[..|actions| - 1], actions[|actions| - 1];
      assert last in actions;
      QuietRunUsesFree(s, front);
      QuietStepUsesFree(Run(s, front), last);
    }
  }

  /** A free worker can take the head of the queue at once. */
  lemma {:induction false} TakeHead(s: State, w: nat) returns (more: seq<Action>)
    requires w < |s.workers| && Free(s.workers[w]) && s.queue != [] && s.queue[0].Work?
    ensures Quiet(more)
    ensures var t := Run(s, more);
            && t.queue == s.queue[1..] && t.taken == s.taken + [s.queue[0].id]
            && t.workers == s.workers[w := Holding(s.queue[0])]
  {
    hide FreeCount;
    if s.workers[w].Waiting? {
      more := [Dequeue(w)];
      RunOne(s, Dequeue(w));
    } else {
      var first := Step(s, CountIdle(w));
      more := [CountIdle(w)] + [Dequeue(w)];
      RunConcat(s, [CountIdle(w)], [Dequeue(w)]);
      RunOne(s, CountIdle(w));
      RunOne(first, Dequeue(w));
      assert first.workers[w := Holding(s.queue[0])] == s.workers[w := Holding(s.queue[0])];
    }
  }

  /** As many items as there are free workers can leave the queue before any work ends. */
  lemma {:induction false} FreeWorkersTake(s: State, k: nat) returns (more: seq<Action>)
    requires k <= FreeCount(s.workers) && k <= |s.queue| && forall i :: 0 <= i < |s.queue| ==> s.queue[i].Work?
    ensures Quiet(more) && |Run(s, more).taken| == |s.taken| + k
    decreases k
  {
    if k == 0 {
      more := [];
    } else {
      var w := SomeFree(s.workers);
      var head := TakeHead(s, w);
      var t := Run(s, head);
      FreeAfterUpdate(s.workers, w, Holding(s.queue[0]));
      hide FreeCount;
      var rest := FreeWorkersTake(t, k - 1);
      RunConcat(s, head, rest);
      more := head + rest;
    }
  }

  lemma {:induction false} OpenQueueIsWork(s: State)
    requires Inv(s) && !s.closed
    ensures |Ids(s.queue)| == |s.queue| && forall i :: 0 <= i < |s.queue| ==> s.queue[i].Work?
  {
    AllWork(s.queue);
  }

  /** The item can leave the queue before any work ends and without a further submit. */
  ghost predicate TakenWithoutEnd(s: State, id: nat) {
    exists more :: Quiet(more) && id in Run(s, more).taken
  }

  lemma {:induction false} TakenIffFree(s: State)
    requires Inv(s) && !s.closed && s.accepted > 0 && s.queue != []
    ensures TakenWithoutEnd(s, s.accepted - 1) <==> |s.queue| <= FreeCount(s.workers)
  {
    OpenQueueIsWork(s);
    TakenInOrder(s);
    if |s.queue| <= FreeCount(s.workers) {
      var more := FreeWorkersTake(s, |s.queue|);
      RunKeepsInv(s, more);
      hide Inv;
      var u := Run(s, more);
      TakenInOrder(u);
      assert u.taken[s.accepted - 1] == s.accepted - 1;
    }
    hide FreeCount;
    forall more | Quiet(more) && s.accepted - 1 in Run(s, more).taken ensures |s.queue| <= FreeCount(s.workers) {
      QuietRunUsesFree(s, more);
      RunKeepsInv(s, more);
      hide Inv;
      TakenInOrder(Run(s, more));
    }
  }

  lemma {:induction false} TakenInOrder(s: State)
    requires Inv(s)
    ensures |s.taken| + |Ids(s.queue)| == s.accepted
    ensures forall id: nat :: id in s.taken ==> id < |s.taken|
    ensures forall i: nat :: i < |s.taken| ==> s.taken[i] == i
  {
    var all := s.taken + Ids(s.queue);
    assert |all| == s.accepted;
    assert all == Numbers(s.accepted);
    forall i: nat | i < |s.taken| ensures s.taken[i] == i {
      assert s.taken[i] == all[i];
    }
  }

  /** When a submitted item waits for work to end. In every reachable open state a submit with room
      starts no thread exactly if some worker is counted idle; and its item is taken before any work
      ends exactly if fewer items are queued than workers are free, a thread just started included. */
  lemma {:induction false} SubmittedItemWaitsIff(maxWorkers: nat, actions: seq<Action>)
    requires !Run(Initial(maxWorkers), actions).closed
    ensures var s := Run(Initial(maxWorkers), actions);
            var t := Step(s, Submit);
            var started := |t.workers| - |s.workers|;
            && (|s.workers| < maxWorkers ==> (started == 0 <==> exists w :: 0 <= w < |s.workers| && Idle(s.workers[w])))
            && (|s.workers| >= maxWorkers ==> started == 0)
            && (TakenWithoutEnd(t, s.accepted) <==> |s.queue| < FreeCount(s.workers) + started)
  {
    var s := Run(Initial(maxWorkers), actions);
    var t := Step(s, Submit);
    RunInv(maxWorkers, actions);
    MaxStays(maxWorkers, actions);
    NobodyIdle(s.workers);
    StepInv(s, Submit);
    SpawnIsFree(s.workers);
    hide Run, FreeCount, IdleCount, Ids, TakenWithoutEnd;
    TakenIffFree(t);
  }

  lemma {:induction false} SpawnIsFree(ws: seq<Phase>)
    ensures FreeCount(ws + [Looping]) == FreeCount(ws) + 1
  {
    assert (ws + [Looping])[..|ws|] == ws;
  }

  /** Such a wait with room for a thread does occur: a worker that has taken an item is still counted
      idle until it gets the lock back, and a submit in between starts no thread. */
  lemma WorkCanWaitDespiteRoom()
    ensures var s := Run(Initial(2), [Submit, CountIdle(0), Dequeue(0), Submit, LeaveIdle(0)]);
            && s.queue == [Work(1)]
            && s.workers == [Running(0)]
            && |s.workers| < s.maxWorkers
  {
    var s0 := Initial(2);
    var s1 := Step(s0, Submit);
    var s2 := Step(s1, CountIdle(0));
    var s3 := Step(s2, Dequeue(0));
    var s4 := Step(s3, Submit);
    var s5 := Step(s4, LeaveIdle(0));
    assert s5.queue == [Work(1)] && s5.workers == [Running(0)] && s5.maxWorkers == 2;
    hide Step;
    var a := [Submit, CountIdle(0), Dequeue(0), Submit, LeaveIdle(0)];
    assert Run(s0, a[..0]) == s0;
    assert a[..1][..0] == a[..0] && Run(s0, a[..1]) == s1;
    assert a[..2][..1] == a[..1] && Run(s0, a[..2]) == s2;
    assert a[..3][..2] == a[..2] && Run(s0, a[..3]) == s3;
    assert a[..4][..3] == a[..3] && Run(s0, a[..4]) == s4;
    assert a[..5] == a;
  }

  /** The executor: its methods are the atomic steps, in the fields the threads share. */
  class Executor {
    const maxWorkers: nat
    var queue: seq<Item>
    var workers: seq<Phase>
    var idle: int
    var closed: bool
    var unsent: nat
    var accepted: nat  // numbers the work; it stands for the identity of a future
    ghost var taken: seq<nat>

    ghost function Now(): State
      reads this
    {
      State(queue, workers, idle, closed, unsent, accepted, taken, maxWorkers)
    }

    ghost predicate Valid()
      reads this
    {
      Inv(Now())
    }

    constructor (maxWorkers: nat)
      ensures Valid() && Now() == Initial(maxWorkers)
    {
      this.maxWorkers := maxWorkers;
      queue, workers, idle, closed, unsent, accepted, taken := [], [], 0, false, 0, 0, [];
      new;
      InitialInv(maxWorkers);
    }

    /** The locked block of `submit`; refused once the executor is closed. */
    method SubmitWork() returns (ok: bool)
      requires Valid()
      modifies this
      ensures Valid() && ok == !old(closed)
      ensures Now() == Step(old(Now()), Submit)
    {
      hide Inv, IdleCount, Ids, SentinelCount, LiveCount;
      StepInv(Now(), Submit);
      if closed {
        return false;
      }
      queue := queue + [Work(accepted)];
      accepted := accepted + 1;
      if idle == 0 && |workers| < maxWorkers {
        workers := workers + [Looping];
      }
      return true;
    }

    /** The locked block of `shutdown`; only the first call owes sentinels. */
    method CloseQueue() returns (firstClose: bool)
      requires Valid()
      modifies this
      ensures Valid() && firstClose == !old(closed)
      ensures Now() == Step(old(Now()), Close)
    {
      hide Inv;
      StepInv(Now(), Close);
      firstClose := !closed;
      if firstClose {
        closed, unsent := true, |workers|;
      }
    }

    method PutOneSentinel()
      requires Valid() && unsent > 0
      modifies this
      ensures Valid() && Now() == Step(old(Now()), PutSentinel)
    {
      hide Inv;
      StepInv(Now(), PutSentinel);
      queue, unsent := queue + [Sentinel], unsent - 1;
    }

    method BecomeIdle(w: nat)
      requires Valid() && w < |workers| && workers[w].Looping?
      modifies this
      ensures Valid() && Now() == Step(old(Now()), CountIdle(w))
    {
      hide Inv;
      StepInv(Now(), CountIdle(w));
      workers, idle := workers[w := Waiting], idle + 1;
    }

    method Take(w: nat) returns (item: Item)
      requires Valid() && w < |workers| && workers[w].Waiting? && queue != []
      modifies this
      ensures Valid() && Now() == Step(old(Now()), Dequeue(w)) && item == old(queue)[0]
    {
      hide Inv;
      StepInv(Now(), Dequeue(w));
      item := queue[0];
      workers, queue := workers[w := Holding(item)], queue[1..];
      taken := if item.Work? then taken + [item.id] else taken;
    }

    method StopIdling(w: nat) returns (exits: bool)
      requires Valid() && w < |workers| && workers[w].Holding?
      modifies this
      ensures Valid() && Now() == Step(old(Now()), LeaveIdle(w))
      ensures exits <==> old(workers)[w].item.Sentinel?
    {
      hide Inv;
      StepInv(Now(), LeaveIdle(w));
      var item := workers[w].item;
      idle := idle - 1;
      exits := item.Sentinel?;
      workers := workers[w := if item.Work? then Running(item.id) else Exited];
    }

    method EndWork(w: nat)
      requires Valid() && w < |workers| && workers[w].Running?
      modifies this
      ensures Valid() && Now() == Step(old(Now()), Finish(w))
    {
      hide Inv;
      StepInv(Now(), Finish(w));
      workers := workers[w := Looping];
    }
  }
}
