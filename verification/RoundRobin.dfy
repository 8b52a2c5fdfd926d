/** Equal-priority tasks share the CPU in turn: which task runs on which tick, in closed form. */
module RoundRobin {
  import opened KernelTypes
  import opened Sequences
  import opened ReadyQueues
  import opened KernelStates
  import opened Worlds
  import opened Scheduling
  import opened BoundedWaiting
  import opened Arithmetic

  /** What the program passes to `rtos_create_task`. */
  datatype TaskSpec = TaskSpec(priority: int, entry: bv32)

  function Creation(specs: seq<TaskSpec>): seq<Step>
    decreases |specs|
  {
    if specs == [] then [] else [Call(CreateTask(specs[0].priority, specs[0].entry))] + Creation(specs[1..])
  }

  /** The tasks of priority p among the first n created, in creation order. */
  function TopTasks(specs: seq<TaskSpec>, p: int, n: nat): seq<int>
    requires n <= |specs|
  {
    if n == 0 then []
    else if specs[n - 1].priority == p then TopTasks(specs, p, n - 1) + [n - 1]
    else TopTasks(specs, p, n - 1)
  }

  lemma {:induction false} TopTasksMembers(specs: seq<TaskSpec>, p: int, n: nat)
    requires n <= |specs|
    ensures Distinct(TopTasks(specs, p, n))
    ensures forall j :: 0 <= j < |TopTasks(specs, p, n)| ==>
                          && 0 <= TopTasks(specs, p, n)[j] < n
                          && specs[TopTasks(specs, p, n)[j]].priority == p
    ensures forall i :: 0 <= i < n && specs[i].priority == p ==> i in TopTasks(specs, p, n)
  {
    if n > 0 {
      TopTasksMembers(specs, p, n - 1);
    }
  }

  predicate TimersIdle(k: KernelState) {
    forall i :: 0 <= i < |k.timers| ==> !k.timers[i].active
  }

  /** All created tasks are READY with their priorities, and no timer is armed. */
  ghost predicate Calm(k: KernelState, specs: seq<TaskSpec>) {
    && Rested(k) && TimersIdle(k)
    && |k.tasks| == |specs|
    && forall i :: 0 <= i < |specs| ==> k.tasks[i].state == Ready && k.tasks[i].priority == specs[i].priority
  }

  // ---------------------------------------------------------------- creation

  lemma {:induction false} CreationIsCalm(w: World, specs: seq<TaskSpec>, n: nat, p: int)
    requires n <= |specs| <= w.k.cfg.maxTasks
    requires Calm(w.k, specs[..n]) && w.k.current == -1
    requires Peers(w.k.tasks, w.k.ready, p) == TopTasks(specs, p, n)
    ensures var k := Run(w, Creation(specs[n..])).k;
            && Calm(k, specs) && k.current == -1 && k.cfg == w.k.cfg
            && Peers(k.tasks, k.ready, p) == TopTasks(specs, p, |specs|)
    decreases |specs| - n
  {
    if n < |specs| {
      var spec := specs[n];
      assert specs[n..][1..] == specs[n + 1..];
      var a := CreateTask(spec.priority, spec.entry);
      assert Creation(specs[n..]) == [Call(a)] + Creation(specs[n + 1..]);
      CreateOne(w, specs, n, p);
      CreationIsCalm(Apply(w, a), specs, n + 1, p);
    } else {
      assert specs[..n] == specs;
    }
  }

  lemma EntryKeepsRest(k: KernelState, priority: int, entry: bv32)
    requires Rested(k) && |k.tasks| < k.cfg.maxTasks
    ensures var k' := k.(tasks := k.tasks + [NewTcb(|k.tasks| + 1, priority, entry)]); Exact(k') && Rested(k')
    ensures |k.tasks| !in k.ready
  {
  }

  /** Creating a task appends it to a table with room, READY and last in the queue. */
  lemma AddAppends(k: KernelState, priority: int, entry: bv32)
    requires Rested(k) && |k.tasks| < k.cfg.maxTasks
    ensures var n := |k.tasks|;
            var k' := AddTask(k, priority, entry);
            && k' == k.(tasks := k.tasks + [NewTcb(n + 1, priority, entry).(state := Ready)], ready := k.ready + [n])
            && Rested(k')
  {
    hide Exact, Rested, Remove, SetTaskState;
    var n := |k.tasks|;
    var k1 := k.(tasks := k.tasks + [NewTcb(n + 1, priority, entry)]);
    EntryKeepsRest(k, priority, entry);
    SetReady(k1, n, NoReason);
    SetTaskStateExact(k1, n, Ready, NoReason);
    RemoveAbsent(k.ready, n);
  }

  lemma CreatingCallAdds(w: World, priority: int, entry: bv32)
    ensures Apply(w, CreateTask(priority, entry)).k == AddTask(w.k, priority, entry)
  {
    hide AddTask;
    PerformOne(w.k, Add(priority, entry));
  }

  lemma CreatedIsCalm(k: KernelState, specs: seq<TaskSpec>, n: nat)
    requires n < |specs| <= k.cfg.maxTasks && Calm(k, specs[..n])
    ensures Calm(AddTask(k, specs[n].priority, specs[n].entry), specs[..n + 1])
  {
    hide Rested, AddTask;
    AddAppends(k, specs[n].priority, specs[n].entry);
    assert forall i :: 0 <= i < n ==> specs[..n + 1][i] == specs[..n][i];
  }

  lemma CreateOne(w: World, specs: seq<TaskSpec>, n: nat, p: int)
    requires n < |specs| <= w.k.cfg.maxTasks
    requires Calm(w.k, specs[..n]) && w.k.current == -1
    requires Peers(w.k.tasks, w.k.ready, p) == TopTasks(specs, p, n)
    ensures var k := Apply(w, CreateTask(specs[n].priority, specs[n].entry)).k;
            && Calm(k, specs[..n + 1]) && k.current == -1 && k.cfg == w.k.cfg
            && Peers(k.tasks, k.ready, p) == TopTasks(specs, p, n + 1)
  {
    var priority, entry := specs[n].priority, specs[n].entry;
    assert Rested(w.k) && InTable(w.k.tasks, w.k.ready) && |w.k.tasks| == n;
    CreatedIsCalm(w.k, specs, n);
    hide Apply, AddTask, Exact, Rested, Peers, Calm;
    CreatingCallAdds(w, priority, entry);
    var k := Apply(w, CreateTask(priority, entry)).k;
    AddAppends(w.k, priority, entry);
    PeersSame(w.k.tasks, k.tasks, w.k.ready, p);
    AddPeers(w.k, k, n, p);
    PeersOne(k.tasks, n, p);
  }

  lemma AddPeers(k: KernelState, k': KernelState, n: nat, p: int)
    requires Rested(k) && Rested(k') && n == |k.tasks| < |k'.tasks| && k'.ready == k.ready + [n]
    requires InTable(k'.tasks, k.ready)
    ensures InTable(k'.tasks, [n])
    ensures Peers(k'.tasks, k'.ready, p) == Peers(k'.tasks, k.ready, p) + Peers(k'.tasks, [n], p)
  {
    hide Exact;
    PeersAppend(k'.tasks, k.ready, [n], p);
  }

  // ---------------------------------------------------------------- a calm tick

  predicate OnlyWritesRegisters(body: seq<Action>) {
    forall j :: 0 <= j < |body| ==> body[j].WriteRegisters?
  }

  lemma {:induction false} RegisterWritesOnly(w: World, body: seq<Action>)
    requires OnlyWritesRegisters(body)
    ensures ApplyAll(w, body).k == w.k.(active := ApplyAll(w, body).k.active)
    decreases |body|
  {
    if body != [] {
      var e := SetRegisters(body[0].context);
      PerformOne(w.k, e);
      RegisterWritesOnly(Apply(w, body[0]), body[1..]);
    }
  }

  lemma {:induction false} NobodyToWake(k: KernelState, i: nat)
    requires forall j :: 0 <= j < |k.tasks| ==> k.tasks[j].state == Ready
    ensures SleepPass(k, i) == k
    decreases |k.tasks| - i
  {
    if i < |k.tasks| {
      NobodyToWake(k, i + 1);
    }
  }

  lemma {:induction false} NothingToFire(w: World, callbacks: seq<seq<Action>>, slot: nat)
    requires TimersIdle(w.k)
    ensures SoftPass(w, callbacks, slot) == w
    decreases |w.k.timers| - slot
  {
    if slot < |w.k.timers| {
      NothingToFire(w, callbacks, slot + 1);
    }
  }

  lemma CalmDecision(w: World, callbacks: seq<seq<Action>>, specs: seq<TaskSpec>)
    requires Calm(w.k, specs)
    ensures AtDecision(w, callbacks).k == w.k.(tick := w.k.tick + 1)
  {
    NobodyToWake(w.k.(tick := w.k.tick + 1), 0);
    NothingToFire(Wake(w), callbacks, 0);
    AtDecisionRested(w, callbacks);
  }

  /** The state a calm tick leaves: the dispatched task has moved to the tail, with its slice count updated. */
  ghost predicate MovedToTail(k0: KernelState, k: KernelState, specs: seq<TaskSpec>, x: int, slice: nat) {
    && 0 <= x < |specs| && Calm(k, specs) && k.cfg == k0.cfg && k.current == x
    && k.tasks[x].slice == slice
    && k.ready == Remove(k0.ready, x) + [x]
  }

  /** The slice count the dispatched task gets. */
  function SliceAfter(k: KernelState): nat
    requires InTable(k.tasks, k.ready) && Decide(k) != Idle
  {
    if Decide(k).Switch? then 1 else k.tasks[k.current].slice + 1
  }

  /** The kernel while the dispatched task's function runs without kernel calls. */
  ghost predicate InBody(k0: KernelState, k: KernelState, specs: seq<TaskSpec>, x: int, slice: nat) {
    && Exact(k) && TimersIdle(k)
    && |k.tasks| == |specs| && 0 <= x < |specs| && k.cfg == k0.cfg && k.current == x
    && k.tasks[x].state == Running && k.tasks[x].slice == slice
    && k.ready == Remove(k0.ready, x)
    && (forall i :: 0 <= i < |specs| ==> k.tasks[i].priority == specs[i].priority)
    && (forall i :: 0 <= i < |specs| && i != x ==> k.tasks[i].state == Ready)
  }

  lemma CalmDispatch(k0: KernelState, specs: seq<TaskSpec>, active: CpuContext)
    requires Calm(k0, specs) && Decide(k0) != Idle
    ensures InBody(k0, Dispatch(k0).(active := active), specs, Dispatch(k0).current, SliceAfter(k0))
  {
    assert InTable(k0.tasks, k0.ready);
    hide Exact, Remove, Decide, Dispatch, InTable, InBody;
    DispatchExact(k0);
    DispatchKeepsTimers(k0);
    DispatchKeepsPriorities(k0);
    ExactIgnoresRegisters(Dispatch(k0), active);
    BodyBegins(k0, Dispatch(k0).(active := active), specs, SliceAfter(k0));
  }

  lemma BodyBegins(k0: KernelState, k: KernelState, specs: seq<TaskSpec>, slice: nat)
    requires Calm(k0, specs) && Exact(k) && k.HasCurrent() && k.cfg == k0.cfg && k.timers == k0.timers
    requires |k.tasks| == |k0.tasks| && k.ready == Remove(k0.ready, k.current)
    requires k.tasks[k.current].state == Running && k.tasks[k.current].slice == slice
    requires forall i :: 0 <= i < |k0.tasks| ==> k.tasks[i].priority == k0.tasks[i].priority
    requires forall i :: 0 <= i < |k0.tasks| && i != k.current ==> k.tasks[i].state == k0.tasks[i].state
    ensures InBody(k0, k, specs, k.current, slice)
  {
    hide Exact, Remove;
  }

  lemma ExactIgnoresRegisters(k: KernelState, active: CpuContext)
    requires Exact(k)
    ensures Exact(k.(active := active))
  {
  }

  /** The dispatched task of a calm tick returns: it is READY again, at the tail. */
  lemma CalmReturn(k0: KernelState, w: World, specs: seq<TaskSpec>, x: int, slice: nat)
    requires Rested(k0) && InBody(k0, w.k, specs, x, slice)
    ensures MovedToTail(k0, End(w).k, specs, x, slice)
  {
    SetReady(w.k, x, NoReason);
    RemoveTwice(k0.ready, x);
    var k := SetTaskState(w.k, x, Ready, NoReason);
    assert End(w).k == k;
    hide SetTaskState, Exact, Remove, Distinct, End;
    assert forall i :: 0 <= i < |specs| && i != x ==> k.tasks[i] == w.k.tasks[i];
    NobodyRuns(k);
  }

  lemma NobodyRuns(k: KernelState)
    requires Exact(k) && forall i :: 0 <= i < |k.tasks| ==> k.tasks[i].state == Ready
    ensures Rested(k)
  {
  }

  lemma RemoveTwice(q: seq<int>, x: int)
    requires Distinct(q)
    ensures Remove(Remove(q, x), x) == Remove(q, x)
  {
    RemoveMembers(q, x);
    RemoveAbsent(Remove(q, x), x);
  }

  /** k0 is the state the decision is made in, and x the task it dispatches with the given slice count. */
  ghost predicate Dispatches(k0: KernelState, specs: seq<TaskSpec>, x: int, slice: nat) {
    Calm(k0, specs) && Decide(k0) != Idle && Dispatch(k0).current == x && SliceAfter(k0) == slice
  }

  /** A calm cycle is a dispatch, register writes, and a return. */
  lemma CalmCycle(w: World, s: TickScript, specs: seq<TaskSpec>)
    returns (k0: KernelState, x: int, slice: nat, body: World)
    requires Calm(w.k, specs) && specs != [] && OnlyWritesRegisters(s.body)
    ensures k0 == w.k.(tick := w.k.tick + 1) && Dispatches(k0, specs, x, slice)
    ensures Runner(w, s) == x && Cycle(w, s) == End(body)
    ensures body.k == Dispatch(k0).(active := body.k.active)
  {
    var d := AtDecision(w, s.callbacks);
    k0 := d.k;
    CalmDecision(w, s.callbacks, specs);
    CalmAtNextTick(w.k, specs);
    NeverIdle(k0, specs);
    hide AtDecision, Decide, Dispatch, Calm, End;
    x, slice := Dispatch(k0).current, SliceAfter(k0);
    RegisterWritesOnly(Begin(d), s.body);
    body := ApplyAll(Begin(d), s.body);
  }

  lemma NeverIdle(k: KernelState, specs: seq<TaskSpec>)
    requires Calm(k, specs) && specs != []
    ensures InTable(k.tasks, k.ready) && Decide(k) != Idle
  {
    assert k.tasks[0].state == Ready;
    DecideFromTable(k);
    hide Decide;
  }

  lemma CalmAtNextTick(k: KernelState, specs: seq<TaskSpec>)
    requires Calm(k, specs)
    ensures Calm(k.(tick := k.tick + 1), specs)
  {
    var k' := k.(tick := k.tick + 1);
    assert k'.tasks == k.tasks && k'.ready == k.ready && k'.timers == k.timers;
    hide Distinct, InTable;
  }

  lemma CalmTick(w: World, s: TickScript, specs: seq<TaskSpec>) returns (k0: KernelState, x: int, slice: nat)
    requires Calm(w.k, specs) && specs != [] && OnlyWritesRegisters(s.body)
    ensures k0 == w.k.(tick := w.k.tick + 1) && Dispatches(k0, specs, x, slice)
    ensures Runner(w, s) == x && MovedToTail(k0, Cycle(w, s).k, specs, x, slice)
  {
    var body;
    k0, x, slice, body := CalmCycle(w, s, specs);
    hide Cycle, Runner, End, Decide, Dispatch, MovedToTail, SliceAfter, InBody;
    CalmDispatch(k0, specs, body.k.active);
    CalmReturn(k0, body, specs, x, slice);
  }

  /** How the group sees a calm tick. */
  lemma PeersAfterMove(k0: KernelState, k: KernelState, specs: seq<TaskSpec>, x: int, slice: nat, p: int)
    requires Calm(k0, specs) && MovedToTail(k0, k, specs, x, slice) && specs[x].priority == p
    ensures Peers(k.tasks, k.ready, p) == Remove(Peers(k0.tasks, k0.ready, p), x) + [x]
  {
    var q := Remove(k0.ready, x);
    PeersRemove(k0.tasks, k0.ready, x, p);
    PeersSame(k0.tasks, k.tasks, q, p);
    assert InTable(k.tasks, [x]);
    PeersAppend(k.tasks, q, [x], p);
    PeersOne(k.tasks, x, p);
  }

  lemma PeersOne(tasks: seq<Tcb>, x: int, p: int)
    requires 0 <= x < |tasks|
    ensures Peers(tasks, [x], p) == if tasks[x].priority == p then [x] else []
  {
  }

  // ---------------------------------------------------------------- whose turn it is

  /** Position in the group of the task that runs on tick t of a calm run. */
  function TurnOf(t: nat, quantum: nat, size: nat): nat
    requires t >= 1 && quantum >= 1 && size >= 1
    ensures TurnOf(t, quantum, size) < size
  {
    ((t - 1) / quantum) % size
  }

  /** How many ticks of its slice the task running on tick t has used. */
  function SliceOf(t: nat, quantum: nat): (r: nat)
    requires t >= 1 && quantum >= 1
    ensures 1 <= r <= quantum
  {
    (t - 1) % quantum + 1
  }

  /** After t calm ticks: the queue is the group rotated to start behind the task that ran last. */
  ghost predicate InTurn(k: KernelState, group: seq<int>, p: int, t: nat)
    requires InTable(k.tasks, k.ready) && group != []
  {
    if t == 0 then k.current == -1 && Peers(k.tasks, k.ready, p) == group
    else
      var j := TurnOf(t, Quantum(k), |group|);
      && k.current == group[j] && 0 <= k.current < |k.tasks|
      && Peers(k.tasks, k.ready, p) == Rotated(group, j)
      && (|group| == 1 || k.tasks[k.current].slice == SliceOf(t, Quantum(k)))
  }

  /** A turn lasts a whole quantum, then passes to the next in the group. */
  lemma NextTurn(t: nat, quantum: nat, size: nat)
    requires t >= 1 && quantum >= 1 && size >= 1
    ensures var j := TurnOf(t, quantum, size);
            if SliceOf(t, quantum) == quantum then
              && TurnOf(t + 1, quantum, size) == After(j, size)
              && SliceOf(t + 1, quantum) == 1
            else
              && TurnOf(t + 1, quantum, size) == j
              && SliceOf(t + 1, quantum) == SliceOf(t, quantum) + 1
  {
    DivStep(t - 1, quantum);
    DivStep((t - 1) / quantum, size);
  }

  lemma FirstTurn(quantum: nat, size: nat)
    requires quantum >= 1 && size >= 1
    ensures TurnOf(1, quantum, size) == 0 && SliceOf(1, quantum) == 1
  {
    DivUnique(0, quantum, 0, 0);
    DivUnique(0, size, 0, 0);
  }

  /** The group in the order that starts behind member j. */
  function Rotated(group: seq<int>, j: nat): seq<int>
    requires j < |group|
  {
    group[j + 1..] + group[..j + 1]
  }

  function After(j: nat, size: nat): nat {
    if j + 1 == size then 0 else j + 1
  }

  lemma RotateHead(group: seq<int>, j: nat)
    requires j < |group|
    ensures var q := Rotated(group, j);
            var j' := After(j, |group|);
            && q != [] && q[0] == group[j'] && Remove(q, q[0]) + [q[0]] == Rotated(group, j')
  {
    var q := Rotated(group, j);
    assert Remove(q, q[0]) == q[1..];
  }

  lemma RotateKeep(group: seq<int>, j: nat)
    requires j < |group| && Distinct(group)
    ensures Remove(Rotated(group, j), group[j]) + [group[j]] == Rotated(group, j)
  {
    var q := Rotated(group, j);
    var last := |q| - 1;
    assert q[last] == group[j] && group[j] !in q[..last];
    RemoveAt(q, last);
    assert q[..last] + q[last + 1..] + [q[last]] == q;
  }

  /** The group: exactly the tasks that share the highest priority. */
  ghost predicate TopGroup(specs: seq<TaskSpec>, group: seq<int>, p: int) {
    && specs != [] && group != [] && Distinct(group)
    && (forall i :: 0 <= i < |specs| ==> specs[i].priority <= p)
    && (forall j :: 0 <= j < |group| ==> 0 <= group[j] < |specs| && specs[group[j]].priority == p)
  }

  lemma BestInTurn(k: KernelState, specs: seq<TaskSpec>, group: seq<int>, p: int, t: nat)
    requires Calm(k, specs) && TopGroup(specs, group, p) && InTurn(k, group, p, t)
    ensures k.ready != []
    ensures BestOf(k.tasks, k.ready) == group[if t == 0 then 0 else After(TurnOf(t, Quantum(k), |group|), |group|)]
  {
    hide TurnOf, SliceOf, Remove, BestOf, Distinct;
    if t > 0 {
      RotateHead(group, TurnOf(t, Quantum(k), |group|));
    }
    hide Rotated;
    assert Peers(k.tasks, k.ready, p) != [];
    BestIsFirstPeer(k.tasks, k.ready, p);
  }

  /** What the scheduler decides after t calm ticks. */
  lemma DecideTurn(k: KernelState, specs: seq<TaskSpec>, group: seq<int>, p: int, t: nat)
    requires Calm(k, specs) && TopGroup(specs, group, p) && InTurn(k, group, p, t)
    ensures Decide(k) != Idle
    ensures t == 0 ==> Decide(k).Switch? && Dispatch(k).current == group[0]
    ensures t >= 1 ==>
              var j := TurnOf(t, Quantum(k), |group|);
              var switches := |group| > 1 && SliceOf(t, Quantum(k)) == Quantum(k);
              && Decide(k).Switch? == switches
              && Dispatch(k).current == (if switches then group[After(j, |group|)] else group[j])
  {
    BestInTurn(k, specs, group, p, t);
    hide TurnOf, SliceOf, BestOf, Peers, Remove, Exact, Dispatch, Rotated;
  }

  /** The group rotation, one tick on: `x` runs and moves to the tail of `peers`. */
  lemma RotationStep(group: seq<int>, peers: seq<int>, quantum: nat, t: nat, switches: bool, x: int)
    requires group != [] && Distinct(group) && quantum >= 1 && t >= 1
    requires var j := TurnOf(t, quantum, |group|);
             && peers == Rotated(group, j)
             && switches == (|group| > 1 && SliceOf(t, quantum) == quantum)
             && x == if switches then group[After(j, |group|)] else group[j]
    ensures var j' := TurnOf(t + 1, quantum, |group|);
            x == group[j'] && Remove(peers, x) + [x] == Rotated(group, j')
    ensures |group| > 1 ==>
              SliceOf(t + 1, quantum) == if switches then 1 else SliceOf(t, quantum) + 1
  {
    NextTurn(t, quantum, |group|);
    var j := TurnOf(t, quantum, |group|);
    hide TurnOf, SliceOf, Rotated, Remove;
    if switches {
      RotateHead(group, j);
    } else {
      RotateKeep(group, j);
    }
  }

  /** One more calm tick keeps the rotation. */
  lemma MoveKeepsTurn(
      k0: KernelState, k: KernelState, specs: seq<TaskSpec>, group: seq<int>, p: int, t: nat, x: int, slice: nat)
    requires TopGroup(specs, group, p) && InTable(k0.tasks, k0.ready) && InTurn(k0, group, p, t)
    requires Dispatches(k0, specs, x, slice) && MovedToTail(k0, k, specs, x, slice)
    ensures CalmInTurn(k, specs, group, p, t + 1)
  {
    hide TurnOf, SliceOf, Dispatch, Decide, Peers, Remove, BestOf;
    var q, m := Quantum(k0), |group|;
    var peers := Peers(k0.tasks, k0.ready, p);
    DecideTurn(k0, specs, group, p, t);
    PeersAfterMove(k0, k, specs, x, slice, p);
    assert |k.tasks| == |specs| && k.tasks[x].slice == slice && InTable(k.tasks, k.ready) && k.cfg == k0.cfg;
    hide Calm, Distinct, TopGroup, InTable;
    if t == 0 {
      FirstTurn(q, m);
      assert Rotated(group, m - 1) == group;
      RotateHead(group, m - 1);
    } else {
      RotationStep(group, peers, q, t, Decide(k0).Switch?, x);
    }
    hide Rotated;
  }

  ghost predicate CalmInTurn(k: KernelState, specs: seq<TaskSpec>, group: seq<int>, p: int, t: nat) {
    Calm(k, specs) && TopGroup(specs, group, p) && InTurn(k, group, p, t)
  }

  lemma TickKeepsTurn(w: World, s: TickScript, specs: seq<TaskSpec>, group: seq<int>, p: int, t: nat)
    requires CalmInTurn(w.k, specs, group, p, t) && OnlyWritesRegisters(s.body)
    ensures var k := Cycle(w, s).k;
            CalmInTurn(k, specs, group, p, t + 1) && k.cfg == w.k.cfg && Runner(w, s) == k.current
  {
    hide TurnOf, SliceOf, Peers, Distinct, Cycle, Runner;
    var k0, x, slice := CalmTick(w, s, specs);
    hide Dispatches;
    MoveKeepsTurn(k0, Cycle(w, s).k, specs, group, p, t, x, slice);
  }

  // ---------------------------------------------------------------- the whole run

  lemma {:induction false} RunKeepsTurn(
      w: World, scripts: seq<TickScript>, specs: seq<TaskSpec>, group: seq<int>, p: int, t: nat)
    requires CalmInTurn(w.k, specs, group, p, t)
    requires forall j :: 0 <= j < |scripts| ==> OnlyWritesRegisters(scripts[j].body)
    ensures var k := Run(w, AsTicks(scripts)).k;
            CalmInTurn(k, specs, group, p, t + |scripts|) && k.cfg == w.k.cfg
    decreases |scripts|
  {
    hide CalmInTurn, OnlyWritesRegisters, Cycle;
    if scripts != [] {
      TickKeepsTurn(w, scripts[0], specs, group, p, t);
      assert AsTicks(scripts)[1..] == AsTicks(scripts[1..]);
      RunKeepsTurn(Cycle(w, scripts[0]), scripts[1..], specs, group, p, t + 1);
    }
  }

  /** Right after creation it is the first top-priority task's turn. */
  lemma FreshTasksInTurn(w: World, specs: seq<TaskSpec>, p: int)
    requires Initial(w) && |specs| <= w.k.cfg.maxTasks
    requires forall i :: 0 <= i < |specs| ==> specs[i].priority <= p
    requires exists i :: 0 <= i < |specs| && specs[i].priority == p
    ensures CalmInTurn(Run(w, Creation(specs)).k, specs, TopTasks(specs, p, |specs|), p, 0)
    ensures Run(w, Creation(specs)).k.cfg == w.k.cfg
  {
    TopTasksMembers(specs, p, |specs|);
    assert TopGroup(specs, TopTasks(specs, p, |specs|), p);
    assert specs[0..] == specs && specs[..0] == [];
    assert Calm(w.k, []) && Peers(w.k.tasks, w.k.ready, p) == TopTasks(specs, p, 0);
    hide Calm, Run, Creation, TopTasks, Peers, Initial, TopGroup;
    CreationIsCalm(w, specs, 0, p);
    assert InTable(Run(w, Creation(specs)).k.tasks, Run(w, Creation(specs)).k.ready);
  }

  /**
   * Round robin: create any tasks, of which `group` are those of the highest priority in creation order, with bodies
   * that make no kernel calls. Then tick t = |scripts| + 1 runs member ((t - 1) / quantum) mod |group|, whatever
   * lower-priority tasks are present.
   */
  lemma {:induction false} RunsInTurn(w: World, specs: seq<TaskSpec>, p: int, scripts: seq<TickScript>, s: TickScript)
    requires Initial(w) && |specs| <= w.k.cfg.maxTasks
    requires forall i :: 0 <= i < |specs| ==> specs[i].priority <= p
    requires exists i :: 0 <= i < |specs| && specs[i].priority == p
    requires forall j :: 0 <= j < |scripts| ==> OnlyWritesRegisters(scripts[j].body)
    requires OnlyWritesRegisters(s.body)
    ensures var group := TopTasks(specs, p, |specs|);
            var w1 := Run(Run(w, Creation(specs)), AsTicks(scripts));
            && group != []
            && Runner(w1, s) == group[TurnOf(|scripts| + 1, Quantum(w.k), |group|)]
  {
    hide TurnOf, SliceOf, CalmInTurn, Run, Creation, AsTicks, Runner, Cycle, Initial, TopTasks;
    FreshTasksInTurn(w, specs, p);
    var group := TopTasks(specs, p, |specs|);
    var w0 := Run(w, Creation(specs));
    RunKeepsTurn(w0, scripts, specs, group, p, 0);
    var w1 := Run(w0, AsTicks(scripts));
    TickKeepsTurn(w1, s, specs, group, p, |scripts|);
    NamesRunner(Cycle(w1, s).k, specs, group, p, |scripts| + 1);
  }

  lemma NamesRunner(k: KernelState, specs: seq<TaskSpec>, group: seq<int>, p: int, t: nat)
    requires CalmInTurn(k, specs, group, p, t) && t >= 1
    ensures group != [] && k.current == group[TurnOf(t, Quantum(k), |group|)]
  {
    hide TurnOf, SliceOf;
  }
}
