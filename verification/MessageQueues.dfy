/** The ring buffer as a FIFO over whole runs, and the two kinds of waiter it can have. */
module MessageQueues {
  import opened KernelTypes
  import opened KernelStates
  import opened EventScan
  import opened Worlds
  import opened RunInduction
  import opened Waiters
  import opened Traces
  import opened Calls

  function SentTo(h: History, q: nat): seq<int> {
    match h
    case Beginning => []
    case Then(past, Sent(q', _, v, _)) => if q' == q then SentTo(past, q) + [v] else SentTo(past, q)
    case Then(past, _) => SentTo(past, q)
  }

  function ReceivedFrom(h: History, q: nat): seq<int> {
    match h
    case Beginning => []
    case Then(past, Received(q', _, v, _)) => if q' == q then ReceivedFrom(past, q) + [v] else ReceivedFrom(past, q)
    case Then(past, _) => ReceivedFrom(past, q)
  }

  /** The slot of the i-th oldest value. */
  function SlotOf(mq: MessageQueue, i: nat): (s: nat)
    requires mq.InRange()
    ensures s < |mq.buffer|
  {
    (mq.front + i) % |mq.buffer|
  }

  /** The buffered values, oldest first. */
  function Contents(mq: MessageQueue): seq<int>
    requires mq.InRange()
  {
    seq(mq.count, i requires 0 <= i < mq.count => mq.buffer[SlotOf(mq, i)])
  }

  predicate WellFormed(mq: MessageQueue) {
    mq.InRange() && mq.rear == SlotOf(mq, mq.count)
  }

  function AfterSend(mq: MessageQueue, v: int): MessageQueue
    requires mq.InRange()
  {
    MessageQueue(mq.buffer[mq.rear := v], mq.front, (mq.rear + 1) % |mq.buffer|, mq.count + 1)
  }

  function AfterReceive(mq: MessageQueue): MessageQueue
    requires mq.InRange()
  {
    mq.(front := (mq.front + 1) % |mq.buffer|, count := mq.count - 1)
  }

  lemma RingIndex(front: nat, i: nat, n: nat)
    requires front < n && i <= n
    ensures (front + i) % n == if front + i < n then front + i else front + i - n
  {
    if front + i >= n {
      assert (front + i) % n == (front + i - n) % n;
    }
  }

  lemma SendAppends(mq: MessageQueue, v: int)
    requires WellFormed(mq) && mq.count < |mq.buffer|
    ensures WellFormed(AfterSend(mq, v)) && Contents(AfterSend(mq, v)) == Contents(mq) + [v]
  {
    var n := |mq.buffer|;
    RingIndex(mq.front, mq.count, n);
    RingIndex(mq.rear, 1, n);
    RingIndex(mq.front, mq.count + 1, n);
    forall i | 0 <= i < mq.count
      ensures SlotOf(mq, i) != mq.rear && SlotOf(AfterSend(mq, v), i) == SlotOf(mq, i)
    {
      RingIndex(mq.front, i, n);
    }
  }

  lemma ReceiveTakesOldest(mq: MessageQueue)
    requires WellFormed(mq) && mq.count > 0
    ensures WellFormed(AfterReceive(mq)) && Contents(mq) == [mq.buffer[mq.front]] + Contents(AfterReceive(mq))
  {
    var n := |mq.buffer|;
    var front' := (mq.front + 1) % n;
    RingIndex(mq.front, 1, n);
    RingIndex(mq.front, 0, n);
    RingIndex(mq.front, mq.count, n);
    RingIndex(front', mq.count - 1, n);
    forall i | 0 <= i < mq.count - 1 ensures SlotOf(AfterReceive(mq), i) == SlotOf(mq, i + 1) {
      RingIndex(mq.front, i + 1, n);
      RingIndex(front', i, n);
    }
  }

  predicate IsQueueCall(a: Action) {
    a.Send? || a.Receive?
  }

  predicate IsQueueEvent(e: Event) {
    e.Sent? || e.SendRefused? || e.Received? || e.ReceiveRefused?
  }

  lemma OtherCallsLeaveQueues(w: World, a: Action)
    requires !IsQueueCall(a)
    ensures var w' := Apply(w, a);
            && w'.queues == w.queues
            && (w'.log == w.log || (w'.log.Then? && w'.log.past == w.log
                                    && !IsQueueEvent(w'.log.event)))
  {
    hide SetFlags, AfterWait, Clear, Effects;
  }

  // ---------------------------------------------------------------- FIFO, any number of queues

  ghost predicate QueueIsFifo(w: World, q: nat)
    requires q < |w.queues|
  {
    && WellFormed(w.queues[q])
    && SentTo(w.log, q) == ReceivedFrom(w.log, q) + Contents(w.queues[q])
  }

  ghost predicate QueuesAreFifo(w: World) {
    forall q: nat :: q < |w.queues| ==> QueueIsFifo(w, q)
  }

  lemma SendIsFifo(w: World, q: nat, v: int)
    requires QueuesAreFifo(w) && Defined(w, Send(q, v))
    ensures QueuesAreFifo(Apply(w, Send(q, v)))
  {
    var w' := Apply(w, Send(q, v));
    var mq := w.queues[q];
    assert QueueIsFifo(w, q);
    if mq.count < |mq.buffer| {
      SendAppends(mq, v);
      hide Effects, Contents, WellFormed;
      forall p: nat | p < |w'.queues| ensures QueueIsFifo(w', p) {
        assert QueueIsFifo(w, p);
        if p == q {
          assert w'.queues[q] == AfterSend(mq, v);
          assert ReceivedFrom(w.log, q) + (Contents(mq) + [v]) == (ReceivedFrom(w.log, q) + Contents(mq)) + [v];
        }
      }
    } else {
      hide Effects, Contents, WellFormed;
      forall p: nat | p < |w'.queues| ensures QueueIsFifo(w', p) {
        assert QueueIsFifo(w, p);
      }
    }
  }

  lemma ReceiveIsFifo(w: World, q: nat)
    requires QueuesAreFifo(w) && Defined(w, Receive(q))
    ensures QueuesAreFifo(Apply(w, Receive(q)))
  {
    var w' := Apply(w, Receive(q));
    var mq := w.queues[q];
    assert QueueIsFifo(w, q);
    if mq.count > 0 {
      ReceiveTakesOldest(mq);
      hide Effects, Contents, WellFormed;
      forall p: nat | p < |w'.queues| ensures QueueIsFifo(w', p) {
        assert QueueIsFifo(w, p);
        if p == q {
          var v := mq.buffer[mq.front];
          var rest := Contents(AfterReceive(mq));
          assert w'.queues[q] == AfterReceive(mq);
          assert ReceivedFrom(w.log, q) + ([v] + rest) == (ReceivedFrom(w.log, q) + [v]) + rest;
        }
      }
    } else {
      hide Effects, Contents, WellFormed;
      forall p: nat | p < |w'.queues| ensures QueueIsFifo(w', p) {
        assert QueueIsFifo(w, p);
      }
    }
  }

  lemma ApplyIsFifo(w: World, a: Action)
    requires QueuesAreFifo(w)
    ensures QueuesAreFifo(Apply(w, a))
  {
    if !Defined(w, a) {
      hide Contents, WellFormed;
      forall p: nat | p < |w.queues| ensures QueueIsFifo(Apply(w, a), p) { assert QueueIsFifo(w, p); }
    } else if a.Send? {
      SendIsFifo(w, a.queue, a.value);
    } else if a.Receive? {
      ReceiveIsFifo(w, a.queue);
    } else {
      OtherCallsLeaveQueues(w, a);
      hide Apply, Contents, WellFormed;
      var w' := Apply(w, a);
      forall p: nat | p < |w'.queues| ensures QueueIsFifo(w', p) {
        assert QueueIsFifo(w, p);
      }
    }
  }

  lemma InternalIsFifo(w: World, w': World)
    requires QueuesAreFifo(w) && Internal(w, w')
    ensures QueuesAreFifo(w')
  {
    hide Contents, WellFormed;
    forall p: nat | p < |w'.queues| ensures QueueIsFifo(w', p) {
      assert QueueIsFifo(w, p);
    }
  }

  // ---------------------------------------------------------------- the calls of a run

  /** The value a send of the current task adds to queue q, if the call finds room. */
  function Accepted(m: Moment, q: nat): seq<int> {
    if m.call.Send? && m.call.queue == q && m.before.k.HasCurrent() && q < |m.before.queues|
       && m.before.queues[q].InRange() && m.before.queues[q].count != |m.before.queues[q].buffer|
    then [m.call.value] else []
  }

  /** The value at the front of queue q that a receive of the current task gets, if there is one. */
  function Delivered(m: Moment, q: nat): seq<int> {
    if m.call == Receive(q) && m.before.k.HasCurrent() && q < |m.before.queues|
       && m.before.queues[q].InRange() && m.before.queues[q].count != 0
    then [m.before.queues[q].buffer[m.before.queues[q].front]] else []
  }

  function SentBy(h: Trace, q: nat): seq<int> {
    if h == [] then [] else SentBy(Earlier(h), q) + Accepted(Latest(h), q)
  }

  function ReceivedBy(h: Trace, q: nat): seq<int> {
    if h == [] then [] else ReceivedBy(Earlier(h), q) + Delivered(Latest(h), q)
  }

  /** The log records exactly the values the calls pass. */
  ghost predicate Recorded(w: World, h: Trace) {
    forall q: nat :: SentTo(w.log, q) == SentBy(h, q) && ReceivedFrom(w.log, q) == ReceivedBy(h, q)
  }

  lemma CallRecords(w: World, a: Action, h: Trace)
    requires Recorded(w, h)
    ensures Recorded(Apply(w, a), h + [Moment(w, a)])
  {
    hide Apply, SentTo, ReceivedFrom, SentBy, ReceivedBy;
    forall q: nat | true
      ensures SentTo(Apply(w, a).log, q) == SentBy(h + [Moment(w, a)], q)
      ensures ReceivedFrom(Apply(w, a).log, q) == ReceivedBy(h + [Moment(w, a)], q)
    {
      CallLogged(w, a, q);
      AddedLast(h, Moment(w, a));
      OneMore(h, Moment(w, a), q);
    }
  }

  lemma OneMore(h: Trace, m: Moment, q: nat)
    ensures SentBy(h + [m], q) == SentBy(h, q) + Accepted(m, q)
    ensures ReceivedBy(h + [m], q) == ReceivedBy(h, q) + Delivered(m, q)
  {
    hide Accepted, Delivered;
    AddedLast(h, m);
  }

  /** What a call adds to the logged values of a queue. */
  lemma CallLogged(w: World, a: Action, q: nat)
    ensures SentTo(Apply(w, a).log, q) == SentTo(w.log, q) + Accepted(Moment(w, a), q)
    ensures ReceivedFrom(Apply(w, a).log, q) == ReceivedFrom(w.log, q) + Delivered(Moment(w, a), q)
  {
    hide Apply, WakeMostUrgent, BlockCurrent, Waiter;
    if !Defined(w, a) {
      SkippedCall(w, a);
    } else if a.Send? {
      SendCall(w, a.queue, a.value);
    } else if a.Receive? {
      ReceiveCall(w, a.queue);
    } else {
      OtherCallsLeaveQueues(w, a);
    }
  }

  lemma MovesRecord(w: World, w': World, h: Trace)
    requires Recorded(w, h) && Internal(w, w')
    ensures Recorded(w', h)
  {
  }

  lemma RunRecords(w: World, steps: seq<Step>)
    requires Initial(w)
    ensures Recorded(Run(w, steps), CallsOf(w, steps))
  {
    var R := (x: World, h: Trace) => Recorded(x, h);
    forall x: World, a: Action, h: Trace | R(x, h) ensures R(Apply(x, a), h + [Moment(x, a)]) {
      CallRecords(x, a, h);
    }
    forall x: World, x': World, h: Trace | R(x, h) && Internal(x, x') ensures R(x', h) {
      MovesRecord(x, x', h);
    }
    assert R(w, []);
    hide Apply, Run, CallsOf, Recorded, Internal;
    MovesAreInternal(R);
    TracksFromStart(R, w, steps);
  }

  /**
   * In every run, for every queue: the values that accepted sends of the run's scripts passed are the values that its
   * successful receives got, followed by the buffered ones; the log records exactly those calls.
   */
  lemma FirstInFirstOut(w: World, steps: seq<Step>, q: nat)
    requires Initial(w) && q < |Run(w, steps).queues|
    ensures var w', h := Run(w, steps), CallsOf(w, steps);
            && WellFormed(w'.queues[q])
            && SentBy(h, q) == ReceivedBy(h, q) + Contents(w'.queues[q])
            && SentTo(w'.log, q) == SentBy(h, q) && ReceivedFrom(w'.log, q) == ReceivedBy(h, q)
  {
    var P := (x: World) => QueuesAreFifo(x);
    forall x: World, a: Action | P(x) ensures P(Apply(x, a)) {
      ApplyIsFifo(x, a);
    }
    forall x: World, x': World | P(x) && Internal(x, x') ensures P(x') {
      InternalIsFifo(x, x');
    }
    assert P(w) by {
      forall p: nat | p < |w.queues| ensures QueueIsFifo(w, p) {
        RingIndex(0, 0, |w.queues[p].buffer|);
      }
    }
    hide Apply, Run, Internal, Contents, WellFormed;
    RunKeeps(P, w, steps);
    assert QueueIsFifo(Run(w, steps), q);
    RunRecords(w, steps);
  }

  // ---------------------------------------------------------------- one queue: who can be blocked

  /**
   * Blocked receivers and buffered messages together fit the n existing tasks, and so do blocked senders and free
   * slots; with at least as many slots as the table has entries, the two kinds of waiter never coexist.
   */
  predicate CountsFit(receivers: nat, senders: nat, mq: MessageQueue, n: nat, maxTasks: nat) {
    && (receivers > 0 ==> receivers + mq.count <= n)
    && (senders > 0 ==> senders + (|mq.buffer| - mq.count) <= n)
    && (maxTasks <= |mq.buffer| ==> receivers == 0 || senders == 0)
  }

  ghost predicate WaitersBounded(w: World) {
    && |w.queues| == 1
    && w.queues[0].InRange()
    && |w.k.tasks| <= w.k.cfg.maxTasks
    && CountsFit(CountOn(w.k.tasks, OnQueueEmpty), CountOn(w.k.tasks, OnQueueFull), w.queues[0], |w.k.tasks|,
                 w.k.cfg.maxTasks)
  }

  lemma SendCounts(w: World, v: int)
    requires |w.queues| == 1 && Defined(w, Send(0, v))
    ensures var k, k', mq := w.k, Apply(w, Send(0, v)).k, w.queues[0];
            && CountOn(k'.tasks, OnQueueFull) <= |k'.tasks|
            && (if mq.count == |mq.buffer| then CountOn(k'.tasks, OnQueueEmpty) <= CountOn(k.tasks, OnQueueEmpty)
                else
                  && CountOn(k'.tasks, OnQueueFull) <= CountOn(k.tasks, OnQueueFull)
                  && CountOn(k'.tasks, OnQueueEmpty) ==
                     if CountOn(k.tasks, OnQueueEmpty) == 0 then 0 else CountOn(k.tasks, OnQueueEmpty) - 1)
  {
    var k' := Apply(w, Send(0, v)).k;
    WaitersFit(k'.tasks, OnQueueFull);
    if w.queues[0].count == |w.queues[0].buffer| {
      OtherCallsDoNotBlock(w, Send(0, v), OnQueueEmpty);
      FewerOn(w.k.tasks, k'.tasks, OnQueueEmpty);
    } else {
      ApplyShrinksWaiters(w, Send(0, v), OnQueueFull);
      FewerOn(w.k.tasks, k'.tasks, OnQueueFull);
      WakeOneCount(w.k, OnQueueEmpty);
    }
    hide WaitersOn, PerformAll, Objects, CountOn;
  }

  lemma ReceiveCounts(w: World)
    requires |w.queues| == 1 && Defined(w, Receive(0))
    ensures var k, k' := w.k, Apply(w, Receive(0)).k;
            && CountOn(k'.tasks, OnQueueEmpty) <= |k'.tasks|
            && (if w.queues[0].count == 0 then CountOn(k'.tasks, OnQueueFull) <= CountOn(k.tasks, OnQueueFull)
                else
                  && CountOn(k'.tasks, OnQueueEmpty) <= CountOn(k.tasks, OnQueueEmpty)
                  && CountOn(k'.tasks, OnQueueFull) ==
                     if CountOn(k.tasks, OnQueueFull) == 0 then 0 else CountOn(k.tasks, OnQueueFull) - 1)
  {
    var k' := Apply(w, Receive(0)).k;
    WaitersFit(k'.tasks, OnQueueEmpty);
    if w.queues[0].count == 0 {
      OtherCallsDoNotBlock(w, Receive(0), OnQueueFull);
      FewerOn(w.k.tasks, k'.tasks, OnQueueFull);
    } else {
      ApplyShrinksWaiters(w, Receive(0), OnQueueEmpty);
      FewerOn(w.k.tasks, k'.tasks, OnQueueEmpty);
      WakeOneCount(w.k, OnQueueFull);
    }
    hide WaitersOn, PerformAll, Objects, CountOn;
  }

  /** What a call does to the queue object itself. */
  lemma QueueAfterCall(w: World, a: Action)
    requires |w.queues| == 1 && w.queues[0].InRange() && IsQueueCall(a) && Defined(w, a)
    ensures var mq := w.queues[0];
            Apply(w, a).queues ==
            [if a.Send? && mq.count < |mq.buffer| then AfterSend(mq, a.value)
             else if a.Receive? && mq.count > 0 then AfterReceive(mq)
             else mq]
  {
    hide Effects;
  }

  lemma ApplyTableFits(w: World, a: Action)
    requires |w.k.tasks| <= w.k.cfg.maxTasks
    ensures |Apply(w, a).k.tasks| <= Apply(w, a).k.cfg.maxTasks == w.k.cfg.maxTasks
  {
    hide Effects, Objects;
    var n := w.k.cfg.maxTasks;
    var P := (k: KernelState) => |k.tasks| <= k.cfg.maxTasks == n;
    forall k: KernelState, e: Effect | P(k) ensures P(Perform(k, e)) {
      hide SetTaskState;
    }
    PerformAllKeeps(P, e => true, w.k, Effects(w, a));
  }

  lemma QueueCallBounds(w: World, a: Action)
    requires WaitersBounded(w) && IsQueueCall(a) && Defined(w, a)
    ensures WaitersBounded(Apply(w, a))
  {
    hide Objects, Effects, PerformAll, CountOn;
    ApplyTableFits(w, a);
    QueueAfterCall(w, a);
    PerformAllFrame(w.k, Effects(w, a));
    if a.Send? {
      SendCounts(w, a.value);
    } else {
      ReceiveCounts(w);
    }
  }

  lemma ApplyBounds(w: World, a: Action)
    requires WaitersBounded(w)
    ensures WaitersBounded(Apply(w, a))
  {
    if !Defined(w, a) {
    } else if IsQueueCall(a) {
      QueueCallBounds(w, a);
    } else {
      ApplyTableFits(w, a);
      OtherCallsLeaveQueues(w, a);
      OtherCallsDoNotBlock(w, a, OnQueueEmpty);
      OtherCallsDoNotBlock(w, a, OnQueueFull);
      hide Apply, WaitersOn, CountOn;
      FewerOn(w.k.tasks, Apply(w, a).k.tasks, OnQueueEmpty);
      FewerOn(w.k.tasks, Apply(w, a).k.tasks, OnQueueFull);
    }
  }

  lemma InternalBounds(w: World, w': World)
    requires WaitersBounded(w) && Internal(w, w')
    ensures WaitersBounded(w')
  {
    InternalShrinksWaiters(w, w', OnQueueEmpty);
    InternalShrinksWaiters(w, w', OnQueueFull);
    hide WaitersOn, CountOn;
    FewerOn(w.k.tasks, w'.k.tasks, OnQueueEmpty);
    FewerOn(w.k.tasks, w'.k.tasks, OnQueueFull);
  }

  /** With one queue, in every run. */
  lemma SendersAndReceiversNeverBothBlock(w: World, steps: seq<Step>)
    requires Initial(w) && |w.queues| == 1
    ensures var w' := Run(w, steps);
            && |w'.queues| == 1
            && CountsFit(CountOn(w'.k.tasks, OnQueueEmpty), CountOn(w'.k.tasks, OnQueueFull), w'.queues[0],
                         |w'.k.tasks|, w'.k.cfg.maxTasks)
  {
    var P := (x: World) => WaitersBounded(x);
    forall x: World, a: Action | P(x) ensures P(Apply(x, a)) {
      ApplyBounds(x, a);
    }
    forall x: World, x': World | P(x) && Internal(x, x') ensures P(x') {
      InternalBounds(x, x');
    }
    assert P(w);
    hide Apply, Run, Internal;
    RunKeeps(P, w, steps);
  }
}
