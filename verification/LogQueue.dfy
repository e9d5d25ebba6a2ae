/** LogService: producers push under the lock, one worker swaps the queue out and publishes, and a flag stops it. */
module LogQueue {

  datatype Severity = Debug | Info | Warn | Error

  datatype Record = Record(text: string, severity: Severity, component: string)

  /** Where the worker is: at its wait, working through a batch, with one record in hand, or gone. */
  datatype Worker = Waiting | Draining(batch: seq<Record>) | Publishing(record: Record, batch: seq<Record>) | Exited

  /** `accepted` and `atStop` are history: all records in the order of their pushes, and how many at the stop. */
  datatype State = State(queue: seq<Record>, running: bool, worker: Worker, published: seq<Record>,
    accepted: seq<Record>, atStop: nat)

  datatype Event = Log(record: Record) | Stop | Work

  function Initial(): State {
    State([], true, Waiting, [], [], 0)
  }

  /** The worker's condition variable lets it go on. */
  predicate Awake(s: State) {
    s.worker != Waiting || s.queue != [] || !s.running
  }

  predicate CanHappen(s: State, e: Event) {
    match e
    case Log(_) => true
    case Stop => s.running
    case Work => s.worker != Exited && Awake(s)
  }

  function Next(s: State, e: Event): State
    requires CanHappen(s, e)
  {
    match e
    case Log(p) => s.(queue := s.queue + [p], accepted := s.accepted + [p])
    case Stop => s.(running := false, atStop := |s.accepted|)
    case Work =>
      match s.worker
      case Waiting => if !s.running && s.queue == [] then s.(worker := Exited)
        else s.(worker := Draining(s.queue), queue := [])
      case Draining(batch) => if batch == [] then s.(worker := Waiting)
        else s.(worker := Publishing(batch[0], batch[1..]))
      case Publishing(p, batch) => s.(published := s.published + [p], worker := Draining(batch))
  }

  function InHand(w: Worker): seq<Record> {
    match w
    case Draining(batch) => batch
    case Publishing(p, batch) => [p] + batch
    case _ => []
  }

  /** Published, in flight, in the batch, in the queue: together everything accepted, in order. */
  predicate Conserved(s: State) {
    && s.published + InHand(s.worker) + s.queue == s.accepted
    && s.atStop <= |s.accepted|
    && (s.worker == Exited ==> !s.running && s.atStop <= |s.published|)
  }

  lemma NextConserves(s: State, e: Event)
    requires Conserved(s) && CanHappen(s, e)
    ensures Conserved(Next(s, e))
  {
    match e
    case Log(p) =>
      assert (s.published + InHand(s.worker) + s.queue) + [p] == s.published + InHand(s.worker) + (s.queue + [p]);
    case Stop =>
    case Work =>
      match s.worker
      case Waiting => assert s.published + [] + s.queue == s.published + s.queue + [];
      case Draining(batch) => assert batch != [] ==> batch == [batch[0]] + batch[1..];
      case Publishing(p, batch) => assert s.published + ([p] + batch) == (s.published + [p]) + batch;
  }

  lemma InitialConserved()
    ensures Conserved(Initial())
  {
  }

  predicate Run(states: seq<State>, events: seq<Event>) {
    && |states| == |events| + 1 && states[0] == Initial()
    && forall k | 0 <= k < |events| :: CanHappen(states[k], events[k]) && states[k + 1] == Next(states[k], events[k])
  }

  /**
    At every step of every interleaving of producers, stop and worker: published, in flight, batch and queue
    are together everything accepted, in order. When the worker has gone, everything accepted before the flag
    was cleared has been published, once, in that order.
   */
  lemma {:induction false} NothingLost(states: seq<State>, events: seq<Event>, k: nat)
    requires Run(states, events) && k < |states|
    ensures var s := states[k];
            && Conserved(s) && s.published <= s.accepted
            && (s.worker == Exited ==> s.atStop <= |s.published| && s.published[..s.atStop] == s.accepted[..s.atStop])
  {
    hide Conserved, Next, CanHappen;
    if k > 0 {
      NothingLost(states, events, k - 1);
      NextConserves(states[k - 1], events[k - 1]);
    } else {
      InitialConserved();
    }
    ConservedPublishes(states[k]);
  }

  lemma ConservedPublishes(s: State)
    requires Conserved(s)
    ensures s.published <= s.accepted
    ensures s.worker == Exited ==> s.atStop <= |s.published| && s.published[..s.atStop] == s.accepted[..s.atStop]
  {
    assert s.published + InHand(s.worker) + s.queue == s.published + (InHand(s.worker) + s.queue);
  }

  /** Records the worker has still to deal with, two steps each, and its way out. */
  function Remaining(s: State): nat {
    match s.worker
    case Exited => 0
    case Waiting => 1 + (if s.queue == [] then 0 else 2 + 2 * |s.queue|)
    case Draining(batch) => 2 + 2 * |batch| + (if s.queue == [] then 0 else 2 + 2 * |s.queue|)
    case Publishing(_, batch) => 3 + 2 * |batch| + (if s.queue == [] then 0 else 2 + 2 * |s.queue|)
  }

  /** Once stopped, the worker never waits, and every step of it brings the exit nearer. */
  lemma StoppedWorkerEnds(s: State)
    requires !s.running && s.worker != Exited
    ensures CanHappen(s, Work) && Remaining(Next(s, Work)) < Remaining(s)
  {
  }

  // ---- how soon ------------------------------------------------------------------------------------

  /** Steps of the worker until the first `n` accepted records are published. */
  function Until(s: State, n: nat): nat {
    var left := n - |s.published|;
    if left <= 0 then 0
    else match s.worker
      case Draining(batch) => if left <= |batch| then 2 * left else 2 * left + 2
      case Publishing(_, batch) => if left <= |batch| + 1 then 2 * left - 1 else 2 * left + 1
      case _ => 2 * left + 1
  }

  /** Running or stopped, a worker with a record still to publish is awake, and its step brings that nearer. */
  lemma PendingWorks(s: State, n: nat)
    requires Conserved(s) && |s.published| < n <= |s.accepted| && s.worker != Exited
    ensures CanHappen(s, Work) && Until(Next(s, Work), n) < Until(s, n) && Next(s, Work).worker != Exited
  {
    assert |s.published + InHand(s.worker) + s.queue| == |s.accepted|;
  }

  function WorksIn(events: seq<Event>, j: nat, k: nat): nat
    requires j <= k <= |events|
  {
    if k == j then 0 else WorksIn(events, j, k - 1) + if events[k - 1] == Work then 1 else 0
  }

  lemma {:induction false} RunNears(states: seq<State>, events: seq<Event>, j: nat, k: nat, n: nat)
    requires Run(states, events) && j <= k <= |events| && states[j].worker != Exited && n <= |states[j].accepted|
    ensures |states[k].accepted| >= |states[j].accepted|
    ensures |states[k].published| >= n
         || (states[k].worker != Exited && Until(states[k], n) + WorksIn(events, j, k) <= Until(states[j], n))
    decreases k
  {
    if k > j {
      RunNears(states, events, j, k - 1, n);
      NothingLost(states, events, k - 1);
      var s, e := states[k - 1], events[k - 1];
      assert CanHappen(s, e) && states[k] == Next(s, e);
      hide Run, Conserved, Until, Next, CanHappen;
      EventNears(s, e, n);
    }
  }

  lemma EventNears(s: State, e: Event, n: nat)
    requires Conserved(s) && CanHappen(s, e) && n <= |s.accepted|
    ensures var s' := Next(s, e);
            && |s'.accepted| >= |s.accepted| && |s'.published| >= |s.published|
            && (|s.published| < n && s.worker != Exited ==>
                  s'.worker != Exited && Until(s', n) + (if e == Work then 1 else 0) <= Until(s, n))
  {
    if e == Work && |s.published| < n && s.worker != Exited {
      PendingWorks(s, n);
      hide Until, Conserved;
    } else {
      hide Conserved;
    }
  }

  /**
    Whatever is logged meanwhile, and whether the service is stopped or not: what was accepted while the worker
    was there is published after at most two of its steps for each record, and two more.
   */
  lemma PublishedWithin(states: seq<State>, events: seq<Event>, j: nat, k: nat, n: nat)
    requires Run(states, events) && j <= k <= |events| && states[j].worker != Exited && n <= |states[j].accepted|
    requires n >= |states[j].published| && WorksIn(events, j, k) >= 2 * (n - |states[j].published|) + 2
    ensures |states[k].published| >= n && states[k].published[..n] == states[j].accepted[..n]
  {
    RunNears(states, events, j, k, n);
    NothingLost(states, events, k);
    AcceptedGrows(states, events, j, k);
  }

  lemma {:induction false} AcceptedGrows(states: seq<State>, events: seq<Event>, j: nat, k: nat)
    requires Run(states, events) && j <= k <= |events|
    ensures states[j].accepted <= states[k].accepted
    decreases k
  {
    if k > j {
      AcceptedGrows(states, events, j, k - 1);
      assert CanHappen(states[k - 1], events[k - 1]) && states[k] == Next(states[k - 1], events[k - 1]);
    }
  }

  class LogService {
    var queue: seq<Record>
    var running: bool
    var published: seq<Record>       // what the bus got
    ghost var accepted: seq<Record>
    ghost var atStop: nat

    constructor ()
      ensures Value(Waiting) == Initial()
    {
      queue, running, published, accepted, atStop := [], true, [], [], 0;
    }

    /** The object, with the worker at a given place, as a state. */
    ghost function Value(worker: Worker): State
      reads this
    {
      State(queue, running, worker, published, accepted, atStop)
    }

    /** log */
    method Log(p: Record, ghost worker: Worker)
      modifies this`queue, this`accepted
      ensures Value(worker) == Next(old(Value(worker)), Event.Log(p))
    {
      queue := queue + [p];
      accepted := accepted + [p];
    }

    /** The destructor's critical section. */
    method Shutdown(ghost worker: Worker)
      requires running
      modifies this`running, this`atStop
      ensures Value(worker) == Next(old(Value(worker)), Stop)
    {
      running := false;
      atStop := |accepted|;
    }

    /** The critical section of the worker: leave, or take the whole queue. */
    method TakeBatch() returns (exit: bool, batch: seq<Record>)
      requires Awake(Value(Waiting))
      modifies this`queue
      ensures Value(if exit then Exited else Draining(batch)) == Next(old(Value(Waiting)), Work)
      ensures exit ==> batch == []
    {
      exit, batch := !running && queue == [], [];
      if !exit {
        batch, queue := queue, [];
      }
    }

    /** One record of the batch: taken out, then published. */
    method PublishFirst(batch: seq<Record>) returns (rest: seq<Record>)
      requires batch != []
      modifies this`published
      ensures var popped := Next(old(Value(Draining(batch))), Work); Value(Draining(rest)) == Next(popped, Work)
    {
      var p := batch[0];
      rest := batch[1..];
      published := published + [p];
    }

    /** worker_loop after the flag was cleared and the producers are gone: it publishes what is left, and ends. */
    method WorkerLoop()
      requires !running && Conserved(Value(Waiting))
      modifies this`queue, this`published
      ensures Conserved(Value(Exited)) && published == accepted
    {
      var exit := false;
      while !exit
        invariant Conserved(Value(if exit then Exited else Waiting))
        invariant exit ==> queue == []
        decreases !exit, |queue|
      {
        var batch: seq;
        NextConserves(Value(Waiting), Work);
        ghost var n := |queue|;
        exit, batch := TakeBatch();
        while batch != []
          invariant !exit ==> Conserved(Value(Draining(batch))) && queue == [] && n > 0
          invariant exit ==> batch == [] && queue == [] && Conserved(Value(Exited))
          decreases |batch|
        {
          NextConserves(Value(Draining(batch)), Work);
          NextConserves(Next(Value(Draining(batch)), Work), Work);
          batch := PublishFirst(batch);
        }
        if !exit {
          NextConserves(Value(Draining(batch)), Work);
        }
      }
    }
  }
}
