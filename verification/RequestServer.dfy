/** Admission, the fixed-worker executor and shutdown of the daemon's socket server
    (src/tendwire/daemon_api.py). One step for each section that runs without interruption: the
    accept thread, the workers and the closing thread may interleave between any two of them. */
module RequestServer {

  /** A connection and the future that serves it share one number. */
  type Id = nat

  datatype Item = Work(id: Id) | Sentinel

  datatype Future = Pending | Running | Cancelled | Finished

  datatype Worker = Waiting | Took(item: Item) | Busy(id: Id) | Exited

  /** What the accept thread is doing with a connection that has its permit. */
  datatype Accepting = Idle | Admitted(id: Id) | Enqueued(id: Id)

  datatype Closing = Open | Cancelling(rest: set<Id>) | ShuttingDown | Draining | Dismissing(left: nat) | Closed

  predicate Done(f: Future) {
    f.Cancelled? || f.Finished?
  }

  // ----- Who has what in hand -----

  /** 1 for an item, or a worker, that has this connection in hand. */
  function HasWork(item: Item, id: Id): nat {
    if item == Work(id) then 1 else 0
  }

  function HasTaken(w: Worker, id: Id): nat {
    if w.Took? then HasWork(w.item, id) else 0
  }

  function IsServing(w: Worker, id: Id): nat {
    if w == Busy(id) then 1 else 0
  }

  /** 1 for a worker that has received its sentinel. */
  function Gone(w: Worker): nat {
    if w.Exited? || w == Took(Sentinel) then 1 else 0
  }

  function Queued(queue: seq<Item>, id: Id): nat {
    if queue == [] then 0 else Queued(queue[..|queue| - 1], id) + HasWork(queue[|queue| - 1], id)
  }

  function Sentinels(queue: seq<Item>): (n: nat)
    ensures n <= |queue|
  {
    if queue == [] then 0 else Sentinels(queue[..|queue| - 1]) + if queue[|queue| - 1].Sentinel? then 1 else 0
  }

  function Taken(workers: seq<Worker>, id: Id): nat {
    if workers == [] then 0 else Taken(workers[..|workers| - 1], id) + HasTaken(workers[|workers| - 1], id)
  }

  function Served(workers: seq<Worker>, id: Id): nat {
    if workers == [] then 0 else Served(workers[..|workers| - 1], id) + IsServing(workers[|workers| - 1], id)
  }

  function Dismissed(workers: seq<Worker>): (n: nat)
    ensures n <= |workers|
  {
    if workers == [] then 0 else Dismissed(workers[..|workers| - 1]) + Gone(workers[|workers| - 1])
  }

  lemma {:induction false} HeadQueued(queue: seq<Item>, id: Id)
    requires queue != []
    ensures Queued(queue, id) == Queued(queue[1..], id) + HasWork(queue[0], id)
  {
    if |queue| > 1 {
      var front := queue[..|queue| - 1];
      HeadQueued(front, id);
      assert front[1..] == queue[1..][..|queue[1..]| - 1];
    }
  }

  lemma {:induction false} HeadSentinel(queue: seq<Item>)
    requires queue != []
    ensures Sentinels(queue) == Sentinels(queue[1..]) + if queue[0].Sentinel? then 1 else 0
  {
    if |queue| > 1 {
      var front := queue[..|queue| - 1];
      HeadSentinel(front);
      assert front[1..] == queue[1..][..|queue[1..]| - 1];
    }
  }

  lemma {:induction false} NothingQueued(id: Id)
    ensures Queued([], id) == 0
  {
  }

  lemma {:induction false} Appended(queue: seq<Item>, item: Item, id: Id)
    ensures Queued(queue + [item], id) == Queued(queue, id) + HasWork(item, id)
    ensures Sentinels(queue + [item]) == Sentinels(queue) + if item.Sentinel? then 1 else 0
  {
    assert (queue + [item])[..|queue|] == queue;
  }

  lemma {:induction false} WorkerTurned(workers: seq<Worker>, i: nat, w: Worker, id: Id)
    requires i < |workers|
    ensures Taken(workers[i := w], id) + HasTaken(workers[i], id) == Taken(workers, id) + HasTaken(w, id)
    ensures Served(workers[i := w], id) + IsServing(workers[i], id) == Served(workers, id) + IsServing(w, id)
    ensures Dismissed(workers[i := w]) + Gone(workers[i]) == Dismissed(workers) + Gone(w)
  {
    var n := |workers| - 1;
    assert workers[i := w][..n] == if i < n then workers[..n][i := w] else workers[..n];
    if i < n { WorkerTurned(workers[..n], i, w, id); }
  }

  lemma {:induction false} NobodyStarted(workers: seq<Worker>, id: Id)
    requires forall i :: 0 <= i < |workers| ==> workers[i].Waiting?
    ensures Taken(workers, id) == 0 && Served(workers, id) == 0 && Dismissed(workers) == 0
  {
    if workers != [] { NobodyStarted(workers[..|workers| - 1], id); }
  }

  lemma {:induction false} EverybodyGone(workers: seq<Worker>, id: Id)
    requires forall i :: 0 <= i < |workers| ==> workers[i].Exited?
    ensures Taken(workers, id) == 0 && Served(workers, id) == 0 && Dismissed(workers) == |workers|
  {
    if workers != [] { EverybodyGone(workers[..|workers| - 1], id); }
  }

  /** A queue of distinct connections is no longer than any set that contains them all. */
  lemma {:induction false} QueueFits(queue: seq<Item>, holders: set<Id>)
    requires Sentinels(queue) == 0
    requires forall id: Id :: Queued(queue, id) <= 1 && (Queued(queue, id) == 1 ==> id in holders)
    ensures |queue| <= |holders|
    decreases |queue|
  {
    if queue != [] {
      var (rest, last) := (queue[..|queue| - 1], queue[|queue| - 1]);
      forall id: Id ensures Queued(rest, id) <= 1 && (Queued(rest, id) == 1 ==> id in holders - {last.id}) {
        assert Queued(queue, id) == Queued(rest, id) + HasWork(last, id);
      }
      assert Queued(queue, last.id) == Queued(rest, last.id) + 1;
      QueueFits(rest, holders - {last.id});
    }
  }

  lemma {:induction false} LastCounts(queue: seq<Item>)
    requires queue != []
    ensures queue[|queue| - 1].Work? ==> Queued(queue, queue[|queue| - 1].id) >= 1
  {
  }

  /** A queue without work holds sentinels only. */
  lemma {:induction false} OnlySentinels(queue: seq<Item>)
    requires forall id: Id :: Queued(queue, id) == 0
    ensures Sentinels(queue) == |queue|
  {
    if queue != [] {
      var (rest, last) := (queue[..|queue| - 1], queue[|queue| - 1]);
      forall id: Id ensures Queued(rest, id) == 0 { assert Queued(queue, id) == 0; }
      LastCounts(queue);
      OnlySentinels(rest);
    }
  }

  // ----- The server's state -----

  /** `tracked` connections have a tracked future; `armed` ones have its callback yet to be called,
      `due` ones have it called and waiting for the tracking lock. Admitted connections are numbered
      in order. The last three fields are history: who holds a permit, and how often each permit was
      released and each future resolved. */
  datatype State = State(
    capacity: nat, permits: nat, accepting: bool, stopped: bool, queue: seq<Item>, workers: seq<Worker>,
    futures: map<Id, Future>, tracked: set<Id>, armed: set<Id>, due: set<Id>, accept: Accepting,
    closing: Closing, next: Id, holders: set<Id>, released: multiset<Id>, resolved: multiset<Id>)

  predicate InAccept(s: State, id: Id) {
    !s.accept.Idle? && s.accept.id == id
  }

  /** An admitted connection holds its permit or has given it back once. */
  predicate PermitOk(s: State, id: Id) {
    && s.released[id] + (if id in s.holders then 1 else 0) == (if id < s.next then 1 else 0)
    && (id in s.holders <==> id in s.tracked || InAccept(s, id))
    && !(id in s.tracked && InAccept(s, id))
  }

  predicate FutureOk(s: State, id: Id) {
    && (id in s.tracked <==> id in s.armed || id in s.due)
    && (id in s.armed ==> id in s.futures && !Done(s.futures[id]) && id !in s.due)
    && (id in s.due ==> id in s.futures && Done(s.futures[id]))
    && (id in s.futures ==> id < s.next && (Done(s.futures[id]) || id in s.armed || s.accept == Enqueued(id)))
    && s.resolved[id] == (if id in s.futures && Done(s.futures[id]) then 1 else 0)
    && (InAccept(s, id) ==> (id in s.futures <==> s.accept.Enqueued?))
  }

  /** A future is in at most one pair of hands; one that is not done is in somebody's. */
  predicate HandsOk(s: State, id: Id) {
    && Queued(s.queue, id) + Taken(s.workers, id) + Served(s.workers, id) <= 1
    && (Queued(s.queue, id) + Taken(s.workers, id) == 1 ==>
          id in s.futures && (s.futures[id].Pending? || s.futures[id].Cancelled?))
    && (Served(s.workers, id) == 1 ==> id in s.futures && s.futures[id].Running?)
    && (id in s.futures && s.futures[id].Pending? ==> Queued(s.queue, id) + Taken(s.workers, id) == 1)
    && (id in s.futures && s.futures[id].Running? ==> Served(s.workers, id) == 1)
  }

  predicate ConnectionOk(s: State, id: Id) {
    && PermitOk(s, id) && FutureOk(s, id) && HandsOk(s, id)
    && (s.accepting && id in s.futures ==> !s.futures[id].Cancelled?)
    && (s.closing.Cancelling? && id in s.closing.rest ==> id in s.futures)
    && (s.closing.Dismissing? || s.closing.Closed? ==> Queued(s.queue, id) == 0)
  }

  predicate ClosingOk(s: State) {
    && (s.accepting <==> s.closing.Open?)
    && (!s.accepting ==> !s.accept.Enqueued?)
    && (s.stopped <==> s.closing.Draining? || s.closing.Dismissing? || s.closing.Closed?)
    && (s.closing.Dismissing? ==> s.closing.left <= |s.workers|)
    && Sentinels(s.queue) + Dismissed(s.workers) == SentinelsPut(s)
  }

  function SentinelsPut(s: State): int {
    match s.closing
    case Dismissing(left) => |s.workers| - left
    case Closed => |s.workers|
    case _ => 0
  }

  ghost predicate Ok(s: State) {
    && s.permits + |s.holders| == s.capacity && 0 < |s.workers| <= s.capacity
    && (forall id: Id :: ConnectionOk(s, id))
    && ClosingOk(s)
  }

  // ----- The uninterrupted sections -----

  function Fresh(capacity: nat, threads: nat): State {
    State(capacity, capacity, true, false, [], seq(threads, _ => Waiting), map[], {}, {}, {}, Idle, Open, 0, {},
          multiset{}, multiset{})
  }

  function Released(s: State, id: Id): State {
    s.(permits := s.permits + 1, holders := s.holders - {id}, released := s.released + multiset{id})
  }

  function Resolved(s: State, id: Id, outcome: Future): State {
    s.(futures := s.futures[id := outcome], resolved := s.resolved + multiset{id}, armed := s.armed - {id},
       due := if id in s.armed then s.due + {id} else s.due)
  }

  /** `Future.cancel`: only a future that has not started is cancelled. */
  function CancelFuture(s: State, id: Id): State {
    if id in s.futures && s.futures[id].Pending? then Resolved(s, id, Cancelled) else s
  }

  datatype Move =
    | Accept | Enqueue | Register | Take(worker: nat) | Begin(worker: nat) | Complete(worker: nat)
    | Callback(id: Id) | BeginClose | CancelTracked(id: Id) | Stop | Drain | Dismiss

  predicate Enabled(s: State, move: Move) {
    match move
    case Accept => s.accept.Idle?
    case Enqueue => s.accept.Admitted?
    case Register => s.accept.Enqueued? && s.accept.id in s.futures
    case Take(w) => w < |s.workers| && s.workers[w].Waiting? && s.queue != []
    case Begin(w) => w < |s.workers| && s.workers[w].Took? && (s.workers[w].item.Work? ==> s.workers[w].item.id in s.futures)
    case Complete(w) => w < |s.workers| && s.workers[w].Busy?
    case Callback(id) => id in s.due && !s.accept.Enqueued?
    case BeginClose => s.closing.Open? && !s.accept.Enqueued?
    case CancelTracked(id) => s.closing.Cancelling? && id in s.closing.rest
    case Stop => s.closing.Cancelling? && s.closing.rest == {}
    case Drain => s.closing.Draining?
    case Dismiss => s.closing.Dismissing?
  }

  function After(s: State, move: Move): State
    requires Enabled(s, move)
  {
    match move
    case Accept =>
      if s.permits == 0 then s
      else s.(permits := s.permits - 1, holders := s.holders + {s.next}, accept := Admitted(s.next), next := s.next + 1)
    case Enqueue =>
      if !s.accepting || s.stopped then Released(s, s.accept.id).(accept := Idle)
      else s.(queue := s.queue + [Work(s.accept.id)], futures := s.futures[s.accept.id := Pending], accept := Enqueued(s.accept.id))
    case Register =>
      if Done(s.futures[s.accept.id]) then Released(s, s.accept.id).(accept := Idle)
      else s.(tracked := s.tracked + {s.accept.id}, armed := s.armed + {s.accept.id}, accept := Idle)
    case Take(w) => s.(workers := s.workers[w := Took(s.queue[0])], queue := s.queue[1..])
    case Begin(w) =>
      (match s.workers[w].item
       case Sentinel => s.(workers := s.workers[w := Exited])
       case Work(id) =>
         if s.futures[id].Pending? then s.(futures := s.futures[id := Running], workers := s.workers[w := Busy(id)])
         else s.(workers := s.workers[w := Waiting]))
    case Complete(w) => Resolved(s, s.workers[w].id, Finished).(workers := s.workers[w := Waiting])
    case Callback(id) => Released(s, id).(due := s.due - {id}, tracked := s.tracked - {id})
    case BeginClose => s.(accepting := false, closing := Cancelling(s.tracked))
    case CancelTracked(id) => CancelFuture(s, id).(closing := Cancelling(s.closing.rest - {id}))
    case Stop => s.(stopped := true, closing := Draining)
    case Drain =>
      if s.queue == [] then s.(closing := Dismissing(|s.workers|))
      else (if s.queue[0].Work? then CancelFuture(s, s.queue[0].id) else s).(queue := s.queue[1..])
    case Dismiss =>
      if s.closing.left == 0 then s.(closing := Closed)
      else s.(queue := s.queue + [Sentinel], closing := Dismissing(s.closing.left - 1))
  }

  // ----- Every section keeps the invariant -----

  lemma {:induction false} AcceptOk(s: State)
    requires Ok(s) && Enabled(s, Accept)
    ensures Ok(After(s, Accept))
  {
    hide Queued;
    hide Taken;
    hide Served;
    hide Dismissed;
    hide Sentinels;
    var t := After(s, Accept);
    assert ConnectionOk(s, s.next);
    forall x: Id ensures ConnectionOk(t, x) {
      assert ConnectionOk(s, x);
    }
  }

  lemma {:induction false} EnqueueOk(s: State)
    requires Ok(s) && Enabled(s, Enqueue)
    ensures Ok(After(s, Enqueue))
  {
    hide Queued;
    hide Taken;
    hide Served;
    hide Dismissed;
    hide Sentinels;
    var t := After(s, Enqueue);
    assert ConnectionOk(s, s.accept.id);
    Appended(s.queue, Work(s.accept.id), 0);
    forall x: Id ensures ConnectionOk(t, x) {
      assert ConnectionOk(s, x);
      Appended(s.queue, Work(s.accept.id), x);
    }
  }

  lemma {:induction false} RegisterOk(s: State)
    requires Ok(s) && Enabled(s, Register)
    ensures Ok(After(s, Register))
  {
    hide Queued;
    hide Taken;
    hide Served;
    hide Dismissed;
    hide Sentinels;
    var t := After(s, Register);
    assert ConnectionOk(s, s.accept.id);
    forall x: Id ensures ConnectionOk(t, x) {
      assert ConnectionOk(s, x);
    }
  }

  lemma {:induction false} TakeOk(s: State, w: nat)
    requires Ok(s) && Enabled(s, Take(w))
    ensures Ok(After(s, Take(w)))
  {
    hide Queued;
    hide Taken;
    hide Served;
    hide Dismissed;
    hide Sentinels;
    var t := After(s, Take(w));
    HeadSentinel(s.queue);
    WorkerTurned(s.workers, w, t.workers[w], 0);
    forall x: Id ensures ConnectionOk(t, x) {
      assert ConnectionOk(s, x);
      HeadQueued(s.queue, x);
      WorkerTurned(s.workers, w, t.workers[w], x);
    }
  }

  lemma {:induction false} ExitOk(s: State, w: nat)
    requires Ok(s) && Enabled(s, Begin(w)) && s.workers[w].item.Sentinel?
    ensures Ok(After(s, Begin(w)))
  {
    hide Queued;
    hide Taken;
    hide Served;
    hide Dismissed;
    hide Sentinels;
    var t := After(s, Begin(w));
    WorkerTurned(s.workers, w, Exited, 0);
    forall x: Id ensures ConnectionOk(t, x) {
      assert ConnectionOk(s, x);
      WorkerTurned(s.workers, w, Exited, x);
    }
  }

  lemma {:induction false} BeginWorkOk(s: State, w: nat, id: Id)
    requires Ok(s) && Enabled(s, Begin(w)) && s.workers[w].item == Work(id)
    ensures Ok(After(s, Begin(w)))
  {
    hide Queued;
    hide Taken;
    hide Served;
    hide Dismissed;
    hide Sentinels;
    var t := After(s, Begin(w));
    assert ConnectionOk(s, id);
    WorkerTurned(s.workers, w, t.workers[w], 0);
    forall x: Id ensures ConnectionOk(t, x) {
      assert ConnectionOk(s, x);
      WorkerTurned(s.workers, w, t.workers[w], x);
    }
  }

  lemma {:induction false} BeginOk(s: State, w: nat)
    requires Ok(s) && Enabled(s, Begin(w))
    ensures Ok(After(s, Begin(w)))
  {
    match s.workers[w].item
    case Sentinel => ExitOk(s, w);
    case Work(id) => BeginWorkOk(s, w, id);
  }

  lemma {:induction false} CompleteOk(s: State, w: nat)
    requires Ok(s) && Enabled(s, Complete(w))
    ensures Ok(After(s, Complete(w)))
  {
    hide Queued;
    hide Taken;
    hide Served;
    hide Dismissed;
    hide Sentinels;
    var t := After(s, Complete(w));
    assert ConnectionOk(s, s.workers[w].id);
    WorkerTurned(s.workers, w, t.workers[w], 0);
    forall x: Id ensures ConnectionOk(t, x) {
      assert ConnectionOk(s, x);
      WorkerTurned(s.workers, w, t.workers[w], x);
    }
  }

  lemma {:induction false} CallbackOk(s: State, id: Id)
    requires Ok(s) && Enabled(s, Callback(id))
    ensures Ok(After(s, Callback(id)))
  {
    hide Queued;
    hide Taken;
    hide Served;
    hide Dismissed;
    hide Sentinels;
    var t := After(s, Callback(id));
    assert ConnectionOk(s, id);
    forall x: Id ensures ConnectionOk(t, x) {
      assert ConnectionOk(s, x);
    }
  }

  lemma {:induction false} BeginCloseOk(s: State)
    requires Ok(s) && Enabled(s, BeginClose)
    ensures Ok(After(s, BeginClose))
  {
    hide Queued;
    hide Taken;
    hide Served;
    hide Dismissed;
    hide Sentinels;
    var t := After(s, BeginClose);
    forall x: Id ensures ConnectionOk(t, x) {
      assert ConnectionOk(s, x);
    }
  }

  lemma {:induction false} CancelTrackedOk(s: State, id: Id)
    requires Ok(s) && Enabled(s, CancelTracked(id))
    ensures Ok(After(s, CancelTracked(id)))
  {
    hide Queued;
    hide Taken;
    hide Served;
    hide Dismissed;
    hide Sentinels;
    var t := After(s, CancelTracked(id));
    forall x: Id ensures ConnectionOk(t, x) {
      assert ConnectionOk(s, x);
    }
  }

  lemma {:induction false} StopOk(s: State)
    requires Ok(s) && Enabled(s, Stop)
    ensures Ok(After(s, Stop))
  {
    hide Queued;
    hide Taken;
    hide Served;
    hide Dismissed;
    hide Sentinels;
    var t := After(s, Stop);
    forall x: Id ensures ConnectionOk(t, x) {
      assert ConnectionOk(s, x);
    }
  }

  lemma {:induction false} DrainOk(s: State)
    requires Ok(s) && Enabled(s, Drain)
    ensures Ok(After(s, Drain))
  {
    hide Queued;
    hide Taken;
    hide Served;
    hide Dismissed;
    hide Sentinels;
    var t := After(s, Drain);
    if s.queue != [] { HeadSentinel(s.queue); }
    forall x: Id ensures ConnectionOk(t, x) {
      assert ConnectionOk(s, x);
      if s.queue != [] { HeadQueued(s.queue, x); } else { NothingQueued(x); }
    }
  }

  lemma {:induction false} DismissOk(s: State)
    requires Ok(s) && Enabled(s, Dismiss)
    ensures Ok(After(s, Dismiss))
  {
    hide Queued;
    hide Taken;
    hide Served;
    hide Dismissed;
    hide Sentinels;
    var t := After(s, Dismiss);
    Appended(s.queue, Sentinel, 0);
    forall x: Id ensures ConnectionOk(t, x) {
      assert ConnectionOk(s, x);
      Appended(s.queue, Sentinel, x);
    }
  }

  lemma {:induction false} FreshOk(capacity: nat, threads: nat)
    requires 0 < threads <= capacity
    ensures Ok(Fresh(capacity, threads))
  {
    var s := Fresh(capacity, threads);
    NobodyStarted(s.workers, 0);
    forall x: Id ensures ConnectionOk(s, x) { NobodyStarted(s.workers, x); }
  }

  lemma {:induction false} MoveOk(s: State, move: Move)
    requires Ok(s) && Enabled(s, move)
    ensures Ok(After(s, move))
  {
    match move
    case Accept => AcceptOk(s);
    case Enqueue => EnqueueOk(s);
    case Register => RegisterOk(s);
    case Take(w) => TakeOk(s, w);
    case Begin(w) => BeginOk(s, w);
    case Complete(w) => CompleteOk(s, w);
    case Callback(id) => CallbackOk(s, id);
    case BeginClose => BeginCloseOk(s);
    case CancelTracked(id) => CancelTrackedOk(s, id);
    case Stop => StopOk(s);
    case Drain => DrainOk(s);
    case Dismiss => DismissOk(s);
  }

  // ----- What it says -----

  /** While the server accepts, a connection that has its permit always finds room in the queue, so
      `submit` cannot raise `Full`. */
  lemma {:induction false} SubmitNeverFull(s: State)
    requires Ok(s) && s.accept.Admitted? && s.accepting
    ensures |s.queue| < s.capacity
  {
    var rest := s.holders - {s.accept.id};
    assert ConnectionOk(s, s.accept.id);
    forall id: Id ensures Queued(s.queue, id) <= 1 && (Queued(s.queue, id) == 1 ==> id in rest) { assert ConnectionOk(s, id); }
    QueueFits(s.queue, rest);
  }

  /** While accepting, the queue is never longer than the number of permits held. */
  lemma {:induction false} QueueWithinPermits(s: State)
    requires Ok(s) && s.accepting
    ensures |s.queue| <= |s.holders| == s.capacity - s.permits
  {
    forall id: Id ensures Queued(s.queue, id) <= 1 && (Queued(s.queue, id) == 1 ==> id in s.holders) { assert ConnectionOk(s, id); }
    QueueFits(s.queue, s.holders);
  }

  /** Every sentinel of a shutdown finds room. */
  lemma {:induction false} DismissNeverFull(s: State)
    requires Ok(s) && s.closing.Dismissing? && s.closing.left > 0
    ensures |s.queue| < s.capacity
  {
    forall id: Id ensures Queued(s.queue, id) == 0 { assert ConnectionOk(s, id); }
    OnlySentinels(s.queue);
  }

  /** A thread that has something to do can always do it: the future it looks up exists. */
  lemma {:induction false} NobodyIsStuck(s: State)
    requires Ok(s)
    ensures s.accept.Enqueued? ==> Enabled(s, Register)
    ensures forall w :: 0 <= w < |s.workers| && s.workers[w].Took? ==> Enabled(s, Begin(w))
  {
    if s.accept.Enqueued? { assert ConnectionOk(s, s.accept.id); }
    forall w | 0 <= w < |s.workers| && s.workers[w].Took? ensures Enabled(s, Begin(w)) {
      if s.workers[w].item.Work? {
        WorkerCounts(s.workers, w, s.workers[w].item.id);
        assert ConnectionOk(s, s.workers[w].item.id);
      }
    }
  }

  lemma {:induction false} WorkerCounts(workers: seq<Worker>, w: nat, id: Id)
    requires w < |workers|
    ensures Taken(workers, id) >= HasTaken(workers[w], id)
  {
    if w < |workers| - 1 { WorkerCounts(workers[..|workers| - 1], w, id); }
  }

  /** A semaphore release always gives back a permit that is held. */
  lemma {:induction false} ReleaseIsHeld(s: State, id: Id)
    requires Ok(s) && (InAccept(s, id) || id in s.due)
    ensures id in s.holders && s.permits < s.capacity
  {
    assert ConnectionOk(s, id);
  }

  /** After a shutdown, once every worker has exited and the due callbacks have run, each admitted
      connection's permit was released exactly once, each queued connection's future was resolved
      exactly once, and no sentinel is left over. */
  lemma {:induction false} ClosedServerIsClean(s: State, id: Id)
    requires Ok(s) && s.closing.Closed? && s.accept.Idle? && s.due == {}
    requires forall w :: 0 <= w < |s.workers| ==> s.workers[w].Exited?
    ensures s.queue == [] && s.holders == {} && s.permits == s.capacity
    ensures s.released[id] == (if id < s.next then 1 else 0)
    ensures id in s.futures ==> Done(s.futures[id]) && s.resolved[id] == 1
  {
    EverybodyGone(s.workers, id);
    forall x: Id ensures Queued(s.queue, x) == 0 && x !in s.holders {
      assert ConnectionOk(s, x);
      EverybodyGone(s.workers, x);
    }
    OnlySentinels(s.queue);
    assert s.holders == {};
    assert ConnectionOk(s, id);
  }

  /** Whatever worker is left after a shutdown finds a sentinel waiting: those not yet received are
      exactly as many as the workers that have not received one. */
  lemma {:induction false} EveryWorkerGetsOneSentinel(s: State)
    requires Ok(s) && s.closing.Closed?
    ensures |s.queue| == |s.workers| - Dismissed(s.workers)
    ensures forall i :: 0 <= i < |s.queue| ==> s.queue[i].Sentinel?
  {
    forall id: Id ensures Queued(s.queue, id) == 0 { assert ConnectionOk(s, id); }
    OnlySentinels(s.queue);
    AllSentinels(s.queue);
  }

  lemma {:induction false} AllSentinels(queue: seq<Item>)
    requires Sentinels(queue) == |queue|
    ensures forall i :: 0 <= i < |queue| ==> queue[i].Sentinel?
  {
    if queue != [] { AllSentinels(queue[..|queue| - 1]); }
  }

  // ----- The server object -----

  class Server {
    const capacity: nat
    var permits: nat
    var accepting: bool
    var stopped: bool
    var queue: seq<Item>
    var workers: seq<Worker>
    var futures: map<Id, Future>
    var tracked: set<Id>
    var armed: set<Id>
    var due: set<Id>
    var accept: Accepting
    var closing: Closing
    var next: Id
    ghost var holders: set<Id>
    ghost var released: multiset<Id>
    ghost var resolved: multiset<Id>

    ghost function Now(): State
      reads this
    {
      State(capacity, permits, accepting, stopped, queue, workers, futures, tracked, armed, due, accept, closing, next,
            holders, released, resolved)
    }

    constructor (capacity: nat, threads: nat)
      requires 0 < threads <= capacity
      ensures Now() == Fresh(capacity, threads) && Ok(Now())
    {
      this.capacity := capacity;
      permits, accepting, stopped, queue := capacity, true, false, [];
      workers := seq(threads, _ => Waiting);
      futures, tracked, armed, due := map[], {}, {}, {};
      accept, closing, next := Idle, Open, 0;
      holders, released, resolved := {}, multiset{}, multiset{};
      new;
      FreshOk(capacity, threads);
    }

    /** `BoundedSemaphore.release` raises when no permit is out. */
    method Release(id: Id)
      requires permits < capacity
      modifies this`permits, this`holders, this`released
      ensures Now() == Released(old(Now()), id)
    {
      permits := permits + 1;
      holders := holders - {id};
      released := released + multiset{id};
    }

    /** `Queue.put_nowait` raises when the queue is at capacity. */
    method PutNowait(item: Item)
      requires |queue| < capacity
      modifies this`queue
      ensures queue == old(queue) + [item]
    {
      queue := queue + [item];
    }

    method Resolve(id: Id, outcome: Future)
      modifies this`futures, this`resolved, this`armed, this`due
      ensures Now() == Resolved(old(Now()), id, outcome)
    {
      futures := futures[id := outcome];
      resolved := resolved + multiset{id};
      if id in armed { due := due + {id}; }
      armed := armed - {id};
    }

    method Cancel(id: Id)
      modifies this`futures, this`resolved, this`armed, this`due
      ensures Now() == CancelFuture(old(Now()), id)
    {
      if id in futures && futures[id].Pending? { Resolve(id, Cancelled); }
    }

    /** Take a permit for a new connection; without one it is turned away as busy. */
    method AcceptConnection() returns (busy: bool)
      requires Enabled(Now(), Accept)
      modifies this
      ensures Now() == After(old(Now()), Accept) && busy == (old(permits) == 0)
    {
      busy := permits == 0;
      if busy { return; }
      permits := permits - 1;
      holders := holders + {next};
      accept := Admitted(next);
      next := next + 1;
    }

    /** Under the tracking lock: refuse once the server is stopping, else queue the connection. */
    method EnqueueConnection()
      requires Ok(Now()) && Enabled(Now(), Enqueue)
      modifies this
      ensures Now() == After(old(Now()), Enqueue)
    {
      var id := accept.id;
      ReleaseIsHeld(Now(), id);
      if !accepting || stopped {
        Release(id);
        accept := Idle;
        return;
      }
      SubmitNeverFull(Now());
      PutNowait(Work(id));
      futures := futures[id := Pending];
      accept := Enqueued(id);
    }

    /** Still under the lock: track the future and attach its callback, which is called at once if a
        worker has finished it meanwhile. */
    method RegisterFuture()
      requires Ok(Now()) && Enabled(Now(), Register)
      modifies this
      ensures Now() == After(old(Now()), Register)
    {
      var id := accept.id;
      ReleaseIsHeld(Now(), id);
      accept := Idle;
      if Done(futures[id]) {
        Release(id);
      } else {
        tracked := tracked + {id};
        armed := armed + {id};
      }
    }

    method TakeItem(w: nat)
      requires Enabled(Now(), Take(w))
      modifies this
      ensures Now() == After(old(Now()), Take(w))
    {
      workers := workers[w := Took(queue[0])];
      queue := queue[1..];
    }

    /** Start the work, skip it if it was cancelled, or exit. */
    method BeginItem(w: nat)
      requires Enabled(Now(), Begin(w))
      modifies this
      ensures Now() == After(old(Now()), Begin(w))
    {
      match workers[w].item
      case Sentinel => workers := workers[w := Exited];
      case Work(id) =>
        if futures[id].Pending? {
          futures := futures[id := Running];
          workers := workers[w := Busy(id)];
        } else {
          workers := workers[w := Waiting];
        }
    }

    /** The request was served, or failed: either way its future is resolved. */
    method CompleteItem(w: nat)
      requires Enabled(Now(), Complete(w))
      modifies this
      ensures Now() == After(old(Now()), Complete(w))
    {
      Resolve(workers[w].id, Finished);
      workers := workers[w := Waiting];
    }

    /** `_request_finished`, under the lock. */
    method RequestFinished(id: Id)
      requires Ok(Now()) && Enabled(Now(), Callback(id))
      modifies this
      ensures Now() == After(old(Now()), Callback(id))
    {
      ReleaseIsHeld(Now(), id);
      due, tracked := due - {id}, tracked - {id};
      Release(id);
    }

    /** One step of `_close_locked` and `shutdown`. */
    method CloseStep(move: Move)
      requires Ok(Now()) && Enabled(Now(), move)
      requires move.BeginClose? || move.CancelTracked? || move.Stop? || move.Drain? || move.Dismiss?
      modifies this
      ensures Now() == After(old(Now()), move)
    {
      match move
      case BeginClose =>
        accepting := false;
        closing := Cancelling(tracked);
      case CancelTracked(id) =>
        closing := Cancelling(closing.rest - {id});
        Cancel(id);
      case Stop =>
        stopped := true;
        closing := Draining;
      case Drain =>
        if queue == [] {
          closing := Dismissing(|workers|);
        } else {
          if queue[0].Work? { Cancel(queue[0].id); }
          queue := queue[1..];
        }
      case Dismiss =>
        if closing.left == 0 {
          closing := Closed;
        } else {
          DismissNeverFull(Now());
          PutNowait(Sentinel);
          closing := Dismissing(closing.left - 1);
        }
    }

    method Perform(move: Move)
      requires Ok(Now()) && Enabled(Now(), move)
      modifies this
      ensures Ok(Now()) && Now() == After(old(Now()), move)
    {
      MoveOk(Now(), move);
      match move
      case Accept => var _ := AcceptConnection();
      case Enqueue => EnqueueConnection();
      case Register => RegisterFuture();
      case Take(w) => TakeItem(w);
      case Begin(w) => BeginItem(w);
      case Complete(w) => CompleteItem(w);
      case Callback(id) => RequestFinished(id);
      case _ => CloseStep(move);
    }

    predicate CanMove(move: Move): (can: bool)
      reads this
      ensures can == Enabled(Now(), move)
    {
      match move
      case Accept => accept.Idle?
      case Enqueue => accept.Admitted?
      case Register => accept.Enqueued? && accept.id in futures
      case Take(w) => w < |workers| && workers[w].Waiting? && queue != []
      case Begin(w) => w < |workers| && workers[w].Took? && (workers[w].item.Work? ==> workers[w].item.id in futures)
      case Complete(w) => w < |workers| && workers[w].Busy?
      case Callback(id) => id in due && !accept.Enqueued?
      case BeginClose => closing.Open? && !accept.Enqueued?
      case CancelTracked(id) => closing.Cancelling? && id in closing.rest
      case Stop => closing.Cancelling? && closing.rest == {}
      case Drain => closing.Draining?
      case Dismiss => closing.Dismissing?
    }

    /** Any interleaving: moves that are not enabled when their turn comes do not happen. No
        precondition of `put_nowait` or `release` ever fails on the way. */
    method Serve(schedule: seq<Move>)
      requires Ok(Now())
      modifies this
      ensures Ok(Now()) && Now() == Outcome(old(Now()), schedule)
    {
      for i := 0 to |schedule|
        invariant Ok(Now()) && Now() == Outcome(old(Now()), schedule[..i])
      {
        assert schedule[..i + 1][..i] == schedule[..i];
        if CanMove(schedule[i]) { Perform(schedule[i]); }
      }
      assert schedule[..|schedule|] == schedule;
    }
  }

  function Outcome(s: State, schedule: seq<Move>): State {
    if schedule == [] then s
    else
      var before := Outcome(s, schedule[..|schedule| - 1]);
      if Enabled(before, schedule[|schedule| - 1]) then After(before, schedule[|schedule| - 1]) else before
  }

  /** The invariant holds after every interleaving from a fresh server. */
  lemma {:induction false} EveryInterleavingOk(capacity: nat, threads: nat, schedule: seq<Move>)
    requires 0 < threads <= capacity
    ensures Ok(Outcome(Fresh(capacity, threads), schedule))
  {
    if schedule == [] { FreshOk(capacity, threads); }
    else {
      var before := Outcome(Fresh(capacity, threads), schedule[..|schedule| - 1]);
      EveryInterleavingOk(capacity, threads, schedule[..|schedule| - 1]);
      if Enabled(before, schedule[|schedule| - 1]) { MoveOk(before, schedule[|schedule| - 1]); }
    }
  }
}
