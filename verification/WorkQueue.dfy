/** The Windows work queue: one slot per worker thread, no locks.  A submitter
    scans for a slot without a task, stores the argument, then the task; the
    slot's worker polls the task, reads it again, reads the argument, calls, and
    clears the task.  Every memory access is its own step, and all threads see
    them in one order.  A stored word is named by the job that stored it, so that
    a task run with a foreign argument would show. */
module WorkQueue {
  import opened MachineInts

  type Job = nat
  datatype Slot = Slot(task: Option<Job>, arg: Option<Job>)

  /** submit() run without interruption: the first free slot gets both words,
      and it fails exactly when there is none. */
  method Submit(slots: array<Slot>, job: Job) returns (ok: bool)
    modifies slots
    ensures ok <==> exists i :: 0 <= i < slots.Length && old(slots[i].task) == None
    ensures !ok ==> slots[..] == old(slots[..])
    ensures ok ==> exists i :: 0 <= i < slots.Length && old(slots[i].task) == None
                     && (forall j :: 0 <= j < i ==> old(slots[j].task) != None)
                     && slots[..] == old(slots[..])[i := Slot(Some(job), Some(job))]
  {
    var i := 0;
    while i < slots.Length
      invariant 0 <= i <= slots.Length && slots[..] == old(slots[..])
      invariant forall j :: 0 <= j < i ==> old(slots[j].task) != None
    {
      if slots[i].task == None {
        slots[i] := slots[i].(arg := Some(job));
        slots[i] := slots[i].(task := Some(job));
        assert slots[..] == old(slots[..])[i := Slot(Some(job), Some(job))];
        return true;
      }
      i := i + 1;
    }
    ok := false;
  }

  // ---- all interleavings ------------------------------------------------------

  datatype Submitter =
    | Resting
    | Scanning(seen: seq<Job>, job: Job)   // the jobs seen in the slots looked at so far
    | Claiming(slot: nat, job: Job)        // saw the slot free
    | Filling(slot: nat, job: Job)         // stored the argument

  datatype Worker =
    | Polling
    | Calling                              // saw a task
    | Loading(task: Job)                   // read it again, for the call
    | Running(task: Job, arg: Option<Job>) // read the argument and called
    | Crashed                              // the task was gone when read again
    | Stopped

  datatype System = System(
    slots: seq<Slot>, workers: seq<Worker>, submitters: map<nat, Submitter>,
    issued: nat, accepted: set<Job>, finished: set<Job>, calls: seq<(Job, Option<Job>)>,
    rejected: seq<seq<Job>>)

  datatype Event =
    | Begin(s: nat) | Look(s: nat) | StoreArg(s: nat) | StoreTask(s: nat)
    | Poll(w: nat) | Fetch(w: nat) | Call(w: nat) | Clear(w: nat) | Halt(w: nat)

  function Start(n: nat, submitters: set<nat>): System {
    System(seq(n, i => Slot(None, None)), seq(n, i => Polling), map s | s in submitters :: Resting,
           0, {}, {}, [], [])
  }

  predicate Shape(s: System) {
    && |s.slots| == |s.workers|
    && forall x :: x in s.submitters ==>
         match s.submitters[x]
         case Resting => true
         case Scanning(seen, _) => |seen| <= |s.slots|
         case Claiming(i, _) => i < |s.slots|
         case Filling(i, _) => i < |s.slots|
  }

  predicate Enabled(s: System, e: Event) {
    && Shape(s)
    && match e
       case Begin(x) => x in s.submitters && s.submitters[x].Resting?
       case Look(x) => x in s.submitters && s.submitters[x].Scanning?
       case StoreArg(x) => x in s.submitters && s.submitters[x].Claiming?
       case StoreTask(x) => x in s.submitters && s.submitters[x].Filling?
       case Poll(w) => w < |s.workers| && s.workers[w].Polling?
       case Fetch(w) => w < |s.workers| && s.workers[w].Calling?
       case Call(w) => w < |s.workers| && s.workers[w].Loading?
       case Clear(w) => w < |s.workers| && s.workers[w].Running?
       case Halt(w) => w < |s.workers| && s.workers[w].Polling?
  }

  function Next(s: System, e: Event): System
    requires Enabled(s, e)
  {
    match e
    case Begin(x) => s.(submitters := s.submitters[x := Scanning([], s.issued)], issued := s.issued + 1)
    case Look(x) =>
      var Scanning(seen, job) := s.submitters[x];
      if |seen| == |s.slots| then
        s.(submitters := s.submitters[x := Resting], rejected := s.rejected + [seen])
      else if s.slots[|seen|].task == None then
        s.(submitters := s.submitters[x := Claiming(|seen|, job)])
      else
        s.(submitters := s.submitters[x := Scanning(seen + [s.slots[|seen|].task.value], job)])
    case StoreArg(x) =>
      var Claiming(i, job) := s.submitters[x];
      s.(slots := s.slots[i := s.slots[i].(arg := Some(job))], submitters := s.submitters[x := Filling(i, job)])
    case StoreTask(x) =>
      var Filling(i, job) := s.submitters[x];
      s.(slots := s.slots[i := s.slots[i].(task := Some(job))], submitters := s.submitters[x := Resting],
         accepted := s.accepted + {job})
    case Poll(w) =>
      if s.slots[w].task == None then s else s.(workers := s.workers[w := Calling])
    case Fetch(w) =>
      var task := s.slots[w].task;
      s.(workers := s.workers[w := if task == None then Crashed else Loading(task.value)])
    case Call(w) =>
      var task, arg := s.workers[w].task, s.slots[w].arg;
      s.(workers := s.workers[w := Running(task, arg)], calls := s.calls + [(task, arg)])
    case Clear(w) =>
      s.(slots := s.slots[w := s.slots[w].(task := None)], workers := s.workers[w := Polling],
         finished := s.finished + {s.workers[w].task})
    case Halt(w) => s.(workers := s.workers[w := Stopped])
  }

  ghost predicate Runs(s: System, es: seq<Event>)
    decreases |es|
  {
    es != [] ==> Enabled(s, es[0]) && Runs(Next(s, es[0]), es[1..])
  }

  ghost function After(s: System, es: seq<Event>): System
    requires Runs(s, es)
    decreases |es|
  {
    if es == [] then s else After(Next(s, es[0]), es[1..])
  }

  // ---- one submitter ------------------------------------------------------------

  ghost function Occupied(s: System): set<nat> {
    set i | 0 <= i < |s.slots| && s.slots[i].task.Some?
  }

  ghost predicate Called(s: System, job: Job) { exists c :: 0 <= c < |s.calls| && s.calls[c].0 == job }

  /** A task in a slot has its own argument beside it, belongs to no other slot,
      is accepted and not finished; and nothing else is accepted and not finished. */
  ghost predicate SlotsGood(s: System) {
    && (forall i :: i in Occupied(s) ==>
          s.slots[i].arg == s.slots[i].task && s.slots[i].task.value in s.accepted - s.finished)
    && (forall i, j :: i in Occupied(s) && j in Occupied(s) && i != j ==> s.slots[i].task != s.slots[j].task)
    && (forall job :: job in s.accepted - s.finished ==> exists i :: i in Occupied(s) && s.slots[i].task == Some(job))
    && s.finished <= s.accepted && (forall job :: job in s.accepted ==> job < s.issued)
  }

  ghost predicate WorkersGood(s: System)
    requires Shape(s)
  {
    && (forall w :: 0 <= w < |s.workers| ==>
          match s.workers[w]
          case Calling => s.slots[w].task.Some? && !Called(s, s.slots[w].task.value)
          case Loading(t) => s.slots[w].task == Some(t) && !Called(s, t)
          case Running(t, a) => s.slots[w].task == Some(t) && a == Some(t) && Called(s, t)
          case Crashed => false
          case _ => s.slots[w].task.Some? ==> !Called(s, s.slots[w].task.value))
    && (forall c, d :: 0 <= c < d < |s.calls| ==> s.calls[c].0 != s.calls[d].0)
    && (forall c :: 0 <= c < |s.calls| ==> s.calls[c].1 == Some(s.calls[c].0) && s.calls[c].0 in s.accepted)
    && (forall job :: job in s.finished ==> Called(s, job))
  }

  ghost predicate SubmitterGood(s: System)
    requires Shape(s)
  {
    && (forall x, y :: x in s.submitters && y in s.submitters ==> x == y)
    && (forall x :: x in s.submitters ==>
          match s.submitters[x]
          case Resting => true
          case Scanning(seen, job) =>
            job < s.issued && job !in s.accepted && forall k :: 0 <= k < |seen| ==> seen[k] in s.accepted
          case Claiming(i, job) => job < s.issued && job !in s.accepted && s.slots[i].task == None
          case Filling(i, job) => job < s.issued && job !in s.accepted && s.slots[i] == Slot(None, Some(job)))
    && (forall r :: 0 <= r < |s.rejected| ==>
          |s.rejected[r]| == |s.slots| && forall k :: 0 <= k < |s.rejected[r]| ==> s.rejected[r][k] in s.accepted)
  }

  ghost predicate Good(s: System) { Shape(s) && SlotsGood(s) && WorkersGood(s) && SubmitterGood(s) }

  lemma BeginStep(s: System, x: nat)
    requires Good(s) && Enabled(s, Begin(x))
    ensures Good(Next(s, Begin(x)))
  {
    var s' := Next(s, Begin(x));
    assert Occupied(s') == Occupied(s);
    assert forall job :: Called(s', job) <==> Called(s, job);
  }

  lemma LookStep(s: System, x: nat)
    requires Good(s) && Enabled(s, Look(x))
    ensures Good(Next(s, Look(x)))
  {
    var s' := Next(s, Look(x));
    assert Occupied(s') == Occupied(s);
    assert forall job :: Called(s', job) <==> Called(s, job);
    var seen := s.submitters[x].seen;
    if |seen| < |s.slots| && s.slots[|seen|].task.Some? {
      assert |seen| in Occupied(s);
    }
  }

  /** Storing the argument touches one free slot and its submitter. */
  lemma StoreArgFrame(s: System, x: nat)
    requires Good(s) && Enabled(s, StoreArg(x))
    ensures var s', i := Next(s, StoreArg(x)), s.submitters[x].slot;
            && s'.slots[i] == Slot(None, Some(s.submitters[x].job))
            && (forall j :: 0 <= j < |s.slots| && j != i ==> s'.slots[j] == s.slots[j])
            && (forall j :: 0 <= j < |s.slots| ==> s'.slots[j].task == s.slots[j].task)
            && Occupied(s') == Occupied(s)
            && s'.submitters == s.submitters[x := Filling(i, s.submitters[x].job)]
  {
  }

  lemma StoreArgStep(s: System, x: nat)
    requires Good(s) && Enabled(s, StoreArg(x))
    ensures Good(Next(s, StoreArg(x)))
  {
    var s' := Next(s, StoreArg(x));
    StoreArgFrame(s, x);
    assert SlotsGood(s');
    StoreArgWorkers(s, s');
  }

  /** Workers look at tasks and calls only. */
  lemma StoreArgWorkers(s: System, s': System)
    requires Shape(s) && Shape(s') && WorkersGood(s)
    requires |s'.slots| == |s.slots| && forall j :: 0 <= j < |s.slots| ==> s'.slots[j].task == s.slots[j].task
    requires s'.workers == s.workers && s'.calls == s.calls && s'.accepted == s.accepted && s'.finished == s.finished
    ensures WorkersGood(s')
  {
    assert forall job :: Called(s', job) <==> Called(s, job);
  }

  lemma StoreTaskStep(s: System, x: nat)
    requires Good(s) && Enabled(s, StoreTask(x))
    ensures Good(Next(s, StoreTask(x)))
  {
    var s' := Next(s, StoreTask(x));
    var Filling(i, job) := s.submitters[x];
    assert Occupied(s') == Occupied(s) + {i};
    assert s'.slots[i] == Slot(Some(job), Some(job));
    assert !Called(s, job);
    assert forall b :: Called(s', b) <==> Called(s, b);
    forall b | b in s'.accepted - s'.finished
      ensures exists k :: k in Occupied(s') && s'.slots[k].task == Some(b)
    {
      if b == job {
        assert i in Occupied(s') && s'.slots[i].task == Some(b);
      } else {
        assert b in s.accepted - s.finished;
        var k :| k in Occupied(s) && s.slots[k].task == Some(b);
        assert k in Occupied(s') && s'.slots[k].task == Some(b);
      }
    }
  }

  lemma PollStep(s: System, e: Event)
    requires Good(s) && Enabled(s, e) && (e.Poll? || e.Fetch? || e.Halt?)
    ensures Good(Next(s, e))
  {
    var s' := Next(s, e);
    assert Occupied(s') == Occupied(s);
    assert forall job :: Called(s', job) <==> Called(s, job);
  }

  lemma CallStep(s: System, w: nat)
    requires Good(s) && Enabled(s, Call(w))
    ensures Good(Next(s, Call(w)))
  {
    var s' := Next(s, Call(w));
    var t := s.workers[w].task;
    assert Occupied(s') == Occupied(s) && w in Occupied(s);
    forall job
      ensures Called(s', job) <==> Called(s, job) || job == t
    {
      if Called(s, job) {
        var c :| 0 <= c < |s.calls| && s.calls[c].0 == job;
        assert s'.calls[c].0 == job;
      }
      assert s'.calls[|s.calls|] == (t, s.slots[w].arg);
    }
    assert forall v :: 0 <= v < |s.workers| && v != w && v in Occupied(s) ==> s.slots[v].task != Some(t);
  }

  lemma ClearStep(s: System, w: nat)
    requires Good(s) && Enabled(s, Clear(w))
    ensures Good(Next(s, Clear(w)))
  {
    var s' := Next(s, Clear(w));
    var t := s.workers[w].task;
    assert w in Occupied(s) && Occupied(s') == Occupied(s) - {w};
    assert forall job :: Called(s', job) <==> Called(s, job);
    forall b | b in s'.accepted - s'.finished
      ensures exists k :: k in Occupied(s') && s'.slots[k].task == Some(b)
    {
      assert b in s.accepted - s.finished;
      var k :| k in Occupied(s) && s.slots[k].task == Some(b);
      assert k in Occupied(s') && s'.slots[k].task == Some(b);
    }
  }

  /** No step replaces a pending task by another; only its own worker's clearing
      empties the slot, and only after the call. */
  ghost predicate NotOverwritten(s: System, e: Event, s': System)
    requires |s'.slots| == |s.slots|
  {
    forall i :: i in Occupied(s) ==>
      || s'.slots[i].task == s.slots[i].task
      || (e == Clear(i) && s'.slots[i].task == None && Called(s, s.slots[i].task.value))
  }

  lemma StepKeeps(s: System, e: Event)
    requires Good(s) && Enabled(s, e)
    ensures Good(Next(s, e)) && NotOverwritten(s, e, Next(s, e))
  {
    match e {
      case StoreTask(x) => StoreTaskStep(s, x);
      case Call(w) => CallStep(s, w);
      case Clear(w) => ClearStep(s, w);
      case Poll(_) => PollStep(s, e);
      case Fetch(_) => PollStep(s, e);
      case Halt(_) => PollStep(s, e);
      case Begin(x) => BeginStep(s, x);
      case Look(x) => LookStep(s, x);
      case StoreArg(x) => StoreArgStep(s, x);
    }
  }

  lemma {:induction false} RunKeeps(s: System, es: seq<Event>)
    requires Good(s) && Runs(s, es)
    ensures Good(After(s, es))
    decreases |es|
  {
    if es == [] {
    } else {
      StepKeeps(s, es[0]);
      RunKeeps(Next(s, es[0]), es[1..]);
    }
  }

  lemma {:induction false} PendingSize(s: System, slots: set<nat>, jobs: set<Job>)
    requires SlotsGood(s) && slots <= Occupied(s)
    requires forall j :: j in jobs <==> exists i :: i in slots && s.slots[i].task == Some(j)
    ensures |jobs| == |slots|
    decreases |slots|
  {
    if slots == {} {
      assert jobs == {};
    } else {
      var i :| i in slots;
      var job := s.slots[i].task.value;
      PendingSize(s, slots - {i}, jobs - {job});
    }
  }

  ghost predicate Conserves(s: System) { |s.accepted| == |s.finished| + |Occupied(s)| }

  /** With one submitter, on every run: accepted jobs are the finished ones plus
      one per occupied slot; every call used the argument of its own job; no job
      was called twice and no worker called nothing; and a submit was refused only after each slot in turn had
      been seen holding an accepted job. */
  lemma OneSubmitterIsSafe(n: nat, x: nat, es: seq<Event>)
    requires Runs(Start(n, {x}), es)
    ensures var s := After(Start(n, {x}), es);
            && Conserves(s)
            && (forall c :: 0 <= c < |s.calls| ==> s.calls[c].1 == Some(s.calls[c].0))
            && (forall c, d :: 0 <= c < d < |s.calls| ==> s.calls[c].0 != s.calls[d].0)
            && (forall w :: 0 <= w < |s.workers| ==> s.workers[w] != Crashed)
            && (forall r :: 0 <= r < |s.rejected| ==>
                  && |s.rejected[r]| == |s.slots|
                  && forall k :: 0 <= k < |s.rejected[r]| ==> s.rejected[r][k] in s.accepted)
  {
    RunKeeps(Start(n, {x}), es);
    GoodConserves(After(Start(n, {x}), es));
  }

  lemma GoodConserves(s: System)
    requires SlotsGood(s)
    ensures Conserves(s)
  {
    PendingSize(s, Occupied(s), s.accepted - s.finished);
    assert s.accepted == s.finished + (s.accepted - s.finished);
  }

  /** A run given by its states. */
  lemma {:induction false} Unroll(s: System, es: seq<Event>, states: seq<System>)
    requires |states| == |es| + 1 && states[0] == s
    requires forall i :: 0 <= i < |es| ==> Enabled(states[i], es[i]) && states[i + 1] == Next(states[i], es[i])
    ensures Runs(s, es) && After(s, es) == states[|es|]
    decreases |es|
  {
    if es == [] {
    } else {
      Unroll(states[1], es[1..], states[1..]);
    }
  }

  // ---- a submit that is left alone ------------------------------------------------------

  /** The steps of one submitter. */
  predicate Of(x: nat, e: Event) { e == Begin(x) || e == Look(x) || e == StoreArg(x) || e == StoreTask(x) }

  /** The first free slot from the k-th on, or the number of slots. */
  function FirstFree(slots: seq<Slot>, k: nat): (i: nat)
    requires k <= |slots|
    ensures k <= i <= |slots| && forall j :: k <= j < i ==> slots[j].task != None
    ensures i < |slots| ==> slots[i].task == None
    decreases |slots| - k
  {
    if k == |slots| || slots[k].task == None then k else FirstFree(slots, k + 1)
  }

  /** What a submit that looks at the slots from the k-th on does to them and to the count of
      accepted jobs: the first free one gets both words; without one nothing changes. */
  ghost predicate Submitted(s: System, s': System, x: nat, job: Job, k: nat)
    requires k <= |s.slots|
  {
    var i := FirstFree(s.slots, k);
    && s'.submitters == s.submitters[x := Resting] && s'.workers == s.workers && s'.calls == s.calls
    && s'.finished == s.finished && s'.issued == s.issued
    && if i < |s.slots| then
         && s'.slots == s.slots[i := Slot(Some(job), Some(job))]
         && s'.accepted == s.accepted + {job} && s'.rejected == s.rejected
       else s'.slots == s.slots && s'.accepted == s.accepted && |s'.rejected| == |s.rejected| + 1
  }

  /** The two stores into a slot that was seen free. */
  lemma FillsAlone(s: System, x: nat) returns (es: seq<Event>)
    requires Shape(s) && x in s.submitters && s.submitters[x].Claiming?
    ensures Runs(s, es) && forall e :: e in es ==> Of(x, e)
    ensures var i, job := s.submitters[x].slot, s.submitters[x].job;
            After(s, es) == s.(slots := s.slots[i := Slot(Some(job), Some(job))],
                               submitters := s.submitters[x := Resting], accepted := s.accepted + {job})
  {
    var s1 := Next(s, StoreArg(x));
    var s2 := Next(s1, StoreTask(x));
    es := [StoreArg(x), StoreTask(x)];
    Unroll(s, es, [s, s1, s2]);
  }

  lemma GoesFirst(s: System, e: Event, more: seq<Event>)
    requires Enabled(s, e) && Runs(Next(s, e), more)
    ensures Runs(s, [e] + more) && After(s, [e] + more) == After(Next(s, e), more)
  {
    assert ([e] + more)[1..] == more;
  }

  /** Left alone, a submitter that has looked at some slots accepts its job in the first free
      one from there on, and gives up exactly if there is none. */
  lemma {:induction false} ScansAlone(s: System, x: nat) returns (es: seq<Event>)
    requires Shape(s) && x in s.submitters && s.submitters[x].Scanning?
    ensures Runs(s, es) && forall e :: e in es ==> Of(x, e)
    ensures Submitted(s, After(s, es), x, s.submitters[x].job, |s.submitters[x].seen|)
    decreases |s.slots| - |s.submitters[x].seen|
  {
    var k := |s.submitters[x].seen|;
    var s' := Next(s, Look(x));
    var more: seq<Event> := [];
    if k < |s.slots| {
      if s.slots[k].task == None {
        more := FillsAlone(s', x);
      } else {
        more := ScansAlone(s', x);
      }
    }
    es := [Look(x)] + more;
    GoesFirst(s, Look(x), more);
  }

  /** So a whole submit that is left alone does to the slots what Submit does. */
  lemma SubmitsAlone(s: System, x: nat) returns (es: seq<Event>)
    requires Shape(s) && x in s.submitters && s.submitters[x].Resting?
    ensures Runs(s, es) && forall e :: e in es ==> Of(x, e)
    ensures var s', i, job := After(s, es), FirstFree(s.slots, 0), s.issued;
            && s'.submitters == s.submitters && s'.issued == job + 1
            && if i < |s.slots| then s'.slots == s.slots[i := Slot(Some(job), Some(job))] && job in s'.accepted
               else s'.slots == s.slots && s'.accepted == s.accepted
  {
    var s1 := Next(s, Begin(x));
    var more := ScansAlone(s1, x);
    es := [Begin(x)] + more;
    GoesFirst(s, Begin(x), more);
  }

  // ---- every job is called, unless its worker was stopped -----------------------

  /** The steps of one worker. */
  predicate By(w: nat, e: Event) { e == Poll(w) || e == Fetch(w) || e == Call(w) || e == Clear(w) }

  /** What is left of a worker's steps until its slot is free again. */
  function Remaining(w: nat, worker: Worker): seq<Event> {
    match worker
    case Polling => [Poll(w), Fetch(w), Call(w), Clear(w)]
    case Calling => [Fetch(w), Call(w), Clear(w)]
    case Loading(_) => [Call(w), Clear(w)]
    case Running(_, _) => [Clear(w)]
    case _ => []
  }

  /** The first of these steps, with the job still in the slot or just finished. */
  lemma WorkerGoes(s: System, w: nat)
    requires Good(s) && w in Occupied(s) && !s.workers[w].Stopped?
    ensures var es, job := Remaining(w, s.workers[w]), s.slots[w].task.value;
            && es != [] && Enabled(s, es[0])
            && var s' := Next(s, es[0]);
               && Good(s')
               && s'.calls == s.calls + (if es[0] == Call(w) then [(job, Some(job))] else [])
               && if es[0] == Clear(w) then job in s'.finished && w !in Occupied(s')
                  else w in Occupied(s') && s'.slots[w].task == Some(job) && !s'.workers[w].Stopped?
                       && Remaining(w, s'.workers[w]) == es[1..]
  {
    var e := Remaining(w, s.workers[w])[0];
    StepKeeps(s, e);
  }

  /** Left to itself, the worker of an occupied slot calls the job there, with its argument,
      unless it has done so, and then frees the slot and counts the job as finished. */
  lemma {:induction false} JobGetsDone(s: System, w: nat) returns (es: seq<Event>)
    requires Good(s) && w in Occupied(s) && !s.workers[w].Stopped?
    ensures (forall e :: e in es ==> By(w, e)) && Runs(s, es)
    ensures var s', job := After(s, es), s.slots[w].task.value;
            && job in s'.finished && w !in Occupied(s')
            && s'.calls == s.calls + if s.workers[w].Running? then [] else [(job, Some(job))]
    decreases |Remaining(w, s.workers[w])|
  {
    var e := Remaining(w, s.workers[w])[0];
    WorkerGoes(s, w);
    if e == Clear(w) {
      es := [e];
      assert es[1..] == [];
    } else {
      var rest := JobGetsDone(Next(s, e), w);
      es := [e] + rest;
      assert es[1..] == rest;
    }
  }

  /** A job in the slot of a stopped worker stays there, on every run. */
  lemma {:induction false} StoppedKeeps(s: System, w: nat, es: seq<Event>)
    requires Good(s) && w in Occupied(s) && s.workers[w].Stopped? && Runs(s, es)
    ensures var s' := After(s, es);
            && Good(s') && w in Occupied(s') && s'.workers[w].Stopped? && s'.slots[w].task == s.slots[w].task
            && s.slots[w].task.value !in s'.finished
    decreases |es|
  {
    if es == [] {
    } else {
      StepKeeps(s, es[0]);
      StoppedStep(s, w, es[0]);
      StoppedKeeps(Next(s, es[0]), w, es[1..]);
    }
  }

  lemma StoppedStep(s: System, w: nat, e: Event)
    requires Good(s) && w in Occupied(s) && s.workers[w].Stopped? && Enabled(s, e)
    requires Good(Next(s, e)) && NotOverwritten(s, e, Next(s, e))
    ensures var s' := Next(s, e);
            w in Occupied(s') && s'.workers[w].Stopped? && s'.slots[w].task == s.slots[w].task
  {
  }

  /** With one submitter, in every state of every run: an accepted job that is not finished
      can be finished if and only if the worker of its slot was not stopped. */
  lemma FinishedUnlessStopped(n: nat, x: nat, es: seq<Event>, w: nat)
    requires Runs(Start(n, {x}), es) && w in Occupied(After(Start(n, {x}), es))
    ensures var s := After(Start(n, {x}), es);
            && w < |s.workers|
            && (s.workers[w] != Stopped <==>
                exists more :: Runs(s, more) && s.slots[w].task.value in After(s, more).finished)
  {
    var s := After(Start(n, {x}), es);
    RunKeeps(Start(n, {x}), es);
    if s.workers[w] == Stopped {
      forall more | Runs(s, more)
        ensures s.slots[w].task.value !in After(s, more).finished
      {
        StoppedKeeps(s, w, more);
      }
    } else {
      var more := JobGetsDone(s, w);
    }
  }

  /** Two submitters can both see the same slot free, and one job is lost. */
  lemma TwoSubmittersLoseAJob(n: nat, submitters: set<nat>, x: nat, y: nat) returns (es: seq<Event>)
    requires n >= 1 && x in submitters && y in submitters && x != y
    ensures Runs(Start(n, submitters), es) && !Conserves(After(Start(n, submitters), es))
  {
    var s := Start(n, submitters);
    var s1 := Next(s, Begin(x));
    var s2 := Next(s1, Look(x));
    assert s2 == s1.(submitters := s1.submitters[x := Claiming(0, 0)]);
    var s3 := Next(s2, Begin(y));
    var s4 := Next(s3, Look(y));
    assert s4 == s3.(submitters := s3.submitters[y := Claiming(0, 1)]);
    es := [Begin(x), Look(x), Begin(y), Look(y)];
    Unroll(s, es, [s, s1, s2, s3, s4]);
    var es' := BothFill(s4, x, y);
    Concat(s, es, es');
    es := es + es';
  }

  lemma BothFill(s: System, x: nat, y: nat) returns (es: seq<Event>)
    requires Shape(s) && s.slots != [] && x in s.submitters && y in s.submitters && x != y
    requires s.submitters[x] == Claiming(0, 0) && s.submitters[y] == Claiming(0, 1)
    requires Occupied(s) == {} == s.accepted == s.finished
    ensures Runs(s, es) && !Conserves(After(s, es))
  {
    var first := FillsAlone(s, x);
    var s1 := After(s, first);
    var second := FillsAlone(s1, y);
    Concat(s, first, second);
    es := first + second;
    OneSlotTwoJobs(s, After(s, es));
  }

  lemma OneSlotTwoJobs(s: System, s': System)
    requires s.slots != [] && Occupied(s) == {} && s'.slots == s.slots[0 := Slot(Some(1), Some(1))]
    requires s'.accepted == {0, 1} && s'.finished == {}
    ensures !Conserves(s')
  {
    assert forall i :: 0 < i < |s.slots| ==> s'.slots[i] == s.slots[i] && i !in Occupied(s);
    assert Occupied(s') == {0};
  }

  lemma {:induction false} Concat(s: System, es: seq<Event>, more: seq<Event>)
    requires Runs(s, es) && Runs(After(s, es), more)
    ensures Runs(s, es + more) && After(s, es + more) == After(After(s, es), more)
    decreases |es|
  {
    if es == [] {
      assert es + more == more;
    } else {
      Concat(Next(s, es[0]), es[1..], more);
      assert (es + more)[1..] == es[1..] + more;
    }
  }

  /** No job is ever lost exactly when there is at most one submitter. */
  lemma SubmitterLimit(n: nat, submitters: set<nat>)
    requires n >= 1
    ensures (forall es :: Runs(Start(n, submitters), es) ==> Conserves(After(Start(n, submitters), es))) <==>
            |submitters| <= 1
  {
    if |submitters| <= 1 {
      AtMostOneElement(submitters);
      forall es | Runs(Start(n, submitters), es)
        ensures Conserves(After(Start(n, submitters), es))
      {
        var s := After(Start(n, submitters), es);
        RunKeeps(Start(n, submitters), es);
        GoodConserves(s);
      }
    } else {
      var x :| x in submitters;
      assert |submitters - {x}| > 0;
      var y :| y in submitters - {x};
      var es := TwoSubmittersLoseAJob(n, submitters, x, y);
    }
  }

  lemma AtMostOneElement(a: set<nat>)
    requires |a| <= 1
    ensures forall x, y :: x in a && y in a ==> x == y
  {
    if a != {} {
      var z :| z in a;
      assert |a - {z}| == 0;
      assert a == {z};
    }
  }
}
