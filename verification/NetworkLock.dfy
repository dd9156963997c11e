/** Who takes and who gives back the network lock: an event send takes it, and
    the bounded retry loop that fetches the transmit timestamp gives it back; a
    receive takes it without blocking and gives it back on every way out. */
module NetworkLock {
  import opened MachineInts
  import opened TicketLock

  const SUCCESS: int := 0
  const TX_TIMEOUT_ITER: nat := 6

  /** What one look at the error queue reports: 0, try again, or failure. */
  type Outcomes = nat -> int

  /** One attempt: with a closed descriptor it fails without touching the lock. */
  method TxTimestampOnce(lock: TicketingLock, open: bool, outcome: int, last: bool) returns (r: int)
    modifies lock
    ensures r == if open then outcome else -1
    ensures lock.View() == if open && (outcome == SUCCESS || last) then old(lock.View()).Released()
            else old(lock.View())
  {
    if !open {
      return -1;
    }
    r := outcome;
    if r == SUCCESS || last {
      lock.Unlock();
    }
  }

  /** The k-th attempt (from 0) is the first success. */
  ghost predicate FirstSuccess(outcomes: Outcomes, k: nat) {
    outcomes(k) == SUCCESS && forall j :: 0 <= j < k ==> outcomes(j) != SUCCESS
  }

  /** The retry loop.  Whatever the attempts report, an open descriptor means the
      lock is released exactly once, and a timestamp is obtained exactly when one
      of the first seven attempts succeeds; nothing is tried after a success. */
  method GetTxTimestamp(lock: TicketingLock, open: bool, outcomes: Outcomes) returns (good: bool, attempts: nat)
    modifies lock
    ensures open ==> lock.View() == old(lock.View()).Released()
    ensures !open ==> lock.View() == old(lock.View())
    ensures 1 <= attempts <= 7
    ensures good <==> open && exists k :: 0 <= k < 7 && FirstSuccess(outcomes, k)
    ensures good ==> FirstSuccess(outcomes, attempts - 1)
    ensures !good ==> attempts == 7
  {
    var iter: int := TX_TIMEOUT_ITER;
    var ts := TxTimestampOnce(lock, open, outcomes(0), false);
    attempts := 1;
    while ts != SUCCESS && iter != 0
      invariant 0 <= iter <= TX_TIMEOUT_ITER && attempts == TX_TIMEOUT_ITER - iter + 1
      invariant ts == if open then outcomes(attempts - 1) else -1
      invariant forall j :: 0 <= j < attempts - 1 ==> !open || outcomes(j) != SUCCESS
      invariant lock.View()
             == if open && (ts == SUCCESS || iter == 0) then old(lock.View()).Released() else old(lock.View())
      decreases iter
    {
      iter := iter - 1;
      ts := TxTimestampOnce(lock, open, outcomes(attempts), iter == 0);
      attempts := attempts + 1;
    }
    good := ts == SUCCESS;
    if good {
      assert FirstSuccess(outcomes, attempts - 1);
    }
  }

  /** An event send followed by its timestamp retrieval.  The sender may have to wait
      for its ticket; once it is served the lock is released exactly once if the
      descriptor is open, and otherwise stays held.  In particular a free lock is
      free again afterwards exactly when the descriptor was open. */
  method SendEvent(lock: TicketingLock, wakes: seq<Counters>, open: bool, outcomes: Outcomes)
    returns (sent: bool, slept: nat, good: bool)
    modifies lock
    ensures slept <= |wakes| && (sent || slept == |wakes|)
    ensures var seen := Seen(old(lock.View()), wakes, slept);
            && (sent <==> seen.serving == old(lock.issue))
            && lock.View() == if sent && open then seen.Released() else seen
    ensures good <==> sent && open && exists k :: 0 <= k < 7 && FirstSuccess(outcomes, k)
    ensures old(lock.issue == lock.serving) ==> sent && slept == 0 && (lock.issue == lock.serving <==> open)
  {
    var ticket;
    ticket, slept, sent := lock.Lock(wakes);
    assert slept > 0 ==> Seen(old(lock.View()), wakes, 0).serving != ticket;
    good := false;
    if sent {
      var attempts;
      good, attempts := GetTxTimestamp(lock, open, outcomes);
    }
  }

  datatype Received = NetSucceed | TransientFailure | NetFatal

  /** What the kernel answers during one receive. */
  datatype RxWorld = RxWorld(selected: int, readable: bool, received: int, noMessage: bool)

  /** A receive either never got the lock or returns it, whatever the kernel says. */
  method NonblockingReceive(lock: TicketingLock, w: RxWorld) returns (r: Received)
    modifies lock
    ensures old(lock.issue == lock.serving) ==> lock.View() == old(lock.View()).Taken().Released()
    ensures old(lock.issue != lock.serving) ==> lock.View() == old(lock.View()) && r == TransientFailure
    ensures lock.issue == lock.serving <==> old(lock.issue == lock.serving)
    ensures r == NetSucceed <==>
            old(lock.issue == lock.serving) && w.selected !in {0, -1} && w.readable && w.received >= 0
    ensures r == NetFatal <==>
            && old(lock.issue == lock.serving)
            && (w.selected == -1 || (w.selected != 0 && w.readable && w.received < 0 && !w.noMessage))
  {
    var got := lock.TryLock();
    if !got {
      return TransientFailure;
    }
    if w.selected == 0 {
      r := TransientFailure;
    } else if w.selected == -1 {
      r := NetFatal;
    } else if !w.readable {
      r := TransientFailure;
    } else if w.received < 0 {
      r := if w.noMessage then TransientFailure else NetFatal;
    } else {
      r := NetSucceed;
    }
    lock.Unlock();
  }
}
