/** The capacity-one, newest-wins terminal size queue (cli/internal/cli/exec.go): one producer, one
    consumer, every interleaving of their channel operations. */
module SizeQueue {
  import opened Fingerprints

  datatype Size = Size(width: int, height: int)

  /** Where the producer stands inside `refresh`. */
  datatype Producer = Outside | Offering | Draining | Resending

  /** `produced` is every size read so far and `pending` the channel's content, both as history: sizes are
      named by their position in `produced`. `delivered` is what `Next` returned, in order; `lost` would be
      set by the last default branch of `refresh`. */
  datatype Queue = Queue(produced: seq<Size>, pending: Option<nat>, delivered: seq<nat>, producer: Producer,
                         closed: bool, lost: bool)

  datatype Action =
    | Read(size: Size)   // refresh reads the terminal; a failed read does nothing
    | Offer              // the first select
    | Drain              // the second
    | Resend             // the third
    | Take               // Next receives a size
    | Close

  predicate Enabled(a: Action, q: Queue) {
    match a
    case Read(_) => q.producer == Outside
    case Offer => q.producer == Offering
    case Drain => q.producer == Draining
    case Resend => q.producer == Resending
    case Take => q.pending.Some?
    case Close => true
  }

  /** The position of the newest size. */
  function Newest(q: Queue): nat
    requires q.produced != []
  {
    |q.produced| - 1
  }

  function Perform(a: Action, q: Queue): Queue
    requires Enabled(a, q) && (q.producer != Outside ==> q.produced != [])
  {
    match a
    case Read(size) => q.(produced := q.produced + [size], producer := Offering)
    case Offer =>
      if q.pending.None? then q.(pending := Some(Newest(q)), producer := Outside) else q.(producer := Draining)
    case Drain => q.(pending := None, producer := Resending)
    case Resend =>
      if q.pending.None? then q.(pending := Some(Newest(q)), producer := Outside) else q.(producer := Outside, lost := true)
    case Take => q.(pending := None, delivered := q.delivered + [q.pending.value])
    case Close => q.(closed := true)
  }

  function Step(a: Action, q: Queue): Queue {
    if Enabled(a, q) && (q.producer != Outside ==> q.produced != []) then Perform(a, q) else q
  }

  function Run(q: Queue, actions: seq<Action>): Queue
    decreases actions
  {
    if actions == [] then q else Run(Step(actions[0], q), actions[1..])
  }

  const EMPTY := Queue([], None, [], Outside, false, false)

  // -------------------------------------------------------------------------------------------
  // What every interleaving keeps

  predicate Increasing(s: seq<nat>) {
    forall i, j :: 0 <= i < j < |s| ==> s[i] < s[j]
  }

  /** The newest size is on its way: delivered last, or pending. */
  predicate NewestArrives(q: Queue) {
    q.produced != [] ==>
      if q.pending.Some? then q.pending.value == Newest(q)
      else q.delivered != [] && q.delivered[|q.delivered| - 1] == Newest(q)
  }

  /** While the producer holds a size, everything in the channel or delivered is older. */
  predicate HoldsNewest(q: Queue) {
    && q.produced != []
    && (q.pending.Some? ==> q.pending.value < Newest(q))
    && (forall i :: 0 <= i < |q.delivered| ==> q.delivered[i] < Newest(q))
  }

  predicate Invariant(q: Queue) {
    && !q.lost && Increasing(q.delivered)
    && (forall i :: 0 <= i < |q.delivered| ==> q.delivered[i] < |q.produced|)
    && (q.pending.Some? ==> q.pending.value < |q.produced|)
    && (q.pending.Some? ==> forall i :: 0 <= i < |q.delivered| ==> q.delivered[i] < q.pending.value)
    && (q.producer == Outside ==> NewestArrives(q))
    && (q.producer != Outside ==> HoldsNewest(q))
    && (q.producer == Resending ==> q.pending.None?)
  }

  lemma StepKeeps(a: Action, q: Queue)
    requires Invariant(q)
    ensures Invariant(Step(a, q))
  {
  }

  lemma {:induction false} RunKeeps(q: Queue, actions: seq<Action>)
    requires Invariant(q)
    ensures Invariant(Run(q, actions))
    decreases actions
  {
    if actions != [] {
      StepKeeps(actions[0], q);
      RunKeeps(Step(actions[0], q), actions[1..]);
    }
  }

  /** Over every interleaving: the last default branch is never taken; the consumer gets an in-order
      subsequence of what was read; and whenever the producer is not inside `refresh`, the newest size
      is pending or is the last one delivered. */
  lemma NewestWins(actions: seq<Action>)
    ensures var q := Run(EMPTY, actions);
            && !q.lost
            && Increasing(q.delivered) && (forall i :: 0 <= i < |q.delivered| ==> q.delivered[i] < |q.produced|)
            && (q.producer == Outside ==> NewestArrives(q))
  {
    RunKeeps(EMPTY, actions);
  }

  /** A consumer that takes once while no refresh is under way has the newest size. */
  lemma TakingCatchesUp(actions: seq<Action>)
    requires Run(EMPTY, actions).producer == Outside && Run(EMPTY, actions).produced != []
    ensures var q := Step(Take, Run(EMPTY, actions));
            q.delivered != [] && q.delivered[|q.delivered| - 1] == Newest(q) && q.pending.None?
  {
    RunKeeps(EMPTY, actions);
  }

  /** The channel holds on to its size: only a drain drops it, and only the consumer gets it. */
  lemma SizeStaysUntilTaken(a: Action, q: Queue)
    requires Invariant(q) && q.pending.Some?
    ensures var t := Step(a, q);
            && (!a.Drain? && !a.Take? ==> t.pending == q.pending && t.delivered == q.delivered)
            && (a.Drain? ==> t.delivered == q.delivered)
            && (a.Take? ==> t.pending.None? && t.delivered == q.delivered + [q.pending.value])
  {
  }

  /** The channel operation `refresh` is at. */
  function Turn(q: Queue): Action
    requires q.producer != Outside
  {
    match q.producer
    case Offering => Offer
    case Draining => Drain
    case Resending => Resend
  }

  /** How many channel operations `refresh` still has before it, at most. */
  function Remaining(p: Producer): nat {
    match p
    case Outside => 0
    case Offering => 3
    case Draining => 2
    case Resending => 1
  }

  predicate IsProducers(a: Action) {
    !a.Take? && !a.Close?
  }

  /** `refresh` never blocks: whatever the channel holds, its next operation can be taken and brings it
      nearer to its return, and nothing the consumer does sends it back. */
  lemma RefreshNeverBlocks(q: Queue, a: Action)
    requires Invariant(q) && q.producer != Outside
    ensures Enabled(Turn(q), q) && Remaining(Step(Turn(q), q).producer) < Remaining(q.producer)
    ensures !IsProducers(a) ==> Step(a, q).producer == q.producer
    ensures IsProducers(a) && a != Turn(q) ==> Step(a, q) == q
  {
  }

  // -------------------------------------------------------------------------------------------
  // The queue itself

  /** `clampDimension`. */
  function ClampDimension(value: int): (r: int)
    ensures 0 <= r <= 65535
    ensures 0 <= value <= 65535 ==> r == value
    ensures value < 0 ==> r == 0
    ensures value > 65535 ==> r == 65535
  {
    if value < 0 then 0 else if value > 65535 then 65535 else value
  }

  /** What the channel holds. */
  function Content(q: Queue): Option<Size> {
    if q.pending.Some? && q.pending.value < |q.produced| then Some(q.produced[q.pending.value]) else None
  }

  datatype Received = Got(size: Size) | Ended | Waits

  class TerminalSizeQueue {
    // The channel, of capacity one, and the closed flag of `done`.
    var sizes: Option<Size>
    var closed: bool
    ghost var history: Queue

    ghost predicate Valid()
      reads this
    {
      Invariant(history) && history.closed == closed && sizes == Content(history)
    }

    ghost method Book(a: Action)
      requires Invariant(history) && Enabled(a, history)
      modifies `history
      ensures history == Step(a, old(history)) && Invariant(history)
    {
      StepKeeps(a, history);
      history := Step(a, history);
    }

    /** `newTerminalSizeQueue`, up to the seeding call. */
    constructor ()
      ensures Valid() && history == EMPTY && sizes.None? && !closed
    {
      sizes, closed, history := None, false, EMPTY;
    }

    /** The consumer may call `Next` at any moment, and anyone may close the queue. */
    method Meanwhile()
      requires Valid()
      modifies this
      ensures Valid() && history.produced == old(history.produced) && history.producer == old(history.producer)
      ensures sizes == old(sizes) || sizes.None?
      ensures old(history.delivered) <= history.delivered
    {
      if * {
        var _ := Next();
      }
      if * {
        CloseQueue();
      }
    }

    /** `Next`, with the moment at which it still waits as a result. A pending size and the end of the
        stream, where both are there, race. */
    method Next() returns (r: Received)
      requires Valid()
      modifies this
      ensures Valid() && history.produced == old(history.produced) && history.producer == old(history.producer)
      ensures r.Waits? <==> old(sizes).None? && !old(closed)
      ensures r.Ended? ==> old(closed)
      ensures r.Got? ==> old(sizes) == Some(r.size) && sizes.None? && history == Step(Take, old(history))
      ensures !r.Got? ==> sizes == old(sizes) && history == old(history)
    {
      var take := sizes.Some?;
      if take && closed {
        take := *;
      }
      if take {
        r := Got(sizes.value);
        sizes := None;
        Book(Take);
      } else if closed {
        r := Ended;
      } else {
        r := Waits;
      }
    }

    /** `close`, idempotent. */
    method CloseQueue()
      requires Valid()
      modifies `closed, `history
      ensures Valid() && closed && history == old(history).(closed := true)
    {
      if !closed {
        closed := true;
        Book(Close);
      }
    }

    ghost predicate Holds(size: Size)
      reads this
    {
      history.produced != [] && history.produced[|history.produced| - 1] == size
    }

    /** The first select of `refresh`. */
    method OfferSize(size: Size) returns (sent: bool)
      requires Valid() && history.producer == Offering && Holds(size)
      modifies this
      ensures Valid() && history.produced == old(history.produced)
      ensures history.producer == if sent then Outside else Draining
    {
      sent := sizes.None?;
      if sent {
        sizes := Some(size);
      }
      Book(Offer);
    }

    /** The second: drop the stale size, unless the consumer was faster. */
    method DropStale()
      requires Valid() && history.producer == Draining
      modifies this
      ensures Valid() && history.produced == old(history.produced) && history.producer == Resending
    {
      if sizes.Some? {
        sizes := None;
      }
      Book(Drain);
    }

    /** The third; its default branch is dead. */
    method ResendSize(size: Size)
      requires Valid() && history.producer == Resending && Holds(size)
      modifies this
      ensures Valid() && history.produced == old(history.produced) && history.producer == Outside
    {
      if sizes.None? {
        sizes := Some(size);
      } else {
        assert false;
      }
      Book(Resend);
    }

    /** `refresh` on what the terminal reports. Between any two channel operations the consumer may run.
        When it returns, the size read is pending or was delivered last. */
    method Refresh(width: int, height: int, readable: bool)
      requires Valid() && history.producer == Outside
      modifies this
      ensures Valid() && history.producer == Outside
      ensures history.produced ==
              old(history.produced) + if readable then [Size(ClampDimension(width), ClampDimension(height))] else []
      ensures NewestArrives(history)
    {
      if !readable {
        return;
      }
      var size := Size(ClampDimension(width), ClampDimension(height));
      Book(Read(size));
      Meanwhile();
      var sent := OfferSize(size);
      if !sent {
        Meanwhile();
        DropStale();
        Meanwhile();
        ResendSize(size);
      }
    }
  }
}
