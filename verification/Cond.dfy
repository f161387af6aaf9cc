/** The condition variable (src/deps/cond.rs): the bookkeeping its internal mutex protects, and the
    object that keeps it.  Every function below is one hold of that mutex. */
module CondVar {
  import opened Arithmetic

  /** `generation` counts broadcasts; the source keeps it modulo two to the 64th. */
  datatype Waiters = Waiters(parked: nat, tokens: nat, generation: nat)

  const NO_WAITERS := Waiters(0, 0, 0)

  function Registered(w: Waiters): Waiters {
    w.(parked := w.parked + 1)
  }

  /** Whether a waiter that registered in generation `since` may leave now. */
  predicate MayLeave(w: Waiters, since: nat) {
    w.tokens > 0 || w.generation != since
  }

  /** A waiter leaves: on a token if there is one, whoever that was meant for, else because its
      generation has moved on. */
  function Left(w: Waiters, since: nat): Waiters
    requires MayLeave(w, since) && w.parked > 0
  {
    if w.tokens > 0 then w.(tokens := w.tokens - 1, parked := w.parked - 1)
    else w.(parked := w.parked - 1)
  }

  predicate SignalCounts(w: Waiters) {
    w.parked > w.tokens
  }

  function Signalled(w: Waiters): Waiters {
    if SignalCounts(w) then w.(tokens := w.tokens + 1) else w
  }

  function Broadcasted(w: Waiters): Waiters {
    if w.parked > 0 then w.(generation := w.generation + 1, tokens := 0) else w
  }

  const TWO_TO_THE_64: nat := 0x1_0000_0000_0000_0000

  class Cond {
    var parked: nat
    var tokens: nat
    var generation: nat
    // how many broadcasts have counted so far
    ghost var epoch: nat

    ghost predicate Valid()
      reads this
    {
      generation == epoch % TWO_TO_THE_64
    }

    ghost function View(): Waiters
      reads this
    {
      Waiters(parked, tokens, epoch)
    }

    constructor ()
      ensures Valid() && View() == NO_WAITERS
    {
      parked, tokens, generation, epoch := 0, 0, 0, 0;
    }

    /** The head of `wait`: the caller still holds its own lock. */
    method Register() returns (since: nat)
      requires Valid()
      modifies this
      ensures Valid() && View() == Registered(old(View()))
      ensures since == old(epoch) % TWO_TO_THE_64
    {
      parked := parked + 1;
      since := generation;
    }

    /** One turn of the loop in `wait`, with what registration returned.  It goes on waiting exactly if
        there is no token and the generations agree modulo two to the 64th, and unless that many
        broadcasts have passed since registration, exactly if the waiter may not leave. */
    method TryLeave(since: nat, ghost sinceEpoch: nat) returns (left: bool)
      requires Valid() && parked > 0
      requires since == sinceEpoch % TWO_TO_THE_64 && sinceEpoch <= epoch
      modifies this
      ensures Valid()
      ensures left <==> old(tokens) > 0 || old(epoch) % TWO_TO_THE_64 != sinceEpoch % TWO_TO_THE_64
      // how many broadcasts have counted since registration decides, but for the wrap
      ensures old(tokens) == 0 ==> (left <==> (old(epoch) - sinceEpoch) % 0x1_0000_0000_0000_0000 != 0)
      ensures 1 <= old(epoch) - sinceEpoch <= 0xFFFF_FFFF_FFFF_FFFF ==> left
      ensures old(epoch) < sinceEpoch + TWO_TO_THE_64 ==> (left <==> MayLeave(old(View()), sinceEpoch))
      ensures left ==> MayLeave(old(View()), sinceEpoch) && View() == Left(old(View()), sinceEpoch)
      ensures left ==> parked == old(parked) - 1 && tokens == (if old(tokens) > 0 then old(tokens) - 1 else 0)
      ensures !left ==> View() == old(View())
    {
      Congruent(sinceEpoch, epoch, TWO_TO_THE_64);
      if epoch < sinceEpoch + TWO_TO_THE_64 {
        SameRemainder(sinceEpoch, epoch, TWO_TO_THE_64);
      }
      if tokens > 0 {
        tokens := tokens - 1;
        parked := parked - 1;
        return true;
      }
      if generation != since {
        parked := parked - 1;
        return true;
      }
      left := false;
    }

    /** `notify` says whether a sleeping thread is to be notified. */
    method Signal() returns (notify: bool)
      requires Valid()
      modifies this
      ensures Valid() && View() == Signalled(old(View()))
      ensures notify <==> SignalCounts(old(View()))
    {
      if parked > tokens {
        tokens := tokens + 1;
        return true;
      }
      notify := false;
    }

    /** `notify` says whether all sleeping threads are to be notified. */
    method Broadcast() returns (notify: bool)
      requires Valid()
      modifies this
      ensures Valid() && View() == Broadcasted(old(View()))
      ensures notify <==> old(parked) > 0
    {
      if parked > 0 {
        NextRemainder(epoch, TWO_TO_THE_64);
        generation := if generation == TWO_TO_THE_64 - 1 then 0 else generation + 1;
        epoch := epoch + 1;
        tokens := 0;
        return true;
      }
      notify := false;
    }
  }
}
