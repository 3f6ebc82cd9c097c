/** src/future/future.c and src/task/task.c as one caller at a time sees them: objects
    whose fields change in place, against the sequential future that the concurrent
    one refines. */
module FutureCode {
  import opened Common
  import opened FutureModel
  import opened FutureCallbacks

  class SharedFuture {
    var ready: bool
    var canceled: bool
    var status: Status
    var callback: Option<nat>
    /** The completion callbacks invoked, in order, with what they were told. */
    var invoked: seq<(nat, Status)>
    /** The registrations and fulfilments so far. */
    ghost var order: seq<Event>

    /** The fields are those of the sequential future after the history. */
    ghost predicate InStep()
      reads this
    {
      Replay(order) == Spec(callback, if ready then Some(status) else None, invoked)
    }

    ghost predicate Valid()
      reads this
    {
      InStep() && (canceled ==> ready)
    }

    /** fq_future_create. */
    constructor ()
      ensures Valid() && order == [] && !canceled && !ready && status == OK
    {
      ready, canceled, status, callback := false, false, OK, None;
      invoked, order := [], [];
    }

    /** fq_future_set_result: whatever the future held before, `st` is now its outcome
        and the callback in force is told. */
    method SetResult(st: Status)
      requires InStep()
      modifies this`ready, this`status, this`invoked, this`order
      ensures Valid() && order == old(order) + [Ful(st)]
      ensures ready && status == st
    {
      ReplayNext(order, Ful(st));
      status := st;
      ready := true;
      var cb := callback;
      if cb.Some? {
        invoked := invoked + [(cb.value, st)];
      }
      order := order + [Ful(st)];
    }

    /** fq_future_on_complete. */
    method OnComplete(r: Option<nat>) returns (ret: Status)
      requires Valid()
      modifies this`callback, this`invoked, this`order
      ensures Valid()
      ensures r.None? ==> ret == Inval && order == old(order)
      ensures r.Some? ==> ret == OK && order == old(order) + [Reg(r.value)]
    {
      if r.None? { return Inval; }
      ReplayNext(order, Reg(r.value));
      callback := r;
      if ready {
        var st := status;
        invoked := invoked + [(r.value, st)];
      }
      order := order + [Reg(r.value)];
      ret := OK;
    }

    /** fq_future_cancel: FQ_OK in any case; only the first one fulfils. */
    method Cancel() returns (ret: Status)
      requires Valid()
      modifies this
      ensures Valid() && ret == OK && canceled
      ensures order == if old(canceled) then old(order) else old(order) + [Ful(Canceled)]
      ensures old(canceled) ==> ready == old(ready) && status == old(status) && invoked == old(invoked)
      ensures !old(canceled) ==> ready && status == Canceled
    {
      if canceled { return OK; }
      canceled := true;
      SetResult(Canceled);
      ret := OK;
    }

    /** fq_future_status: the outcome of the last fulfilment, FQ_ERR_BUSY if none. */
    method GetStatus() returns (ret: Status)
      requires Valid()
      ensures ready ==> ret == status && LastFul(order, |order|, ret)
      ensures !ready ==> ret == Busy && forall st :: !LastFul(order, |order|, st)
    {
      if !ready {
        forall st ensures !LastFul(order, |order|, st) {
          DoneIsLast(order, |order|, st);
        }
        return Busy;
      }
      ret := status;
      DoneIsLast(order, |order|, ret);
    }

    /** How often each callback was told what: exactly the firings of the history. */
    lemma ToldExactly(r: nat, st: Status)
      requires Valid()
      ensures multiset(invoked)[(r, st)] == |Firings(order, |order|, r, st)|
    {
      DueAreFirings(order, |order|, r, st);
    }
  }

  class SharedTask {
    var executed: bool
    var canceled: bool
    const future: SharedFuture?
    /** How often the task's callback has run. */
    var runs: nat

    ghost predicate Valid()
      reads this, future
    {
      (future != null ==> future.Valid()) && (runs > 0 ==> executed)
    }

    /** fq_task_create and fq_task_set_future. */
    constructor (future: SharedFuture?)
      requires future != null ==> future.Valid()
      ensures Valid() && this.future == future && !executed && !canceled && runs == 0
    {
      this.future := future;
      executed, canceled, runs := false, false, 0;
    }

    /** fq_task_execute: the callback runs unless the task was cancelled; either way the
        future is fulfilled, with the matching outcome. */
    method Execute()
      requires Valid()
      modifies this`executed, this`runs, future
      ensures Valid() && executed
      ensures runs == old(runs) + if canceled then 0 else 1
      ensures future != null ==>
                && future.order == old(future.order) + [Ful(if canceled then Canceled else OK)]
                && future.canceled == old(future.canceled)
    {
      var wasCanceled := canceled;
      if !wasCanceled {
        runs := runs + 1;
      }
      executed := true;
      if future != null {
        future.SetResult(if wasCanceled then Canceled else OK);
      }
    }

    /** fq_task_cancel: refused once executed; the first one also cancels the future. */
    method Cancel() returns (ret: Status)
      requires Valid()
      modifies this`canceled, future
      ensures Valid()
      ensures ret == if old(executed) then Busy else OK
      ensures canceled == (old(canceled) || !executed)
      ensures future != null ==>
                future.order == if old(executed || canceled || future.canceled) then old(future.order)
                                else old(future.order) + [Ful(Canceled)]
    {
      if executed { return Busy; }
      if canceled { return OK; }
      canceled := true;
      if future != null {
        var st := future.Cancel();
      }
      ret := OK;
    }

    /** fq_task_destroy: the future is not left pending. */
    method Destroy()
      requires Valid()
      modifies future
      ensures Valid()
      ensures future != null ==> future.ready
      ensures future != null && old(future.ready) ==> future.order == old(future.order)
      ensures future != null && !old(future.ready) ==>
                future.order == old(future.order) + [Ful(Canceled)] && future.status == Canceled
    {
      if future != null && !future.ready {
        var st := future.Cancel();
      }
    }
  }
}
