/** `toAwaitable(source)` as an object: the closure's variables are fields,
    the relay sink and `then` are methods that update them in place, and a
    ghost trace records every call the adapter makes to the outside world. */
module ToAwaitable {
  import opened JsValues
  import opened Relay

  class Awaitable {
    /** The source's control handle, stored by a greet signal. */
    var talkback: Value
    /** The settle callbacks of the most recent `then`, if not yet cleared. */
    var pending: Option<RequestId>
    /** `false` until the source terminates, then the termination reason. */
    var reason: Value
    /** Every call made upstream or downstream so far, in order: the record
        of the calls themselves, which the closure does not keep. */
    ghost var trace: seq<Effect>

    /** The closure's variables as one value. */
    function AsState(): State
      reads this
    {
      State(talkback, pending, reason)
    }

    /** Creates the closure and greets the source with the relay sink. A
        source that answers the greet synchronously does so as the next
        call of `Sink`. */
    constructor ()
      ensures AsState() == Initial
      ensures trace == [GreetSource]
    {
      talkback := Undefined;
      pending := None;
      reason := Bool(false);
      trace := [GreetSource];
    }

    /** The relay sink the source calls with signal type `t` and payload `d`. */
    method Sink(t: int, d: Value)
      modifies this
      ensures AsState() == Relay.Sink(old(AsState()), t, d).next
      ensures trace == old(trace) + Relay.Sink(old(AsState()), t, d).effects
    {
      if t == 0 {
        talkback := d;
      }
      if t == 1 && pending.Some? {
        trace := trace + [Resolve(pending.value, d)];
      }
      if t == 2 {
        reason := Or(d, Bool(true));
        if pending.Some? {
          trace := trace + [Reject(pending.value, reason)];
        }
      }
      pending := None;
    }

    /** `then(resolve, reject)` for the request `id`. */
    method Then(id: RequestId)
      modifies this
      ensures AsState() == Relay.Then(old(AsState()), id).next
      ensures trace == old(trace) + Relay.Then(old(AsState()), id).effects
    {
      if IsTruthy(reason) {
        trace := trace + [Reject(id, reason)];
      }
      pending := Some(id);
      if IsTruthy(talkback) {
        trace := trace + [Pull];
      }
    }
  }

  /** One `await` on the object while the stream is live and the handle is
      present (whatever the slot held, `then` overwrites it), against a source that answers the pull inside `talkback(1)`
      with signal type `t` and payload `d`: the pull goes up, the answer
      settles exactly this request, and the slot is empty again. */
  method AwaitSync(next: Awaitable, id: RequestId, t: int, d: Value)
    requires IsTruthy(next.talkback) && next.reason == Bool(false)
    modifies next
    ensures next.pending == None
    ensures next.talkback == (if t == 0 then d else old(next.talkback))
    ensures next.reason == (if t == 2 then Or(d, Bool(true)) else Bool(false))
    ensures next.trace == old(next.trace) + [Pull]
                          + (if t == 1 then [Resolve(id, d)]
                             else if t == 2 then [Reject(id, Or(d, Bool(true)))]
                             else [])
  {
    next.Then(id);
    assert next.pending == Some(id) && next.trace == old(next.trace) + [Pull];
    next.Sink(t, d);
  }

  /** The test's synchronous source driven through the object: it greets back
      with its own handle, answers the first three pulls with 10, 20 and 30
      and the fourth with a termination without payload, each inside the
      pull; the consumer awaits four times. Upstream the adapter sends one
      greet and four pulls; downstream it resolves with 10, 20 and 30 and
      then rejects with the marker `true`. */
  method SyncSourceTrace() returns (ghost trace: seq<Effect>)
    ensures trace == [GreetSource,
                      Pull, Resolve(1, Num(10)),
                      Pull, Resolve(2, Num(20)),
                      Pull, Resolve(3, Num(30)),
                      Pull, Reject(4, Bool(true))]
  {
    var next := new Awaitable();
    next.Sink(0, Ref(0));
    AwaitSync(next, 1, 1, Num(10));
    AwaitSync(next, 2, 1, Num(20));
    AwaitSync(next, 3, 1, Num(30));
    AwaitSync(next, 4, 2, Undefined);
    trace := next.trace;
  }
}
