/** Runs of the adapter against particular sources, as event sequences. A
    source that answers inside `talkback(1)` and one that answers on a later
    timer tick produce the same sequence: the answer is the next event. */
module Scenarios {
  import opened JsValues
  import opened Relay

  /** A source that ends with the payload "boom" on the first pull: both the
      pending request and every later one are rejected with "boom", and the
      later `then` still pulls after rejecting. */
  lemma ImmediateTermination(h: Value)
    requires IsTruthy(h)
    ensures Run(Initial, [Signal(0, h), Request(1), Signal(2, Str("boom")), Request(2)]).effects
         == [Pull, Reject(1, Str("boom")), Reject(2, Str("boom")), Pull]
  {
    var s1 := State(h, None, Bool(false));
    var s2 := State(h, Some(1), Bool(false));
    var s3 := State(h, None, Str("boom"));
    assert Run(s3, [Request(2)]).effects == [Reject(2, Str("boom")), Pull];
    assert Run(s2, [Signal(2, Str("boom")), Request(2)]).effects == [Reject(1, Str("boom")), Reject(2, Str("boom")), Pull] by {
      assert [Signal(2, Str("boom")), Request(2)][1..] == [Request(2)];
    }
    assert Run(s1, [Request(1), Signal(2, Str("boom")), Request(2)]).effects
        == [Pull, Reject(1, Str("boom")), Reject(2, Str("boom")), Pull] by {
      assert [Request(1), Signal(2, Str("boom")), Request(2)][1..] == [Signal(2, Str("boom")), Request(2)];
    }
    assert [Signal(0, h), Request(1), Signal(2, Str("boom")), Request(2)][1..] == [Request(1), Signal(2, Str("boom")), Request(2)];
  }

  /** A `then` issued before the source greeted back sends no pull, and the
      greet then clears the slot: that request is never settled, whatever
      the source and the consumer do afterwards (short of reusing it). */
  lemma {:induction false} EarlyRequestLost(h: Value, id: RequestId, evs: seq<Event>)
    requires Requests(evs, id) == 0
    ensures Then(Initial, id).effects == []
    ensures Settlements(Run(Initial, [Request(id), Signal(0, h)] + evs).effects, id) == 0
  {
    var all := [Request(id), Signal(0, h)] + evs;
    assert all[0] == Request(id) && all[1..][0] == Signal(0, h) && all[1..][1..] == evs;
    var afterThen := Then(Initial, id);
    var afterGreet := Sink(afterThen.next, 0, h);
    assert afterThen.effects == [] && afterGreet.effects == [] && afterGreet.next.pending == None;
    SupersededNeverSettled(afterGreet.next, evs, id);
    assert Run(afterThen.next, all[1..]).effects == Run(afterGreet.next, evs).effects;
    assert Run(Initial, all).effects == Run(afterGreet.next, evs).effects;
  }

  /** Data delivered after the end (here an answer to the re-pull) resolves
      the already rejected request but leaves the stored reason as it was,
      so the next `then` still rejects with it. */
  lemma DataAfterEndKeepsReason(h: Value)
    requires IsTruthy(h)
    ensures Run(State(h, None, Str("boom")), [Request(1), Signal(1, Num(7))]).next.reason == Str("boom")
    ensures Then(Run(State(h, None, Str("boom")), [Request(1), Signal(1, Num(7))]).next, 2).effects[0]
         == Reject(2, Str("boom"))
  {
    var s := State(h, None, Str("boom"));
    var evs := [Request(1), Signal(1, Num(7))];
    assert evs[1..] == [Signal(1, Num(7))] && evs[1..][1..] == [];
    assert KeepsReasonAfterEnd(Sink(Then(s, 1).next, 1, Num(7)).next, []);
    assert KeepsReasonAfterEnd(Then(s, 1).next, evs[1..]);
    assert KeepsReasonAfterEnd(s, evs);
    LaterThenRejects(s, evs, 2);
  }

  /** The test suite's synchronous source after its end: it answers the pull
      that a later `then` still sends with another termination without
      payload. `undefined || true` stores `true` again, so the reason stays
      `true` and the next `then` rejects with it. */
  lemma RepeatedEmptyTerminationKeepsReason(h: Value)
    requires IsTruthy(h)
    ensures Run(State(h, None, Bool(true)), [Request(5), Signal(2, Undefined)]).next.reason == Bool(true)
    ensures Then(Run(State(h, None, Bool(true)), [Request(5), Signal(2, Undefined)]).next, 6).effects[0]
         == Reject(6, Bool(true))
  {
    var s := State(h, None, Bool(true));
    var evs := [Request(5), Signal(2, Undefined)];
    assert evs[1..] == [Signal(2, Undefined)] && evs[1..][1..] == [];
    assert KeepsReasonAfterEnd(Sink(Then(s, 5).next, 2, Undefined).next, []);
    assert KeepsReasonAfterEnd(Then(s, 5).next, evs[1..]);
    assert KeepsReasonAfterEnd(s, evs);
    LaterThenRejects(s, evs, 6);
  }
}
