/** The adapter of `toAwaitable` as a pure state machine: the state its
    closure shares, the two entry points (the relay sink handed to the
    source and the `then` method of the returned awaitable) as transitions,
    and the effects each transition has on the outside world. */
module Relay {
  import opened JsValues

  datatype Option<+T> = None | Some(value: T)

  /** A request is one call of `then`: the pair of settle callbacks it
      passed, identified by a number. */
  type RequestId = nat

  /** What the adapter does to the outside world. `GreetSource` and `Pull`
      go upstream (the source's greet and `talkback(1)`); `Resolve` and
      `Reject` go downstream (calling a request's settle callbacks). */
  datatype Effect =
    | GreetSource
    | Pull
    | Resolve(id: RequestId, value: Value)
    | Reject(id: RequestId, reason: Value)

  /** The closure's variables: `talkback`, the pending `resolve`/`reject`
      pair (always written together) and the sticky `reason`. */
  datatype State = State(talkback: Value, pending: Option<RequestId>, reason: Value)

  /** A transition: the state after it and the effects it had, in order. */
  datatype Step = Step(next: State, effects: seq<Effect>)

  /** What either side may do to the adapter: the source calls the sink with
      a signal type and payload, or the consumer calls `then`. */
  datatype Event = Signal(t: int, d: Value) | Request(id: RequestId)

  /** No handle, no pending request, and `reason` set to `false`. */
  const Initial := State(Undefined, None, Bool(false))

  /** True when `e` calls one of the settle callbacks of request `id`. */
  predicate Settles(e: Effect, id: RequestId) {
    (e.Resolve? && e.id == id) || (e.Reject? && e.id == id)
  }

  /** Number of pulls sent upstream in `es`. */
  function Pulls(es: seq<Effect>): nat {
    if es == [] then 0 else (if es[0] == Pull then 1 else 0) + Pulls(es[1..])
  }

  /** Number of times `es` settles request `id`. */
  function Settlements(es: seq<Effect>, id: RequestId): nat {
    if es == [] then 0 else (if Settles(es[0], id) then 1 else 0) + Settlements(es[1..], id)
  }

  /** The relay sink: type 0 stores the handle, type 1 resolves the pending
      request, type 2 records the termination reason and rejects the pending
      request; whatever the type, the pending slot is cleared afterwards. */
  function Sink(s: State, t: int, d: Value): (r: Step)
    ensures r.next.pending == None
    ensures r.next.talkback == (if t == 0 then d else s.talkback)
    ensures t == 2 ==> IsTruthy(r.next.reason)
    ensures t == 2 ==> (IsTruthy(d) ==> r.next.reason == d) && (!IsTruthy(d) ==> r.next.reason == Bool(true))
    ensures t != 2 ==> r.next.reason == s.reason
    ensures Pulls(r.effects) == 0
    ensures |r.effects| <= 1
    ensures forall e :: e in r.effects ==> s.pending.Some? && Settles(e, s.pending.value)
    ensures t == 1 && s.pending.Some? ==> r.effects == [Resolve(s.pending.value, d)]
    ensures t == 2 && s.pending.Some? ==> r.effects == [Reject(s.pending.value, r.next.reason)]
    ensures r.effects != [] <==> (t == 1 || t == 2) && s.pending.Some?
  {
    var talkback := if t == 0 then d else s.talkback;
    var resolved := if t == 1 && s.pending.Some? then [Resolve(s.pending.value, d)] else [];
    var reason := if t == 2 then Or(d, Bool(true)) else s.reason;
    var rejected := if t == 2 && s.pending.Some? then [Reject(s.pending.value, reason)] else [];
    Step(State(talkback, None, reason), resolved + rejected)
  }

  /** The `then` method: reject at once if the stream has ended, then store
      the new request over whatever was pending, then pull if a handle is
      present (even after the rejection). */
  function Then(s: State, id: RequestId): (r: Step)
    ensures r.next.pending == Some(id)
    ensures r.next.talkback == s.talkback && r.next.reason == s.reason
    ensures Pulls(r.effects) == (if IsTruthy(s.talkback) then 1 else 0)
    ensures Settlements(r.effects, id) == (if IsTruthy(s.reason) then 1 else 0)
    ensures forall e :: e in r.effects ==> e == Pull || e == Reject(id, s.reason)
    ensures IsTruthy(s.reason) ==> |r.effects| > 0 && r.effects[0] == Reject(id, s.reason)
  {
    var rejected := if IsTruthy(s.reason) then [Reject(id, s.reason)] else [];
    var pulled := if IsTruthy(s.talkback) then [Pull] else [];
    assert Pulls(rejected + pulled) == Pulls(rejected) + Pulls(pulled) by {
      if rejected != [] { assert (rejected + pulled)[1..] == pulled; }
    }
    assert Settlements(rejected + pulled, id) == Settlements(rejected, id) + Settlements(pulled, id) by {
      if rejected != [] { assert (rejected + pulled)[1..] == pulled; }
    }
    Step(State(s.talkback, Some(id), s.reason), rejected + pulled)
  }

  /** One event applied to the state. */
  function Apply(s: State, e: Event): Step {
    match e
    case Signal(t, d) => Sink(s, t, d)
    case Request(id) => Then(s, id)
  }

  /** A sequence of events applied in order; the effects are concatenated.
      A synchronous source answering inside `talkback(1)` is the next event:
      `then` has already written the slot when it pulls. */
  function Run(s: State, evs: seq<Event>): Step
    decreases |evs|
  {
    if evs == [] then Step(s, [])
    else
      var first := Apply(s, evs[0]);
      var rest := Run(first.next, evs[1..]);
      Step(rest.next, first.effects + rest.effects)
  }

  /** Number of `then` calls with request `id` in `evs`. */
  function Requests(evs: seq<Event>, id: RequestId): nat {
    if evs == [] then 0 else (if evs[0] == Request(id) then 1 else 0) + Requests(evs[1..], id)
  }

  /** A source that keeps the callbag contract: once the stream has ended it
      delivers neither data (type 1) nor another termination (type 2). */
  ghost predicate QuietAfterEnd(s: State, evs: seq<Event>)
    decreases |evs|
  {
    evs == [] ||
    ((IsTruthy(s.reason) && evs[0].Signal? ==> evs[0].t != 1 && evs[0].t != 2) &&
     QuietAfterEnd(Apply(s, evs[0]).next, evs[1..]))
  }

  /** A source that never changes the reason once the stream has ended:
      every termination (type 2) it delivers after the end stores the reason
      already stored, `d || true` being that reason. Data after the end is
      allowed; it never touches `reason`. A source that terminates again
      without payload after ending with `true`, as the test suite's
      synchronous source does, keeps it. */
  ghost predicate KeepsReasonAfterEnd(s: State, evs: seq<Event>)
    decreases |evs|
  {
    evs == [] ||
    ((IsTruthy(s.reason) && evs[0].Signal? && evs[0].t == 2 ==> Or(evs[0].d, Bool(true)) == s.reason) &&
     KeepsReasonAfterEnd(Apply(s, evs[0]).next, evs[1..]))
  }

  lemma {:induction false} SettlementsAppend(a: seq<Effect>, b: seq<Effect>, id: RequestId)
    ensures Settlements(a + b, id) == Settlements(a, id) + Settlements(b, id)
  {
    if a == [] {
      assert a + b == b;
    } else {
      assert (a + b)[0] == a[0] && (a + b)[1..] == a[1..] + b;
      SettlementsAppend(a[1..], b, id);
    }
  }

  lemma {:induction false} SettlementsNone(es: seq<Effect>, id: RequestId)
    requires forall e :: e in es ==> !Settles(e, id)
    ensures Settlements(es, id) == 0
  {
    if es != [] {
      assert es[0] in es;
      SettlementsNone(es[1..], id);
    }
  }

  /** `reason` is either its initial `false` or a truthy termination reason. */
  predicate ReasonWellFormed(s: State) {
    s.reason == Bool(false) || IsTruthy(s.reason)
  }

  /** Every state reachable from the initial one has a well-formed `reason`:
      a falsy termination payload never ends up stored. */
  lemma {:induction false} RunKeepsReasonWellFormed(s: State, evs: seq<Event>)
    requires ReasonWellFormed(s)
    ensures ReasonWellFormed(Run(s, evs).next)
    decreases |evs|
  {
    if evs != [] {
      RunKeepsReasonWellFormed(Apply(s, evs[0]).next, evs[1..]);
    }
  }

  /** Once `reason` is truthy it stays truthy: nothing resets it. */
  lemma {:induction false} StaysEnded(s: State, evs: seq<Event>)
    requires IsTruthy(s.reason)
    ensures IsTruthy(Run(s, evs).next.reason)
    decreases |evs|
  {
    if evs != [] {
      StaysEnded(Apply(s, evs[0]).next, evs[1..]);
    }
  }

  /** Once `reason` is truthy, no run whose later terminations store the
      same reason changes it again: data, greets and requests after the end
      leave it alone. */
  lemma {:induction false} ReasonSticky(s: State, evs: seq<Event>)
    requires IsTruthy(s.reason)
    requires KeepsReasonAfterEnd(s, evs)
    ensures Run(s, evs).next.reason == s.reason
    decreases |evs|
  {
    if evs != [] {
      ReasonSticky(Apply(s, evs[0]).next, evs[1..]);
    }
  }

  /** Once the stream has ended, and no later termination stores a
      different reason, every `then` rejects synchronously with the stored
      reason before doing anything else. */
  lemma LaterThenRejects(s: State, evs: seq<Event>, id: RequestId)
    requires IsTruthy(s.reason)
    requires KeepsReasonAfterEnd(s, evs)
    ensures Run(s, evs).next.reason == s.reason
    ensures Then(Run(s, evs).next, id).effects[0] == Reject(id, s.reason)
  {
    ReasonSticky(s, evs);
  }

  /** The sink does not guard against a second termination: on an ended
      stream, one with a truthy payload replaces the stored reason. */
  lemma SecondTerminateReplacesReason(s: State, d: Value)
    requires IsTruthy(s.reason) && IsTruthy(d)
    ensures Sink(s, 2, d).next.reason == d
  {
  }

  /** After the stream has ended, `then` still stores the request and pulls;
      a source that answers that pull with data or another termination makes
      the sink settle the already rejected request a second time. */
  lemma {:induction false} AnsweredRePullSettlesTwice(s: State, id: RequestId, t: int, d: Value)
    requires IsTruthy(s.reason) && IsTruthy(s.talkback)
    requires t == 1 || t == 2
    ensures Run(s, [Request(id), Signal(t, d)]).effects
         == [Reject(id, s.reason), Pull] + (if t == 1 then [Resolve(id, d)] else [Reject(id, Or(d, Bool(true)))])
    ensures Settlements(Run(s, [Request(id), Signal(t, d)]).effects, id) == 2
  {
    var evs := [Request(id), Signal(t, d)];
    var first := Then(s, id);
    assert first.effects == [Reject(id, s.reason), Pull] by {
      assert first.effects[0] == Reject(id, s.reason);
      assert Pulls(first.effects) == 1;
    }
    var second := Sink(first.next, t, d);
    assert evs[1..] == [Signal(t, d)] && evs[1..][1..] == [];
    assert Run(first.next, [Signal(t, d)]).effects == second.effects + [];
    assert Run(s, evs).effects == first.effects + second.effects;
    SettlementsAppend(first.effects, second.effects, id);
    assert Settlements(first.effects, id) == 1;
    assert Settlements(second.effects, id) == 1 by {
      assert second.effects[1..] == [];
    }
  }

  /** A request that is no longer in the slot, and is never passed to `then`
      again, is never settled, whatever the source delivers. */
  lemma {:induction false} SupersededNeverSettled(s: State, evs: seq<Event>, a: RequestId)
    requires s.pending != Some(a)
    requires Requests(evs, a) == 0
    ensures Settlements(Run(s, evs).effects, a) == 0
    decreases |evs|
  {
    if evs != [] {
      var first := Apply(s, evs[0]);
      assert first.next.pending != Some(a);
      SettlementsNone(first.effects, a);
      SupersededNeverSettled(first.next, evs[1..], a);
      SettlementsAppend(first.effects, Run(first.next, evs[1..]).effects, a);
    }
  }

  /** `then` overwrites the slot: a request followed by a second one before
      the source answered is never settled afterwards. */
  lemma OverwrittenRequestNeverSettled(s: State, a: RequestId, b: RequestId, evs: seq<Event>)
    requires a != b
    requires Requests(evs, a) == 0
    ensures Settlements(Run(Then(Then(s, a).next, b).next, evs).effects, a) == 0
  {
    SupersededNeverSettled(Then(Then(s, a).next, b).next, evs, a);
  }

  /** Each request is settled at most once per `then` call with it, plus once
      more if it is pending on a stream that has not ended, provided the
      source says nothing after ending the stream. */
  lemma {:induction false} SettlementsBounded(s: State, evs: seq<Event>, id: RequestId)
    requires QuietAfterEnd(s, evs)
    ensures Settlements(Run(s, evs).effects, id)
         <= Requests(evs, id) + (if s.pending == Some(id) && !IsTruthy(s.reason) then 1 else 0)
    decreases |evs|
  {
    if evs != [] {
      var first := Apply(s, evs[0]);
      var rest := Run(first.next, evs[1..]);
      SettlementsBounded(first.next, evs[1..], id);
      SettlementsAppend(first.effects, rest.effects, id);
      match evs[0]
      case Request(x) =>
        if x != id {
          SettlementsNone(first.effects, id);
        }
      case Signal(t, d) =>
        if !(s.pending == Some(id) && !IsTruthy(s.reason)) {
          SettlementsNone(first.effects, id);
        } else if first.effects != [] {
          assert first.effects == [first.effects[0]];
          assert Settlements(first.effects, id) == 1;
        }
    }
  }

  /** With fresh request numbers and a source that keeps the callbag
      contract, no request is ever settled twice. */
  lemma SettledAtMostOnce(s: State, evs: seq<Event>, id: RequestId)
    requires QuietAfterEnd(s, evs)
    requires s.pending != Some(id)
    requires Requests(evs, id) <= 1
    ensures Settlements(Run(s, evs).effects, id) <= 1
  {
    SettlementsBounded(s, evs, id);
  }
}
