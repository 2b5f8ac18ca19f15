# callbag-to-awaitable in Dafny

`toAwaitable(source)` adapts a pullable callbag source to an object with a
`then` method, so that `await next` yields one value per await. It greets the
source with a relay sink. It then keeps four closure variables:
- `talkback`: the source's control handle.
- `resolve` / `reject`: the pending request.
- `reason`: a sticky termination reason, initially `false`.

Two entry points change them:
- The sink handles signal types 0 (greet: store the handle), 1 (data: resolve
  the pending request) and 2 (terminate: record `d || true` as the reason and
  reject the pending request). It then always clears the pending slot.
- `then` rejects at once if `reason` is truthy. It then overwrites the slot
  with the new settle callbacks, and pulls with `talkback(1)` if a handle is
  present.

The model has four modules:

- `JsValues` (jsvalues.dfy): JavaScript values, truthiness and `||`.
- `Relay` (relay.dfy): the adapter as a pure state machine. `Sink` and `Then`
  are the two transitions. Each returns the new state and the effects it had
  on the outside world: `GreetSource` and `Pull` upstream, `Resolve` and
  `Reject` downstream. `Run` applies a sequence of events. The lemmas about
  runs live here.
- `ToAwaitable` (awaitable.dfy): the closure as a class `Awaitable`. Its
  fields are the closure variables, plus a ghost `trace` of the calls made. Its
  methods `Sink` and `Then` update the fields in place and are proved to
  match `Relay.Sink` and `Relay.Then`. `SyncSourceTrace` drives the object
  with the test suite's synchronous source.
- `Scenarios` (scenarios.dfy): runs against particular sources.

The pending `resolve` and `reject` are always written together
(readme.js:68-69, 74-75), so they are one slot holding a request number. A
source's reply is the next event whether it comes synchronously inside
`talkback(1)` or on a later timer tick. This is sound because `then` writes
the slot before it pulls (readme.js:74-76). So the synchronous and the
asynchronous test sources give the same event sequence.

Three behaviours of the code are worth stating, because a reader might
expect otherwise:
- A greet clears the pending slot (readme.js:68-69). So a `then` issued before
  the handle arrived is lost for good: a later pull cannot settle it
  (`Scenarios.EarlyRequestLost`).
- A second greet replaces the handle (readme.js:62).
- A second termination replaces the stored reason (readme.js:65,
  `Relay.SecondTerminateReplacesReason`). The reason stays truthy in every
  case (`Relay.StaysEnded`). It stays the same on every run in which no
  termination after the end stores a different reason; data after the end
  leaves it alone (`Relay.ReasonSticky`, `Scenarios.DataAfterEndKeepsReason`).

Also, after the end, `then` still pulls (readme.js:76). A source that
answers that pull with data or another termination makes the sink settle
the already rejected request a second time
(`Relay.AnsweredRePullSettlesTwice`). The test suite's synchronous source
answers every pull after the fourth with a termination without payload.
That stores `true` again, so the reason stays `true`
(`Scenarios.RepeatedEmptyTerminationKeepsReason`).

## Model

| member | source | states |
|---|---|---|
| `JsValues.IsTruthy` | readme.js:63-76 | the truthiness tests `if (resolve)`, `d \|\| true`, `if (reject)`, `if (reason)` and `if (talkback)` at readme.js:63, 65, 66, 73 and 76: a value is truthy exactly when it is not one of `undefined`, `null`, `false`, `0` and `""` |
| `JsValues.Or` | readme.js:65 | `a \|\| b` is `a` when `a` is truthy and `b` otherwise, so it is truthy whenever `b` is: `d \|\| true` is always truthy |
| `Relay.Sink` | readme.js:61-70 | after any signal the slot is empty. Type 0 stores its payload as the handle, and other types leave the handle alone. Type 2 stores the payload if truthy, else `true`, and the reason is then truthy. Other types leave the reason alone. The sink never pulls. It settles at most once and only the pending request: a resolve with the payload for type 1, a reject with the new reason for type 2. It has an effect exactly when the type is 1 or 2 and a request is pending, so data or a termination with nothing pending is dropped |
| `Relay.Then` | readme.js:72-77 | the new request always replaces the slot, and handle and reason are unchanged. Exactly one pull if the handle is truthy, none otherwise, even after rejecting. The request is rejected once, first and with the stored reason, exactly when the reason is truthy. Nothing else happens |
| `Relay.RunKeepsReasonWellFormed` | readme.js:60-65 | from a state whose reason is `false` or truthy, every run leaves it `false` or truthy: a falsy payload is never stored |
| `Relay.StaysEnded` | readme.js:60-73 | once the reason is truthy it stays truthy on every run: nothing resets it |
| `Relay.ReasonSticky` | readme.js:63-65 | once ended, the stored reason is unchanged by any run in which every termination after the end stores the reason already stored (`d \|\| true` equal to it); data, greets and requests after the end do not touch it |
| `Relay.LaterThenRejects` | readme.js:73 | after termination and any run in which no termination after the end stores a different reason, every later `then` first rejects with the stored reason |
| `Relay.SecondTerminateReplacesReason` | readme.js:64-65 | on any ended stream, a termination with a truthy payload replaces the stored reason with that payload: the sink does not guard against a second termination |
| `Relay.AnsweredRePullSettlesTwice` | readme.js:63-76 | on an ended stream with a handle, a `then` rejects at once and pulls. A data answer to that pull then resolves the same request, and a termination answer rejects it again: the request is settled twice |
| `Relay.SupersededNeverSettled` | readme.js:63-75 | a request not in the slot and not passed to `then` again is never resolved or rejected by any run |
| `Relay.OverwrittenRequestNeverSettled` | readme.js:74-76 | a request overwritten by a later `then` before the source answered is never settled afterwards |
| `Relay.SettlementsBounded` | readme.js:63-75 | if the source is quiet after ending, a run settles a request at most once per `then` with it. It may settle it once more if it was pending on a live stream |
| `Relay.SettledAtMostOnce` | readme.js:63-75 | with a fresh request number and a source quiet after ending, no request is settled twice |
| `ToAwaitable.Awaitable.constructor` | readme.js:56-61 | the fresh closure has no handle, no pending request and reason `false`, and has greeted the source once. `Initial` has a well-formed reason, and each method call is proved to take exactly one `Relay` step, which is the argument for applying `Relay.RunKeepsReasonWellFormed` to the object; no lemma drives the object through a whole run |
| `ToAwaitable.Awaitable.Sink` | readme.js:61-70 | updates the fields in place exactly as `Relay.Sink` does, and appends its effects to the trace |
| `ToAwaitable.Awaitable.Then` | readme.js:72-77 | updates the fields in place exactly as `Relay.Then` does, and appends its effects to the trace |
| `ToAwaitable.AwaitSync` | test.js:28-46 | one await on a live stream whose source answers inside the pull: one pull. A data answer resolves exactly this request and a termination rejects it with `d \|\| true`. The slot ends empty |
| `ToAwaitable.SyncSourceTrace` | test.js:5-62 | with the test's synchronous source, the trace is one greet then four pulls upstream, and resolve 10, 20, 30 then reject with `true` downstream, interleaved pull by pull |
| `Scenarios.ImmediateTermination` | readme.js:64-76 | a source ending with "boom" on the first pull rejects that request and the next one with "boom", and the next `then` still pulls |
| `Scenarios.DataAfterEndKeepsReason` | readme.js:63-73 | on a stream ended with "boom", a `then` whose re-pull is answered with data leaves the reason "boom", and the next `then` rejects with "boom" |
| `Scenarios.RepeatedEmptyTerminationKeepsReason` | test.js:28-31 | on a stream ended with `true`, a `then` whose re-pull is answered by the test's synchronous source with another termination without payload leaves the reason `true`, and the next `then` rejects with `true` |
| `Scenarios.EarlyRequestLost` | readme.js:62-76 | a `then` before the greet sends no pull, and the greet clears it, so it is never settled whatever follows |

## Left out

- JavaScript numbers are modelled as integers. Floating point, `NaN` (falsy) and `-0` are not modelled, and nor is the `x / 4` mapping in the usage example at readme.js:30.
- Function values are not modelled. The control handle is a `Value` like any payload, and truthiness decides whether a pull is sent. Each pair of settle callbacks is a request number, and both callbacks are taken to be present.
- A `then` whose `resolve` or `reject` is missing is not modelled. The sink tests `resolve` (readme.js:63) and `reject` (readme.js:66) separately and silently skips a missing one. The model would still emit the settlement. Only `_reject(reason)` on an ended stream, or a settle argument that is truthy but not a function, would throw.
- A `then` issued synchronously from inside a settle callback is not modelled. The sink calls `resolve` or `reject` (readme.js:63, 66) before it clears the slot (readme.js:68-69), so such a `then` stores its callbacks and pulls, and the clear then wipes them. A later answer settles nothing, where the model, which treats each sink call as one step, would settle the new request. In the same way, a `then` called from inside `_reject` at readme.js:73 is overwritten by the outer call. `await` never calls back in this way.
- A truthy handle that is not a function throws at readme.js:76, where the model records a `Pull`.
- The model assumes that every callback returns normally. If `resolve` or `reject` throws at readme.js:63 or 66, the clear at readme.js:68-69 is skipped and the slot keeps the request; if `_reject` throws at readme.js:73, the store and the pull at readme.js:74-76 are skipped. The resolvers `await` passes never throw.
- What the callbacks do is not modelled. Promise scheduling, the microtask that runs `then` for `await`, and the timer delays of the asynchronous test source are all outside the model. Time is only the order of events.
- The source itself is outside the model: only the signals it delivers are. The `callbag-basics` operators (`fromIter`, `take`, `map`, `pipe`) in the usage example are not part of this model.
- A consumer-initiated termination is not modelled, because the adapter never sends one.
- `Relay.ReasonSticky` and `Relay.LaterThenRejects`: hold for every run in which no termination after the end stores a different reason, because the sink stores every termination's `d || true` (readme.js:65, `Relay.SecondTerminateReplacesReason`). A repeated termination without payload after an end with `true`, as the test suite's source sends, is covered. Unconditionally, the model proves that the reason stays truthy (`Relay.StaysEnded`).
- `Relay.SettledAtMostOnce` and `Relay.SettlementsBounded`: hold only for sources that send no data or termination after ending. A source that answers the pull `then` still sends after the end makes the sink settle the same request again (`Relay.AnsweredRePullSettlesTwice`).
- `ToAwaitable.Awaitable`: the ghost `trace` field records the calls the closure makes. It is not state the closure itself keeps.
