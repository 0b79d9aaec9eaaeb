/** The patch transformer as a whole: the classifier's two filters followed by
    the reconstructor, run over a finite stream of events in arrival order and
    stopped by the first failure. */
module PatchTransformer {
  import opened Wrappers
  import opened Sse
  import opened Classifier
  import opened Reconstruction

  /** What a subscriber observes: the documents emitted, in order, and the
      failure that ended the stream, if one did. */
  datatype Trace = Trace(outputs: seq<Json>, failure: Option<Failure>)

  /** The value `current` holds after emitting `outputs`, starting from
      `start`: the last document emitted, or `start` if none was. */
  function Resume(start: Option<Json>, outputs: seq<Json>): Option<Json> {
    if outputs == [] then start else Some(outputs[|outputs| - 1])
  }

  /** Feeds `events` one at a time to the mapping function whose field holds
      `current`, emitting one document per event, until an event fails. */
  function Reconstruct(apply: Patcher, current: Option<Json>, events: seq<Event>): (r: Trace)
    ensures |r.outputs| <= |events|
    ensures r.failure.None? <==> |r.outputs| == |events|
    decreases |events|
  {
    if events == [] then Trace([], None)
    else
      var (next, out) := Step(apply, current, events[0]);
      match out
      case Fail(f) => Trace([], Some(f))
      case Emit(d) =>
        var rest := Reconstruct(apply, next, events[1..]);
        Trace([d] + rest.outputs, rest.failure)
  }

  /** One subscription to the transformed stream: `current` starts absent and
      only the events that pass both filters reach the mapping function. */
  function Run(apply: Patcher, events: seq<Event>): (r: Trace)
    ensures r.failure.None? <==> |r.outputs| == |Classify(events)|
  {
    Reconstruct(apply, None, Classify(events))
  }

  /** Processing a concatenation is processing the first part and, unless it
      failed, resuming on the second from the last emitted document. So the
      held state is always the last emitted document, outputs keep input
      order, and nothing is processed after a failure. */
  lemma {:induction false} ReconstructAppend(apply: Patcher, current: Option<Json>, a: seq<Event>, b: seq<Event>)
    ensures var A := Reconstruct(apply, current, a);
      Reconstruct(apply, current, a + b) ==
        if A.failure.Some? then A
        else
          var B := Reconstruct(apply, Resume(current, A.outputs), b);
          Trace(A.outputs + B.outputs, B.failure)
    decreases |a|
  {
    if a == [] {
      assert a + b == b;
    } else {
      assert (a + b)[0] == a[0];
      assert (a + b)[1..] == a[1..] + b;
      var (next, out) := Step(apply, current, a[0]);
      if out.Emit? {
        ReconstructAppend(apply, next, a[1..], b);
        var tail := Reconstruct(apply, next, a[1..]);
        if tail.failure.None? {
          assert Resume(next, tail.outputs) == Resume(current, [out.doc] + tail.outputs);
          assert [out.doc] + (tail.outputs + Reconstruct(apply, Resume(next, tail.outputs), b).outputs)
              == ([out.doc] + tail.outputs) + Reconstruct(apply, Resume(next, tail.outputs), b).outputs;
        }
      }
    }
  }

  /** Only events that passed the classifier reach the mapping function, so
      the stream never ends on an absent field, an unknown type or a null
      document: only on a server error or a failed patch. */
  lemma {:induction false} ReconstructEligibleExpected(apply: Patcher, current: Option<Json>, events: seq<Event>)
    requires forall e :: e in events ==> Eligible(e)
    ensures var r := Reconstruct(apply, current, events);
      r.failure.Some? ==> Expected(r.failure.value)
    decreases |events|
  {
    if events != [] {
      EligibleStepExpected(apply, current, events[0]);
      var (next, out) := Step(apply, current, events[0]);
      if out.Emit? {
        assert forall e :: e in events[1..] ==> e in events;
        ReconstructEligibleExpected(apply, next, events[1..]);
      }
    }
  }

  /** The "Unknown type" default branch, the absent-field accesses and the
      null return are unreachable in a subscription: every failure is either
      a server-reported error or a failed patch. */
  lemma RunFailsOnlyAsExpected(apply: Patcher, events: seq<Event>)
    ensures Run(apply, events).failure.Some? ==> Expected(Run(apply, events).failure.value)
  {
    ReconstructEligibleExpected(apply, None, Classify(events));
  }

  /** An event without data payload, or with an absent or unrecognized type,
      changes nothing: no output, no failure, no effect on later events. */
  lemma RunIgnoresIneligible(apply: Patcher, pre: seq<Event>, e: Event, post: seq<Event>)
    requires !Eligible(e)
    ensures Run(apply, pre + [e] + post) == Run(apply, pre + post)
  {
    ClassifySplit(pre, e, post);
    ClassifyAppend(pre, post);
  }

  /** The outputs for a stream are a prefix of the outputs for any extension
      of it, and once a stream has failed, later events are never processed. */
  lemma RunExtends(apply: Patcher, pre: seq<Event>, post: seq<Event>)
    ensures Run(apply, pre).outputs <= Run(apply, pre + post).outputs
    ensures Run(apply, pre).failure.Some? ==> Run(apply, pre + post) == Run(apply, pre)
  {
    ClassifyAppend(pre, post);
    ReconstructAppend(apply, None, Classify(pre), Classify(post));
  }

  /** The state a subscription holds after `pre`: the last emitted document,
      or absent if nothing was emitted yet. */
  function Held(apply: Patcher, pre: seq<Event>): Option<Json> {
    Resume(None, Run(apply, pre).outputs)
  }

  /** Appending one eligible event to a stream that has not failed processes
      exactly that event against the held state: its document is appended to
      the outputs, or its failure ends the stream. */
  lemma RunAppendEvent(apply: Patcher, pre: seq<Event>, e: Event)
    requires Eligible(e)
    requires Run(apply, pre).failure.None?
    ensures Run(apply, pre + [e]) ==
      match Step(apply, Held(apply, pre), e).1
      case Emit(d) => Trace(Run(apply, pre).outputs + [d], None)
      case Fail(f) => Trace(Run(apply, pre).outputs, Some(f))
  {
    ClassifyAppend(pre, [e]);
    ClassifySingle(e);
    ReconstructAppend(apply, None, Classify(pre), [e]);
    assert [e][1..] == [];
  }

  /** A "data" event emits its own payload, whatever came before. */
  lemma RunData(apply: Patcher, pre: seq<Event>, d: Json)
    requires Run(apply, pre).failure.None?
    ensures Run(apply, pre + [Event(Some(DataType), Some(d))]) == Trace(Run(apply, pre).outputs + [d], None)
  {
    RunAppendEvent(apply, pre, Event(Some(DataType), Some(d)));
  }

  /** A "patch" event is applied to the last emitted document (absent before
      any), and emits exactly the result, or fails the stream. */
  lemma RunPatch(apply: Patcher, pre: seq<Event>, p: Json)
    requires Run(apply, pre).failure.None?
    ensures Run(apply, pre + [Event(Some(PatchType), Some(p))]) ==
      match apply(p, Held(apply, pre))
      case Ok(d) => Trace(Run(apply, pre).outputs + [d], None)
      case Err(m) => Trace(Run(apply, pre).outputs, Some(PatchFailed(m)))
  {
    RunAppendEvent(apply, pre, Event(Some(PatchType), Some(p)));
  }

  /** An "error" event fails the stream with its payload as the detail, after
      the documents already emitted, and nothing is emitted after it. */
  lemma RunErrorTerminates(apply: Patcher, pre: seq<Event>, d: Json, post: seq<Event>)
    requires Run(apply, pre).failure.None?
    ensures Run(apply, pre + [Event(Some(ErrorType), Some(d))] + post) ==
      Trace(Run(apply, pre).outputs, Some(ServerError(d)))
  {
    var e := Event(Some(ErrorType), Some(d));
    RunAppendEvent(apply, pre, e);
    RunExtends(apply, pre + [e], post);
  }

  /** A patch arriving before any "data" event is applied to an absent base,
      and what the patch function yields for it is the outcome. */
  lemma RunPatchFirst(apply: Patcher, p: Json)
    ensures Run(apply, [Event(Some(PatchType), Some(p))]) ==
      match apply(p, None)
      case Ok(d) => Trace([d], None)
      case Err(m) => Trace([], Some(PatchFailed(m)))
  {
  }

  /** Whether every event is a "data" event with a payload. */
  predicate AllData(events: seq<Event>) {
    forall i :: 0 <= i < |events| ==> events[i].eventType == Some(DataType) && events[i].data.Some?
  }

  /** For a stream of "data" events only, the n-th output is the n-th payload
      and nothing fails: no interaction with the held state. */
  lemma {:induction false} ReconstructDataOnly(apply: Patcher, current: Option<Json>, events: seq<Event>)
    requires AllData(events)
    ensures var r := Reconstruct(apply, current, events);
      r.failure.None? && |r.outputs| == |events| &&
      forall i :: 0 <= i < |events| ==> r.outputs[i] == events[i].data.value
    decreases |events|
  {
    if events != [] {
      var d := events[0].data.value;
      assert Step(apply, current, events[0]) == (Some(d), Emit(d));
      ReconstructDataOnly(apply, Some(d), events[1..]);
      var rest := Reconstruct(apply, Some(d), events[1..]);
      var r := Reconstruct(apply, current, events);
      assert r.outputs == [d] + rest.outputs;
      forall i | 0 < i < |events| ensures r.outputs[i] == events[i].data.value {
        assert r.outputs[i] == rest.outputs[i - 1];
        assert events[1..][i - 1] == events[i];
      }
    }
  }

  /** Whole-stream form of the above. */
  lemma RunDataOnly(apply: Patcher, events: seq<Event>)
    requires AllData(events)
    ensures Run(apply, events).failure.None?
    ensures |Run(apply, events).outputs| == |events|
    ensures forall i :: 0 <= i < |events| ==> Run(apply, events).outputs[i] == events[i].data.value
  {
    assert forall e :: e in events ==> Eligible(e);
    ClassifyKeepsEligible(events);
    FilterKeepsAll(Eligible, events);
    ReconstructDataOnly(apply, None, events);
  }

  /** At any point of a stream that has not failed, a snapshot followed by a
      patch that is the identity on it emits the snapshot twice. */
  lemma IdentityPatch(apply: Patcher, pre: seq<Event>, d: Json, p: Json)
    requires Run(apply, pre).failure.None?
    requires apply(p, Some(d)) == Ok(d)
    ensures Run(apply, pre + [Event(Some(DataType), Some(d)), Event(Some(PatchType), Some(p))]) ==
      Trace(Run(apply, pre).outputs + [d, d], None)
  {
    var data := Event(Some(DataType), Some(d));
    var patch := Event(Some(PatchType), Some(p));
    RunData(apply, pre, d);
    RunPatch(apply, pre + [data], p);
    assert pre + [data] + [patch] == pre + [data, patch];
    assert Run(apply, pre).outputs + [d] + [d] == Run(apply, pre).outputs + [d, d];
  }

  /** At any point of a stream that has not failed, a patch followed by its
      inverse restores the document held before them, whichever event
      produced it. */
  lemma InversePatches(apply: Patcher, pre: seq<Event>, d: Json, d2: Json, p: Json, q: Json)
    requires Run(apply, pre).failure.None? && Held(apply, pre) == Some(d)
    requires apply(p, Some(d)) == Ok(d2) && apply(q, Some(d2)) == Ok(d)
    ensures Run(apply, pre + [Event(Some(PatchType), Some(p)), Event(Some(PatchType), Some(q))]) ==
      Trace(Run(apply, pre).outputs + [d2, d], None)
  {
    var fwd := Event(Some(PatchType), Some(p));
    var back := Event(Some(PatchType), Some(q));
    RunPatch(apply, pre, p);
    RunPatch(apply, pre + [fwd], q);
    assert pre + [fwd] + [back] == pre + [fwd, back];
    assert Run(apply, pre).outputs + [d2] + [d] == Run(apply, pre).outputs + [d2, d];
  }

  /** A price document `{"price": n}`. */
  function Price(n: int): Json {
    JObj([("price", JNum(n))])
  }

  /** Snapshot, then a patch that replaces the price, then a new snapshot:
      the patched document sits between the two snapshots. */
  lemma PriceScenario(apply: Patcher, p: Json)
    requires apply(p, Some(Price(10))) == Ok(Price(12))
    ensures Run(apply, [Event(Some(DataType), Some(Price(10))), Event(Some(PatchType), Some(p)),
                        Event(Some(DataType), Some(Price(99)))]) == Trace([Price(10), Price(12), Price(99)], None)
  {
    var first := Event(Some(DataType), Some(Price(10)));
    var patch := Event(Some(PatchType), Some(p));
    RunData(apply, [], Price(10));
    RunPatch(apply, [first], p);
    assert [first] + [patch] == [first, patch];
    RunData(apply, [first, patch], Price(99));
    assert [first, patch] + [Event(Some(DataType), Some(Price(99)))] ==
      [first, patch, Event(Some(DataType), Some(Price(99)))];
  }

  /** A snapshot followed by a server error: the snapshot is emitted, then
      the stream fails with the error's payload. */
  lemma ErrorScenario(apply: Patcher)
    ensures Run(apply, [Event(Some(DataType), Some(JObj([("a", JNum(1))]))),
                        Event(Some(ErrorType), Some(JStr("upstream failure")))]) ==
      Trace([JObj([("a", JNum(1))])], Some(ServerError(JStr("upstream failure"))))
  {
    var first := Event(Some(DataType), Some(JObj([("a", JNum(1))])));
    RunData(apply, [], JObj([("a", JNum(1))]));
    RunErrorTerminates(apply, [first], JStr("upstream failure"), []);
    assert [first] + [Event(Some(ErrorType), Some(JStr("upstream failure")))] + [] ==
      [first, Event(Some(ErrorType), Some(JStr("upstream failure")))];
  }

  /** Unfolds the fold by one event: the first event is stepped from
      `current`, and the rest resumes from the state it leaves unless it failed. */
  lemma ReconstructCons(apply: Patcher, current: Option<Json>, e: Event, rest: seq<Event>)
    ensures Reconstruct(apply, current, [e] + rest) ==
      match Step(apply, current, e).1
      case Fail(f) => Trace([], Some(f))
      case Emit(d) =>
        var tail := Reconstruct(apply, Step(apply, current, e).0, rest);
        Trace([d] + tail.outputs, tail.failure)
  {
    assert ([e] + rest)[0] == e && ([e] + rest)[1..] == rest;
  }

  /** What a subscription reports when it has emitted `outputs` so far, its
      mapping function holds `current`, and `rest` is still to arrive. */
  function Pending(apply: Patcher, current: Option<Json>, outputs: seq<Json>, rest: seq<Event>): Trace {
    var tail := Reconstruct(apply, current, Classify(rest));
    Trace(outputs + tail.outputs, tail.failure)
  }

  /** Delivering an ineligible event changes nothing. */
  lemma PendingSkip(apply: Patcher, current: Option<Json>, outputs: seq<Json>, e: Event, rest: seq<Event>)
    requires !Eligible(e)
    ensures Pending(apply, current, outputs, [e] + rest) == Pending(apply, current, outputs, rest)
  {
    ClassifyCons(e, rest);
  }

  /** Delivering an eligible event that the mapping function turns into a
      document appends it and resumes from it. */
  lemma PendingEmit(apply: Patcher, current: Option<Json>, outputs: seq<Json>, e: Event, d: Json, rest: seq<Event>)
    requires Eligible(e) && Step(apply, current, e).1 == Emit(d)
    ensures Pending(apply, current, outputs, [e] + rest) == Pending(apply, Some(d), outputs + [d], rest)
  {
    ClassifyCons(e, rest);
    var later := Classify(rest);
    ReconstructCons(apply, current, e, later);
    var tail := Reconstruct(apply, Some(d), later);
    assert Reconstruct(apply, current, [e] + later) == Trace([d] + tail.outputs, tail.failure);
    assert outputs + ([d] + tail.outputs) == outputs + [d] + tail.outputs;
  }

  /** Delivering an eligible event that fails ends the stream with that
      failure after the documents already emitted. */
  lemma PendingFail(apply: Patcher, current: Option<Json>, outputs: seq<Json>, e: Event, f: Failure, rest: seq<Event>)
    requires Eligible(e) && Step(apply, current, e).1 == Fail(f)
    ensures Pending(apply, current, outputs, [e] + rest) == Trace(outputs, Some(f))
  {
    ClassifyCons(e, rest);
    ReconstructCons(apply, current, e, Classify(rest));
  }

  /** The subscription, driven one event at a time as the stream delivers
      them: each event goes through both filters and, if it passes, through
      one mapping-function object whose field persists across events; the
      first failure ends the stream. */
  method Transform(apply: Patcher, events: seq<Event>) returns (outputs: seq<Json>, failure: Option<Failure>)
    ensures Trace(outputs, failure) == Run(apply, events)
  {
    var mapper := new Reconstructor(apply);
    outputs, failure := [], None;
    var i := 0;
    assert events[0..] == events;
    while i < |events| && failure.None?
      invariant 0 <= i <= |events|
      invariant mapper.apply == apply
      invariant failure.None? ==> Run(apply, events) == Pending(apply, mapper.current, outputs, events[i..])
      invariant failure.Some? ==> Run(apply, events) == Trace(outputs, failure)
    {
      var e := events[i];
      assert events[i..] == [e] + events[i + 1..];
      if HasData(e) && HasKnownType(e) {
        ghost var before := mapper.current;
        var out := mapper.Apply(e);
        match out
        case Emit(d) =>
          PendingEmit(apply, before, outputs, e, d, events[i + 1..]);
          outputs := outputs + [d];
        case Fail(f) =>
          PendingFail(apply, before, outputs, e, f, events[i + 1..]);
          failure := Some(f);
      } else {
        PendingSkip(apply, mapper.current, outputs, e, events[i + 1..]);
      }
      i := i + 1;
    }
  }
}
