/** The state reconstructor: the stateful mapping function of the patch
    transformer. It holds one field, `current`, the latest reconstructed
    document, and turns each event it receives into the next document or into
    a failure that ends the stream. */
module Reconstruction {
  import opened Wrappers
  import opened Sse
  import opened Classifier

  /** Applies a JSON Patch (the first argument, an array of RFC 6902
      operations) to a base document that may be absent, yielding the patched
      document or the reason the patch could not be applied. */
  type Patcher = (Json, Option<Json>) -> Result<Json, string>

  /** The exceptions that end the stream. */
  datatype Failure =
    | MissingValue              // `Optional.get()` on an absent event type or data payload
    | UnknownType(tag: string)  // an event type outside the three recognized ones
    | ServerError(detail: Json) // an "error" event, with its payload as the detail
    | PatchFailed(reason: string) // the patch could not be applied to `current`
    | NullResult                // the mapping function returned a null document

  /** What one call of the mapping function produces. */
  datatype Outcome = Emit(doc: Json) | Fail(failure: Failure)

  /** One transition of the mapping function, on any event (filtered or not):
      the next value of `current` and the outcome. A failure leaves `current`
      unchanged, and an emitted document is always the new `current`. */
  function Step(apply: Patcher, current: Option<Json>, e: Event): (r: (Option<Json>, Outcome))
    ensures r.1.Fail? ==> r.0 == current
    ensures r.1.Emit? ==> r.0 == Some(r.1.doc)
  {
    match e.eventType
    case None => (current, Fail(MissingValue))
    case Some(t) =>
      if t == DataType then
        match e.data
        case None => (current, Fail(MissingValue))
        case Some(d) => (Some(d), Emit(d))
      else if t == PatchType then
        match e.data
        case None => (current, Fail(MissingValue))
        case Some(p) =>
          match apply(p, current)
          case Ok(d) => (Some(d), Emit(d))
          case Err(m) => (current, Fail(PatchFailed(m)))
      else if t == ErrorType then
        match e.data
        case Some(d) => (current, Fail(ServerError(d)))
        case None =>
          // the error branch falls through to `return current`
          match current
          case Some(c) => (current, Emit(c))
          case None => (current, Fail(NullResult))
      else
        (current, Fail(UnknownType(t)))
  }

  /** The anonymous mapping function object with its one mutable field. */
  class Reconstructor {
    const apply: Patcher
    var current: Option<Json>

    /** A fresh mapping function: `current` starts absent (null). */
    constructor (apply: Patcher)
      ensures this.apply == apply && current == None
    {
      this.apply := apply;
      current := None;
    }

    /** Handles one event: updates `current` as the transition table says
        and returns the new `current`, or fails. */
    method Apply(e: Event) returns (out: Outcome)
      modifies this
      ensures (current, out) == Step(apply, old(current), e)
      ensures out.Fail? ==> current == old(current)
      ensures out.Emit? ==> current == Some(out.doc)
    {
      if e.eventType.None? {
        return Fail(MissingValue);
      }
      var t := e.eventType.value;
      if t == DataType {
        if e.data.None? {
          return Fail(MissingValue);
        }
        current := e.data;
      } else if t == PatchType {
        if e.data.None? {
          return Fail(MissingValue);
        }
        var patched := apply(e.data.value, current);
        if patched.Err? {
          return Fail(PatchFailed(patched.error));
        }
        current := Some(patched.value);
      } else if t == ErrorType {
        if e.data.Some? {
          return Fail(ServerError(e.data.value));
        }
      } else {
        return Fail(UnknownType(t));
      }
      if current.None? {
        return Fail(NullResult);
      }
      out := Emit(current.value);
    }
  }

  /** The failures an event that passed the classifier can cause. */
  predicate Expected(f: Failure) {
    f.ServerError? || f.PatchFailed?
  }

  /** After classification the defensive branches are dead: an eligible event
      never hits an absent type or payload, never reaches the "Unknown type"
      default, and never makes the mapper return null. */
  lemma EligibleStepExpected(apply: Patcher, current: Option<Json>, e: Event)
    requires Eligible(e)
    ensures Step(apply, current, e).1.Fail? ==> Expected(Step(apply, current, e).1.failure)
  {
  }

  /** A "data" event replaces `current` by its payload, whatever it was, and
      emits that payload. */
  lemma DataReplaces(apply: Patcher, current: Option<Json>, d: Json)
    ensures Step(apply, current, Event(Some(DataType), Some(d))) == (Some(d), Emit(d))
  {
  }

  /** A "patch" event applies its payload to `current` (absent included): on
      success the result becomes `current` and is emitted; on failure the
      stream fails and `current` is kept. */
  lemma PatchApplies(apply: Patcher, current: Option<Json>, p: Json)
    ensures Step(apply, current, Event(Some(PatchType), Some(p))) ==
      match apply(p, current)
      case Ok(d) => (Some(d), Emit(d))
      case Err(m) => (current, Fail(PatchFailed(m)))
  {
  }

  /** An "error" event with a payload always fails with that payload as the
      detail and leaves `current` unchanged. */
  lemma ErrorFails(apply: Patcher, current: Option<Json>, d: Json)
    ensures Step(apply, current, Event(Some(ErrorType), Some(d))) == (current, Fail(ServerError(d)))
  {
  }
}
