/** The event classifier: the two `filter` stages in front of the state
    reconstructor, which silently drop every event that lacks a data payload
    or whose type is absent or not one of "data", "patch", "error". */
module Classifier {
  import opened Wrappers
  import opened Sse

  /** First filter: the event carries a data payload. */
  predicate HasData(e: Event): (r: bool)
    ensures r <==> e.data != None
  {
    e.data.Some?
  }

  /** Second filter: the event type is present and is exactly one of the three
      recognized types; an absent type counts as not recognized. */
  predicate HasKnownType(e: Event): (r: bool)
    ensures r <==> e.eventType == Some(DataType) || e.eventType == Some(PatchType) || e.eventType == Some(ErrorType)
  {
    match e.eventType
    case None => false
    case Some(t) => t == DataType || t == PatchType || t == ErrorType
  }

  /** An event that passes both filters and so reaches the reconstructor. */
  predicate Eligible(e: Event): (r: bool)
    ensures r <==> e.data.Some? && e.eventType.Some? && e.eventType.value in {DataType, PatchType, ErrorType}
  {
    HasData(e) && HasKnownType(e)
  }

  /** Keeps, in order, the events of `s` that satisfy `keep`. */
  function Filter(keep: Event -> bool, s: seq<Event>): (r: seq<Event>)
    ensures |r| <= |s|
    ensures forall e :: e in r <==> e in s && keep(e)
  {
    if s == [] then []
    else (if keep(s[0]) then [s[0]] else []) + Filter(keep, s[1..])
  }

  /** Filtering distributes over concatenation: a stream is filtered one event
      at a time, independently of what came before or after. */
  lemma {:induction false} FilterAppend(keep: Event -> bool, a: seq<Event>, b: seq<Event>)
    ensures Filter(keep, a + b) == Filter(keep, a) + Filter(keep, b)
  {
    if a == [] {
      assert a + b == b;
    } else {
      assert (a + b)[1..] == a[1..] + b;
      FilterAppend(keep, a[1..], b);
    }
  }

  /** Filtering a sequence all of whose elements pass keeps it whole. */
  lemma {:induction false} FilterKeepsAll(keep: Event -> bool, s: seq<Event>)
    requires forall e :: e in s ==> keep(e)
    ensures Filter(keep, s) == s
  {
    if s != [] {
      assert forall e :: e in s[1..] ==> e in s;
      FilterKeepsAll(keep, s[1..]);
    }
  }

  /** The two filter stages applied in sequence, data presence first. */
  function Classify(s: seq<Event>): (r: seq<Event>)
    ensures |r| <= |s|
    ensures forall e :: e in r <==> e in s && Eligible(e)
  {
    Filter(HasKnownType, Filter(HasData, s))
  }

  /** The two filters in sequence keep exactly the eligible events, in order:
      the same as one filter on the conjunction of both conditions. */
  lemma {:induction false} ClassifyKeepsEligible(s: seq<Event>)
    ensures Classify(s) == Filter(Eligible, s)
  {
    if s != [] {
      ClassifyKeepsEligible(s[1..]);
      var head := [s[0]];
      assert s == head + s[1..];
      FilterAppend(HasData, head, s[1..]);
      FilterAppend(HasKnownType, Filter(HasData, head), Filter(HasData, s[1..]));
    }
  }

  /** An ineligible event (no data payload, or an absent or unrecognized type)
      is dropped wherever it occurs; an eligible one is forwarded in place. */
  lemma ClassifySplit(pre: seq<Event>, e: Event, post: seq<Event>)
    ensures !Eligible(e) ==> Classify(pre + [e] + post) == Classify(pre) + Classify(post)
    ensures Eligible(e) ==> Classify(pre + [e] + post) == Classify(pre) + [e] + Classify(post)
  {
    var front, single, back := Classify(pre), Classify([e]), Classify(post);
    ClassifyAppend(pre + [e], post);
    ClassifyAppend(pre, [e]);
    ClassifySingle(e);
    assert Classify(pre + [e] + post) == front + single + back;
    if Eligible(e) {
      assert single == [e];
    } else {
      assert single == [];
      assert front + single == front;
    }
  }

  /** The first event of a stream is forwarded ahead of the rest exactly
      when it is eligible. */
  lemma ClassifyCons(e: Event, rest: seq<Event>)
    ensures Classify([e] + rest) == if Eligible(e) then [e] + Classify(rest) else Classify(rest)
  {
    ClassifyAppend([e], rest);
    ClassifySingle(e);
    if !Eligible(e) {
      assert [] + Classify(rest) == Classify(rest);
    }
  }

  /** A lone event is forwarded exactly when it is eligible. */
  lemma ClassifySingle(e: Event)
    ensures Classify([e]) == if Eligible(e) then [e] else []
  {
  }

  /** Classification distributes over concatenation. */
  lemma ClassifyAppend(a: seq<Event>, b: seq<Event>)
    ensures Classify(a + b) == Classify(a) + Classify(b)
  {
    FilterAppend(HasData, a, b);
    FilterAppend(HasKnownType, Filter(HasData, a), Filter(HasData, b));
  }
}
