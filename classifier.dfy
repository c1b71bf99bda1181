/** The generic classification result: a list of (label, confidence) pairs
    produced by the on-device image classifier, the lookup of one label's
    confidence, and the `Collection` view of a classification. The classifier
    itself (the Vision request) is outside the model: its output is an input. */
module Classifier {
  import opened Wrappers

  /** One labelled score of the classifier (`label` is a Dafny keyword, so the
      field that holds the label is called `identifier`, as in Vision). */
  datatype Observation = Observation(identifier: string, confidence: real)

  /** A classification, viewed as a collection of its observations, indexed
      from 0 like the array it wraps. */
  datatype Classification = Classification(observations: seq<Observation>)
  {
    function StartIndex(): (r: int)
      ensures r == 0
    {
      0
    }

    function EndIndex(): (r: int)
      ensures r == |observations|
    {
      |observations|
    }

    /** The number of elements a client sees: the distance from the start
        index to the end index. */
    function Count(): (r: nat)
      ensures r == |observations|
    {
      EndIndex() - StartIndex()
    }

    /** The subscript traps on an index outside `startIndex..<endIndex`. */
    function At(position: int): (o: Observation)
      requires StartIndex() <= position < EndIndex()
      ensures o in observations
      ensures o == observations[position]
    {
      observations[position]
    }

    function IndexAfter(i: int): (r: int)
      ensures r > i
      ensures r == i + 1
    {
      i + 1
    }

    /** The elements visited by walking the collection from index `i` with
        `IndexAfter` until the end index, as a `for … in` loop does. */
    function ElementsFrom(i: int): (r: seq<Observation>)
      requires StartIndex() <= i <= EndIndex()
      ensures |r| == EndIndex() - i
      ensures forall o <- r :: o in observations
      decreases EndIndex() - i
    {
      if i == EndIndex() then [] else [At(i)] + ElementsFrom(IndexAfter(i))
    }
  }

  /** Iterating a classification yields exactly its observations, in their
      stored order. */
  lemma {:induction false} IterationYieldsObservations(c: Classification, i: int)
    requires 0 <= i <= |c.observations|
    ensures c.ElementsFrom(i) == c.observations[i..]
    decreases |c.observations| - i
  {
    if i < |c.observations| {
      IterationYieldsObservations(c, i + 1);
      assert c.observations[i..] == [c.observations[i]] + c.observations[i + 1..];
    }
  }

  lemma IterationOfWholeCollection(c: Classification)
    ensures c.ElementsFrom(c.StartIndex()) == c.observations
    ensures |c.ElementsFrom(c.StartIndex())| == c.Count()
  {
    IterationYieldsObservations(c, 0);
  }

  /** Position `k` holds the earliest observation carrying the label. */
  predicate IsFirstWith(observations: seq<Observation>, wanted: string, k: int)
  {
    && 0 <= k < |observations|
    && observations[k].identifier == wanted
    && forall j :: 0 <= j < k ==> observations[j].identifier != wanted
  }

  /** `first(where:)`: the earliest observation carrying the label. */
  function FirstWithLabel(observations: seq<Observation>, wanted: string): (r: Option<Observation>)
    ensures r.None? <==> forall i :: 0 <= i < |observations| ==> observations[i].identifier != wanted
    ensures forall k :: IsFirstWith(observations, wanted, k) ==> r == Some(observations[k])
  {
    if |observations| == 0 then None
    else if observations[0].identifier == wanted then Some(observations[0])
    else FirstWithLabel(observations[1..], wanted)
  }

  /** The confidence of the first observation with the label, or 0 when no
      observation carries it (an empty list included). */
  function Confidence(observations: seq<Observation>, wanted: string): (r: real)
    ensures (forall i :: 0 <= i < |observations| ==> observations[i].identifier != wanted) ==> r == 0.0
    ensures forall k :: IsFirstWith(observations, wanted, k) ==> r == observations[k].confidence
  {
    match FirstWithLabel(observations, wanted)
    case Some(o) => o.confidence
    case None => 0.0
  }
}
