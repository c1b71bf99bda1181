/** The skin classifier's view of a classification: the two scores of the
    binary skin model, which of them dominates, and how a classifier result
    becomes the single score that drives smart capture. */
module SkinClassifier {
  import opened Wrappers
  import opened Classifier

  datatype ObservationName = Skin | NonSkin

  /** The tuple `(name:, confidence:)` of the source. */
  datatype SkinObservation = SkinObservation(name: ObservationName, confidence: real)

  const SkinLabel: string := "1"
  const NonSkinLabel: string := "0"

  datatype SkinType = SkinType(skin: real, nonSkin: real)
  {
    /** The score this skin type holds for a name. */
    function ScoreOf(name: ObservationName): real
    {
      match name
      case Skin => skin
      case NonSkin => nonSkin
    }

    /** Both scores, skin first; each observation carries the score of its name. */
    function Observations(): (r: seq<SkinObservation>)
      ensures |r| == 2 && r[0].name == Skin && r[1].name == NonSkin
      ensures forall o <- r :: o.confidence == ScoreOf(o.name)
    {
      [SkinObservation(Skin, skin), SkinObservation(NonSkin, nonSkin)]
    }

    /** The observation with the highest score; a tie goes to skin. */
    function Dominant(): (r: SkinObservation)
      ensures r.confidence == ScoreOf(r.name)
      ensures r.confidence >= skin && r.confidence >= nonSkin
    {
      var obs := Observations();
      assert obs[0] in obs && obs[1] in obs;
      Reduce(SkinObservation(Skin, skin), obs)
    }
  }

  /** `reduce` with `next.confidence > current.confidence ? next : current`:
      an observation with the highest confidence, and the starting one unless
      some observation beats it strictly. */
  function Reduce(current: SkinObservation, rest: seq<SkinObservation>): (r: SkinObservation)
    ensures r == current || r in rest
    ensures r.confidence >= current.confidence
    ensures forall o <- rest :: r.confidence >= o.confidence
    ensures r != current ==> r.confidence > current.confidence
    decreases |rest|
  {
    if rest == [] then current
    else
      var next := rest[0];
      Reduce(if next.confidence > current.confidence then next else current, rest[1..])
  }

  function Max(a: real, b: real): real
  {
    if a >= b then a else b
  }

  /** The dominant observation holds the larger of the two scores. */
  lemma DominantIsMaximum(t: SkinType)
    ensures t.Dominant().confidence == Max(t.skin, t.nonSkin)
    ensures t.Dominant() == SkinObservation(t.Dominant().name, t.ScoreOf(t.Dominant().name))
  {
    var obs := t.Observations();
    assert obs[0] in obs && obs[1] in obs;
  }

  /** Ties go to skin: the non-skin observation dominates exactly when its
      score is strictly higher. */
  lemma DominantTieGoesToSkin(t: SkinType)
    ensures t.Dominant().name == NonSkin <==> t.nonSkin > t.skin
  {
    var obs := t.Observations();
    assert obs[0] in obs && obs[1] in obs;
  }

  /** Turns a classification into a skin type: the skin score is the
      confidence of label "1", the non-skin score that of label "0", each 0
      when its label is missing. */
  function SkinTypeOf(observations: seq<Observation>): (t: SkinType)
    ensures (forall i :: 0 <= i < |observations| ==> observations[i].identifier != SkinLabel) ==> t.skin == 0.0
    ensures (forall i :: 0 <= i < |observations| ==> observations[i].identifier != NonSkinLabel) ==> t.nonSkin == 0.0
    ensures forall k :: IsFirstWith(observations, SkinLabel, k) ==> t.skin == observations[k].confidence
    ensures forall k :: IsFirstWith(observations, NonSkinLabel, k) ==> t.nonSkin == observations[k].confidence
  {
    SkinType(Confidence(observations, SkinLabel), Confidence(observations, NonSkinLabel))
  }

  /** `classify(image:handler:)`: the classifier's result mapped to a skin
      type; a classifier failure is passed on. */
  function Classify<E>(result: Result<Classification, E>): (r: Result<SkinType, E>)
    ensures r.Failure? <==> result.Failure?
    ensures result.Failure? ==> r.error == result.error
    ensures result.Success? ==> r.value == SkinTypeOf(result.value.observations)
  {
    match result
    case Success(c) => Success(SkinTypeOf(c.observations))
    case Failure(e) => Failure(e)
  }

  /** A score that is a whole number of hundredths. */
  predicate IsWholeHundredths(x: real)
  {
    (x * 100.0).Floor as real == x * 100.0
  }

  /** `(x * 100).rounded() / 100`: the nearest whole number of hundredths,
      a half going away from zero, as `rounded()` does by default. */
  function RoundedToHundredths(x: real): (r: real)
    ensures IsWholeHundredths(r)
    ensures x >= 0.0 ==> x - 0.005 < r <= x + 0.005
    ensures x < 0.0 ==> x - 0.005 <= r < x + 0.005
  {
    var y := x * 100.0;
    var k := if y >= 0.0 then (y + 0.5).Floor else -((0.5 - y).Floor);
    k as real / 100.0
  }

  /** `getSkin(image:handler:)`: the skin score of a classified skin type,
      rounded to hundredths. */
  function GetSkin<E>(result: Result<SkinType, E>): (r: Result<real, E>)
    ensures r.Failure? <==> result.Failure?
    ensures result.Failure? ==> r.error == result.error
    ensures result.Success? ==> r.value == RoundedToHundredths(result.value.skin)
    ensures result.Success? ==> IsWholeHundredths(r.value)
  {
    match result
    case Success(t) => Success(RoundedToHundredths(t.skin))
    case Failure(e) => Failure(e)
  }

  /** The Float-valued reactive `skinType(image:)`: a failure becomes the
      score 0, so the stream of scores never fails. */
  function SkinScore<E>(result: Result<real, E>): (score: real)
    ensures result.Failure? ==> score == 0.0
    ensures result.Success? ==> score == result.value
  {
    match result
    case Success(v) => v
    case Failure(_) => 0.0
  }

  /** End to end, the score that reaches smart capture is the confidence of
      label "1" rounded to hundredths, and 0 when the classifier fails; either
      way a whole number of hundredths. The `SkinType`-valued reactive variant
      emits `Classify` itself and so keeps the failure. */
  lemma ScoreOfClassification<E>(result: Result<Classification, E>)
    ensures SkinScore(GetSkin(Classify(result))) ==
              if result.Success? then RoundedToHundredths(Confidence(result.value.observations, SkinLabel)) else 0.0
    ensures IsWholeHundredths(SkinScore(GetSkin(Classify(result))))
    ensures result.Failure? ==> Classify(result) == Failure(result.error)
  {
  }
}
