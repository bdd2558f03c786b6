/**
 * The plant-detection rule of `is_plant_image`.  The ImageNet classifier's
 * top-ranked predictions are an input; the rule scans them for plant keywords.
 * The rule is stated for any keyword list and used with `PlantKeywords`.
 */
module PlantCheck {
  import opened Common
  import opened Text

  /** One entry of the ranked ImageNet predictions: class id, label, probability. */
  datatype Prediction = Prediction(classId: string, className: string, prob: real)

  /** `(is_plant, top_class, prob)` as returned by `is_plant_image`. */
  datatype Verdict = Verdict(isPlant: bool, topClass: string, prob: real)

  /** The message of the `IndexError` raised by `decoded[0]` on an empty list. */
  const IndexErrorMessage: string := "list index out of range"

  /** A match above this probability is accepted at once. */
  const StrongThreshold: real := 0.1

  /** The best match is still accepted above this probability. */
  const WeakThreshold: real := 0.05

  const PlantKeywords: seq<string> := [
    "leaf", "plant", "vegetable", "fruit", "flower", "tree", "vine",
    "corn", "grape", "orange", "strawberry", "mushroom", "broccoli",
    "cauliflower", "cucumber", "pepper", "squash", "pomegranate",
    "cabbage", "artichoke", "cardoon", "bell_pepper", "zucchini",
    "acorn", "ear", "lemon", "pineapple", "banana", "apple",
    "cherry", "tomato", "potato", "head_cabbage", "butternut_squash",
    "spaghetti_squash", "cucumber", "green", "botanical"
  ]

  /** `name.lower().replace('_', ' ')`. */
  function Normalise(name: string): (s: string)
    ensures '_' !in s
    ensures |s| == |name|
  {
    assert "_" == ['_'] && " " == [' '];
    ReplaceCharPointwise(Lower(name), '_', ' ');
    ReplaceAll(Lower(name), "_", " ")
  }

  /** One of the first `n` keywords occurs in `s`. */
  predicate KeywordHit(s: string, keywords: seq<string>, n: nat)
    requires n <= |keywords|
  {
    n > 0 && (KeywordHit(s, keywords, n - 1) || Contains(s, keywords[n - 1]))
  }

  /** Some keyword occurs in the normalised label. */
  predicate Matches(name: string, keywords: seq<string>) {
    KeywordHit(Normalise(name), keywords, |keywords|)
  }

  /** `KeywordHit` is the existential it abbreviates. */
  lemma {:induction false} KeywordHitIff(s: string, keywords: seq<string>, n: nat)
    requires n <= |keywords|
    ensures KeywordHit(s, keywords, n) <==> exists u :: 0 <= u < n && Contains(s, keywords[u])
  {
    if n > 0 {
      KeywordHitIff(s, keywords, n - 1);
    }
  }

  /** A hit among fewer keywords is a hit among more. */
  lemma {:induction false} KeywordHitMonotone(s: string, keywords: seq<string>, m: nat, n: nat)
    requires m <= n <= |keywords| && KeywordHit(s, keywords, m)
    ensures KeywordHit(s, keywords, n)
    decreases n
  {
    if m < n {
      KeywordHitMonotone(s, keywords, m, n - 1);
    }
  }

  /** A plant-related prediction strong enough to end the scan. */
  predicate Strong(p: Prediction, keywords: seq<string>) {
    Matches(p.className, keywords) && p.prob > StrongThreshold
  }

  /** The position of the first strong prediction, if any. */
  function FirstStrong(ps: seq<Prediction>, keywords: seq<string>): (r: Option<nat>)
    ensures r.Some? ==> r.value < |ps| && Strong(ps[r.value], keywords)
    ensures r.Some? ==> forall j :: 0 <= j < r.value ==> !Strong(ps[j], keywords)
    ensures r.None? ==> forall j :: 0 <= j < |ps| ==> !Strong(ps[j], keywords)
    decreases |ps|
  {
    if |ps| == 0 then None
    else if Strong(ps[0], keywords) then Some(0)
    else match FirstStrong(ps[1..], keywords)
      case None => None
      case Some(i) => Some(i + 1)
  }

  /**
   * The position `best_match` ends at after scanning `ps`: a plant-related
   * prediction replaces it when its probability beats the running maximum,
   * which starts at 0.
   */
  function BestMatch(ps: seq<Prediction>, keywords: seq<string>): (r: Option<nat>)
    ensures r.Some? ==> r.value < |ps|
    decreases |ps|
  {
    if |ps| == 0 then None
    else
      var init := ps[..|ps| - 1];
      var last := ps[|ps| - 1];
      var k := BestMatch(init, keywords);
      var maxSoFar := if k.Some? then init[k.value].prob else 0.0;
      if Matches(last.className, keywords) && last.prob > maxSoFar then Some(|ps| - 1) else k
  }

  /**
   * The running maximum finds the plant-related prediction with the strictly
   * greatest positive probability, the first one on ties.
   */
  lemma {:induction false} BestMatchIsBest(ps: seq<Prediction>, keywords: seq<string>)
    ensures var r := BestMatch(ps, keywords);
      r.Some? ==> Matches(ps[r.value].className, keywords) && ps[r.value].prob > 0.0
    ensures var r := BestMatch(ps, keywords);
      r.Some? ==> forall j :: 0 <= j < |ps| && Matches(ps[j].className, keywords) ==> ps[j].prob <= ps[r.value].prob
    ensures var r := BestMatch(ps, keywords);
      r.Some? ==> forall j :: 0 <= j < r.value && Matches(ps[j].className, keywords) ==> ps[j].prob < ps[r.value].prob
    ensures BestMatch(ps, keywords).None? ==>
      forall j :: 0 <= j < |ps| && Matches(ps[j].className, keywords) ==> ps[j].prob <= 0.0
    decreases |ps|
  {
    if |ps| > 0 {
      var init := ps[..|ps| - 1];
      BestMatchIsBest(init, keywords);
      assert forall j :: 0 <= j < |init| ==> init[j] == ps[j];
    }
  }

  /** `max_plant_confidence` after scanning `ps`. */
  function MaxOf(ps: seq<Prediction>, keywords: seq<string>): real {
    match BestMatch(ps, keywords)
    case None => 0.0
    case Some(k) => ps[k].prob
  }

  /** `best_match` after scanning `ps`, starting from `first`. */
  function BestOf(ps: seq<Prediction>, first: Prediction, keywords: seq<string>): Prediction {
    match BestMatch(ps, keywords)
    case None => first
    case Some(k) => ps[k]
  }

  /** What `is_plant_image` returns for the ranked predictions `decoded`. */
  function Detect(decoded: seq<Prediction>, keywords: seq<string>): (r: Result<Verdict>)
    ensures r.Err? <==> |decoded| == 0
    ensures r.Ok? && r.value.isPlant ==> exists j :: 0 <= j < |decoded| && Matches(decoded[j].className, keywords) &&
                                           r.value == Verdict(true, decoded[j].className, decoded[j].prob)
    ensures r.Ok? && !r.value.isPlant ==> r.value == Verdict(false, decoded[0].className, decoded[0].prob)
  {
    if |decoded| == 0 then Err(IndexErrorMessage)
    else match FirstStrong(decoded, keywords)
      case Some(i) => Ok(Verdict(true, decoded[i].className, decoded[i].prob))
      case None =>
        if MaxOf(decoded, keywords) > WeakThreshold then
          BestMatchIsBest(decoded, keywords);
          var k := BestMatch(decoded, keywords).value;
          assert Matches(decoded[k].className, keywords);
          Ok(Verdict(true, decoded[k].className, decoded[k].prob))
        else Ok(Verdict(false, decoded[0].className, decoded[0].prob))
  }

  /** The decision loop of `is_plant_image`, with its early return. */
  method IsPlantImage(decoded: seq<Prediction>) returns (r: Result<Verdict>)
    ensures r == Detect(decoded, PlantKeywords)
  {
    if |decoded| == 0 {
      return Err(IndexErrorMessage);
    }
    var maxPlantConfidence: real := 0.0;
    var bestMatch := decoded[0];
    var i := 0;
    while i < |decoded|
      invariant 0 <= i <= |decoded|
      invariant forall j :: 0 <= j < i ==> !Strong(decoded[j], PlantKeywords)
      invariant maxPlantConfidence == MaxOf(decoded[..i], PlantKeywords)
      invariant bestMatch == BestOf(decoded[..i], decoded[0], PlantKeywords)
    {
      var strong;
      strong, maxPlantConfidence, bestMatch := ScanKeywords(decoded[i], PlantKeywords, maxPlantConfidence, bestMatch);
      if strong {
        StrongMatchReturnsFirst(decoded, PlantKeywords, i);
        return Ok(Verdict(true, decoded[i].className, decoded[i].prob));
      }
      ScanStep(decoded, PlantKeywords, i);
      i := i + 1;
    }
    ScanComplete(decoded, PlantKeywords);
    if maxPlantConfidence > WeakThreshold {
      return Ok(Verdict(true, bestMatch.className, bestMatch.prob));
    }
    return Ok(Verdict(false, decoded[0].className, decoded[0].prob));
  }

  /**
   * The inner loop of `is_plant_image` for one prediction: try every keyword
   * against the normalised label; a hit raises the running maximum if the
   * probability is higher, and a hit above 0.1 stops the scan (`strong`).
   */
  method ScanKeywords(p: Prediction, keywords: seq<string>, maxConf: real, best: Prediction)
    returns (strong: bool, maxConf': real, best': Prediction)
    ensures strong <==> Strong(p, keywords)
    ensures !strong && Matches(p.className, keywords) && p.prob > maxConf ==> maxConf' == p.prob && best' == p
    ensures !strong && !(Matches(p.className, keywords) && p.prob > maxConf) ==> maxConf' == maxConf && best' == best
  {
    var labelLower := Normalise(p.className);
    maxConf', best' := maxConf, best;
    var t := 0;
    while t < |keywords|
      invariant 0 <= t <= |keywords|
      invariant !KeywordHit(labelLower, keywords, t) ==> maxConf' == maxConf && best' == best
      invariant KeywordHit(labelLower, keywords, t) ==> p.prob <= StrongThreshold
      invariant KeywordHit(labelLower, keywords, t) && p.prob > maxConf ==> maxConf' == p.prob && best' == p
      invariant KeywordHit(labelLower, keywords, t) && p.prob <= maxConf ==> maxConf' == maxConf && best' == best
    {
      if Contains(labelLower, keywords[t]) {
        if p.prob > maxConf' {
          maxConf' := p.prob;
          best' := p;
        }
        if p.prob > StrongThreshold {
          KeywordHitMonotone(labelLower, keywords, t + 1, |keywords|);
          return true, maxConf', best';
        }
      }
      t := t + 1;
    }
    return false, maxConf', best';
  }

  /** One more prediction scanned: the running maximum and best match advance only on a plant-related, higher probability. */
  lemma ScanStep(ps: seq<Prediction>, keywords: seq<string>, i: nat)
    requires i < |ps|
    ensures Matches(ps[i].className, keywords) && ps[i].prob > MaxOf(ps[..i], keywords) ==>
              MaxOf(ps[..i + 1], keywords) == ps[i].prob && BestOf(ps[..i + 1], ps[0], keywords) == ps[i]
    ensures !(Matches(ps[i].className, keywords) && ps[i].prob > MaxOf(ps[..i], keywords)) ==>
              MaxOf(ps[..i + 1], keywords) == MaxOf(ps[..i], keywords) &&
              BestOf(ps[..i + 1], ps[0], keywords) == BestOf(ps[..i], ps[0], keywords)
  {
    assert ps[..i + 1][..i] == ps[..i];
  }

  /** Once every prediction is scanned without a strong match, the result is decided by the running maximum. */
  lemma ScanComplete(ps: seq<Prediction>, keywords: seq<string>)
    requires |ps| > 0
    requires forall j :: 0 <= j < |ps| ==> !Strong(ps[j], keywords)
    ensures var best := BestOf(ps[..|ps|], ps[0], keywords);
      Detect(ps, keywords) ==
        if MaxOf(ps[..|ps|], keywords) > WeakThreshold then Ok(Verdict(true, best.className, best.prob))
        else Ok(Verdict(false, ps[0].className, ps[0].prob))
  {
    assert ps[..|ps|] == ps;
  }

  /** The first prediction, in list order, that matches a keyword with probability above 0.1 is returned at once. */
  lemma StrongMatchReturnsFirst(decoded: seq<Prediction>, keywords: seq<string>, i: nat)
    requires i < |decoded| && Strong(decoded[i], keywords)
    requires forall j :: 0 <= j < i ==> !Strong(decoded[j], keywords)
    ensures Detect(decoded, keywords) == Ok(Verdict(true, decoded[i].className, decoded[i].prob))
  {
  }

  /**
   * The image is rejected exactly when every plant-related prediction has
   * probability at most 0.05, and the rejection reports the top prediction.
   */
  lemma RejectedIffAllWeak(decoded: seq<Prediction>, keywords: seq<string>)
    requires |decoded| > 0
    ensures Detect(decoded, keywords).Ok?
    ensures !Detect(decoded, keywords).value.isPlant <==>
              forall j :: 0 <= j < |decoded| && Matches(decoded[j].className, keywords) ==>
                decoded[j].prob <= WeakThreshold
    ensures !Detect(decoded, keywords).value.isPlant ==>
              Detect(decoded, keywords).value == Verdict(false, decoded[0].className, decoded[0].prob)
  {
    BestMatchIsBest(decoded, keywords);
  }

  /**
   * Without a strong match, an accepted image reports the plant-related
   * prediction with the strictly greatest probability, the first on ties;
   * that probability lies in (0.05, 0.1].
   */
  lemma FallbackReportsBest(decoded: seq<Prediction>, keywords: seq<string>, v: Verdict)
    requires FirstStrong(decoded, keywords).None? && Detect(decoded, keywords) == Ok(v) && v.isPlant
    ensures BestMatch(decoded, keywords).Some?
    ensures var k := BestMatch(decoded, keywords).value;
      k < |decoded| && Matches(decoded[k].className, keywords) &&
      v == Verdict(true, decoded[k].className, decoded[k].prob) &&
      WeakThreshold < decoded[k].prob <= StrongThreshold &&
      (forall j :: 0 <= j < |decoded| && Matches(decoded[j].className, keywords) ==> decoded[j].prob <= decoded[k].prob) &&
      (forall j :: 0 <= j < k && Matches(decoded[j].className, keywords) ==> decoded[j].prob < decoded[k].prob)
  {
    BestMatchIsBest(decoded, keywords);
    assert MaxOf(decoded, keywords) > WeakThreshold;
    assert !Strong(decoded[BestMatch(decoded, keywords).value], keywords);
  }

  /** A keyword spelled with an underscore can never occur in a normalised label. */
  lemma UnderscoreKeywordNeverMatches(name: string, keyword: string)
    requires '_' in keyword
    ensures !Contains(Normalise(name), keyword)
  {
    if Contains(Normalise(name), keyword) {
      ContainsKeepsChars(Normalise(name), keyword, '_');
    }
  }

  /** The keywords that can never match are `bell_pepper`, `head_cabbage`, `butternut_squash` and `spaghetti_squash`. */
  lemma DeadKeywords(name: string)
    ensures PlantKeywords[21] == "bell_pepper" && !Contains(Normalise(name), PlantKeywords[21])
    ensures PlantKeywords[32] == "head_cabbage" && !Contains(Normalise(name), PlantKeywords[32])
    ensures PlantKeywords[33] == "butternut_squash" && !Contains(Normalise(name), PlantKeywords[33])
    ensures PlantKeywords[34] == "spaghetti_squash" && !Contains(Normalise(name), PlantKeywords[34])
  {
    UnderscoreKeywordNeverMatches(name, PlantKeywords[21]);
    UnderscoreKeywordNeverMatches(name, PlantKeywords[32]);
    UnderscoreKeywordNeverMatches(name, PlantKeywords[33]);
    UnderscoreKeywordNeverMatches(name, PlantKeywords[34]);
  }
}
