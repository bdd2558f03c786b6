/**
 * The `/predict` route: after the plant check and the disease model have run
 * (their outputs are inputs here), choose the response and post-process the
 * top class into a display name, a confidence band and a treatment.
 */
module Backend {
  import opened Common
  import opened Text
  import opened Api
  import opened Catalogue
  import opened PlantCheck

  /** What the two models produced for the uploaded image, or why the image could not be opened. */
  datatype Inference =
    | Inference(decoded: seq<Prediction>, scores: seq<real>)
    | Unreadable(reason: string)

  const NoImageMessage: string := "No image provided"
  const ArgMaxEmptyMessage: string := "attempt to get argmax of an empty sequence"
  const HighConfidence: string := "High Confidence"
  const ModerateConfidence: string := "Moderate Confidence"
  const LowConfidence: string := "Low Confidence"
  const NotAPlant: string := "Not a Plant"
  const NotApplicable: string := "N/A"

  /** `np.argmax`: the position of the first greatest score. */
  function ArgMax(scores: seq<real>): (k: nat)
    requires |scores| > 0
    ensures k < |scores|
    ensures forall j :: 0 <= j < |scores| ==> scores[j] <= scores[k]
    ensures forall j :: 0 <= j < k ==> scores[j] < scores[k]
    decreases |scores|
  {
    if |scores| == 1 then 0
    else
      var k := ArgMax(scores[1..]) + 1;
      if scores[0] >= scores[k] then 0 else k
  }

  /** `disease.replace('___', ' - ').replace('_', ' ')`. */
  function DisplayName(disease: string): (name: string)
    ensures '_' !in name
  {
    var dashed := ReplaceAll(disease, "___", " - ");
    assert "_" == ['_'] && " " == [' '];
    ReplaceCharRemoves(dashed, '_', ' ');
    ReplaceAll(dashed, "_", " ")
  }

  /** The confidence band, from the disease model's confidence in percent. */
  function SeverityBand(confidence: real): (band: string)
    ensures band == HighConfidence <==> confidence > 85.0
    ensures band == ModerateConfidence <==> 70.0 < confidence <= 85.0
    ensures band == LowConfidence <==> confidence <= 70.0
  {
    if confidence > 85.0 then HighConfidence
    else if confidence > 70.0 then ModerateConfidence
    else LowConfidence
  }

  /** The opening of the not-a-plant advice, up to the quoted class name. */
  const NotPlantOpening: string := "This image appears to be \""

  /** The request to upload a leaf photo, after the quoted class name. */
  const NotPlantClosing: string := "\". Please upload an image of a plant leaf showing any disease symptoms."

  /**
   * The advice shown when the image is not a plant: the opening, the class
   * name the image appears to be, and the closing request, in that order.
   */
  function NotPlantAdvice(topClass: string): (advice: string)
    ensures |advice| == |NotPlantOpening| + |topClass| + |NotPlantClosing|
    ensures StartsWith(advice, NotPlantOpening)
    ensures OccursAt(advice, topClass, |NotPlantOpening|)
    ensures OccursAt(advice, NotPlantClosing, |NotPlantOpening| + |topClass|)
  {
    var advice := NotPlantOpening + topClass + NotPlantClosing;
    assert advice[..|NotPlantOpening|] == NotPlantOpening;
    assert advice[|NotPlantOpening|..|NotPlantOpening| + |topClass|] == topClass;
    assert advice[|NotPlantOpening| + |topClass|..|NotPlantOpening| + |topClass| + |NotPlantClosing|] == NotPlantClosing;
    advice
  }

  /**
   * The diagnosis for the disease model's `k`-th class at the given
   * confidence: the label's display name, the confidence's band, and the
   * label's own entry of the treatment table.
   */
  function PlantDiagnosis(k: nat, confidence: real): (d: Diagnosis)
    requires k < |ClassLabels|
    ensures d.isPlant && d.confidence == confidence
    ensures d.disease == DisplayName(ClassLabels[k]) && '_' !in d.disease
    ensures d.severity == SeverityBand(confidence)
    ensures d.treatment == Treatments[ClassLabels[k]] && d.treatment != DefaultTreatment
  {
    var disease := ClassLabels[k];
    EveryLabelHasAdvice(k);
    Diagnosis(DisplayName(disease), SeverityBand(confidence), TreatmentFor(disease), confidence, true)
  }

  /** The response of `predict` for the request's files and the models' outputs. */
  function Predict(files: map<string, File>, inference: Inference): (r: Response)
    ensures r.status == 400 <==> ImageField !in files
    ensures r.status == 400 ==> r.body == ErrorBody(NoImageMessage)
    ensures r.status == 200 || r.status == 400 || r.status == 500
    ensures r.status == 200 <==> r.body.DiagnosisBody?
  {
    if ImageField !in files then Response(400, ErrorBody(NoImageMessage))
    else match inference
      case Unreadable(reason) => Response(500, ErrorBody(reason))
      case Inference(decoded, scores) =>
        match Detect(decoded, PlantKeywords)
        case Err(message) => Response(500, ErrorBody(message))
        case Ok(verdict) =>
          if !verdict.isPlant then
            Response(200, DiagnosisBody(Diagnosis(NotAPlant, NotApplicable, NotPlantAdvice(verdict.topClass), 0.0, false)))
          else if |scores| == 0 then Response(500, ErrorBody(ArgMaxEmptyMessage))
          else
            var k := ArgMax(scores);
            if k >= |ClassLabels| then Response(500, ErrorBody(IndexErrorMessage))
            else Response(200, DiagnosisBody(PlantDiagnosis(k, scores[k] * 100.0)))
  }

  /** A label without underscores is displayed as it is. */
  lemma PlainLabelDisplayedAsIs(disease: string)
    requires '_' !in disease
    ensures DisplayName(disease) == disease
  {
    ReplaceAbsent(disease, "___", " - ");
    ReplaceAbsent(disease, "_", " ");
  }

  /**
   * A label `Crop___Condition` whose crop part has no underscore is displayed
   * as `Crop - Condition`, the condition displayed on its own: the `___`
   * separator is rewritten before the single underscores are.
   */
  lemma DisplayNameSplitsCropAndCondition(crop: string, condition: string)
    requires '_' !in crop
    ensures DisplayName(crop + "___" + condition) == crop + " - " + DisplayName(condition)
  {
    var dashed := ReplaceAll(condition, "___", " - ");
    calc {
      ReplaceAll(crop + "___" + condition, "___", " - ");
    == { assert crop + "___" + condition == crop + ("___" + condition);
         ReplaceSkipsPrefix(crop, "___" + condition, "___", " - "); }
      crop + ReplaceAll("___" + condition, "___", " - ");
    == { ReplaceAtStart("___", condition, " - "); }
      crop + (" - " + dashed);
    }
    assert '_' !in crop + " - ";
    calc {
      DisplayName(crop + "___" + condition);
    == { assert crop + (" - " + dashed) == (crop + " - ") + dashed; }
      ReplaceAll((crop + " - ") + dashed, "_", " ");
    == { ReplaceSkipsPrefix(crop + " - ", dashed, "_", " "); }
      (crop + " - ") + ReplaceAll(dashed, "_", " ");
    }
  }

  /** The boundaries belong to the band below: exactly 85 is moderate and exactly 70 is low. */
  lemma BandBoundaries()
    ensures SeverityBand(85.0) == ModerateConfidence && SeverityBand(70.0) == LowConfidence
    ensures forall c: real :: 70.0 < c <= 85.0 ==> SeverityBand(c) == ModerateConfidence
  {
  }

  /**
   * The not-a-plant response: status 200, disease "Not a Plant", severity
   * "N/A", confidence 0; it is sent exactly when the plant check rejects.
   */
  lemma NotPlantResponse(files: map<string, File>, decoded: seq<Prediction>, scores: seq<real>)
    requires ImageField in files && |decoded| > 0
    ensures var r := Predict(files, Inference(decoded, scores));
      r.body.DiagnosisBody? && !r.body.diagnosis.isPlant <==> !Detect(decoded, PlantKeywords).value.isPlant
    ensures var r := Predict(files, Inference(decoded, scores));
      r.body.DiagnosisBody? && !r.body.diagnosis.isPlant ==>
        r.status == 200 && r.body.diagnosis.disease == NotAPlant &&
        r.body.diagnosis.severity == NotApplicable && r.body.diagnosis.confidence == 0.0 &&
        r.body.diagnosis.treatment == NotPlantAdvice(decoded[0].className)
  {
  }

  /**
   * The plant response names the disease model's top class: its display name
   * (without underscores), its treatment from the table (never the default),
   * its confidence in percent and the band of that confidence.
   */
  lemma PlantResponse(files: map<string, File>, inference: Inference)
    requires Predict(files, inference).body.DiagnosisBody?
    requires Predict(files, inference).body.diagnosis.isPlant
    ensures inference.Inference? && |inference.scores| > 0
    ensures var k := ArgMax(inference.scores); var d := Predict(files, inference).body.diagnosis;
      k < |ClassLabels| &&
      d.disease == DisplayName(ClassLabels[k]) && '_' !in d.disease &&
      d.confidence == inference.scores[k] * 100.0 &&
      d.severity == SeverityBand(d.confidence) &&
      d.treatment == Treatments[ClassLabels[k]] && d.treatment != DefaultTreatment
  {
    var k := ArgMax(inference.scores);
    EveryLabelHasAdvice(k);
  }
}
