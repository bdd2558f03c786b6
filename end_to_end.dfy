/**
 * Facts that join the two halves: the request the frontend sends passes the
 * backend's field check, and every severity text the backend can emit lands
 * in its own visual category on the results page.
 */
module EndToEnd {
  import opened Common
  import opened Text
  import opened Api
  import opened SeverityStyle
  import opened PlantCheck
  import opened Backend
  import Frontend

  /** Severity categories in increasing order of concern. */
  function Rank(c: Category): nat {
    match c
    case Healthy => 0
    case Low => 1
    case Moderate => 2
    case High => 3
  }

  /** The lower-case forms of the severity texts the backend emits. */
  lemma LowerSeverityTexts()
    ensures Lower(HighConfidence) == "high" + " confidence"
    ensures Lower(ModerateConfidence) == "moderate" + " confidence"
    ensures Lower(LowConfidence) == "low" + " confidence"
    ensures Lower(NotApplicable) == "n/a"
  {
  }

  /** The letters that open "high" and "moderate" are absent from the lower-cased texts that must not mention them. */
  lemma SeverityTextLetters()
    ensures 'h' !in Lower(ModerateConfidence)
    ensures 'h' !in Lower(LowConfidence) && 'm' !in Lower(LowConfidence)
    ensures 'h' !in Lower(NotApplicable) && 'm' !in Lower(NotApplicable) && 'l' !in Lower(NotApplicable)
  {
    LowerSeverityTexts();
    assert "moderate" + " confidence" == "moderate confidence";
    assert "low" + " confidence" == "low confidence";
  }

  /** "High Confidence" is shown as high. */
  lemma HighConfidenceIsHigh()
    ensures Classify(Some(HighConfidence)) == High
  {
    LowerSeverityTexts();
    MentionedAtStart(HighConfidence, "high", " confidence");
  }

  /** "Moderate Confidence" is shown as moderate. */
  lemma ModerateConfidenceIsModerate()
    ensures Classify(Some(ModerateConfidence)) == Moderate
  {
    LowerSeverityTexts();
    SeverityTextLetters();
    NotMentioned(ModerateConfidence, "high");
    MentionedAtStart(ModerateConfidence, "moderate", " confidence");
  }

  /** "Low Confidence" is shown as low. */
  lemma LowConfidenceIsLow()
    ensures Classify(Some(LowConfidence)) == Low
  {
    LowerSeverityTexts();
    SeverityTextLetters();
    NotMentioned(LowConfidence, "high");
    NotMentioned(LowConfidence, "moderate");
    MentionedAtStart(LowConfidence, "low", " confidence");
  }

  /** "N/A" mentions no keyword and falls through to the default category. */
  lemma NotApplicableIsDefault()
    ensures Classify(Some(NotApplicable)) == Healthy
  {
    LowerSeverityTexts();
    SeverityTextLetters();
    NotMentioned(NotApplicable, "high");
    NotMentioned(NotApplicable, "moderate");
    NotMentioned(NotApplicable, "low");
  }

  /** Each severity text the backend emits falls into its own category; "N/A" falls through to the default. */
  lemma EmittedSeveritiesClassified()
    ensures Classify(Some(HighConfidence)) == High
    ensures Classify(Some(ModerateConfidence)) == Moderate
    ensures Classify(Some(LowConfidence)) == Low
    ensures Classify(Some(NotApplicable)) == Healthy
  {
    HighConfidenceIsHigh();
    ModerateConfidenceIsModerate();
    LowConfidenceIsLow();
    NotApplicableIsDefault();
  }

  /** The category the frontend shows for a confidence band follows the band's thresholds. */
  lemma BandCategory(confidence: real)
    ensures Classify(Some(SeverityBand(confidence))) ==
      if confidence > 85.0 then High else if confidence > 70.0 then Moderate else Low
  {
    EmittedSeveritiesClassified();
  }

  /** A higher confidence is never shown with a lower category. */
  lemma BandCategoryMonotone(c1: real, c2: real)
    requires c1 <= c2
    ensures Rank(Classify(Some(SeverityBand(c1)))) <= Rank(Classify(Some(SeverityBand(c2))))
  {
    BandCategory(c1);
    BandCategory(c2);
  }

  /** The category of every diagnosis the backend sends: default for a non-plant, else the confidence band's. */
  lemma ResponseCategory(files: map<string, File>, inference: Inference)
    requires Predict(files, inference).body.DiagnosisBody?
    ensures var d := Predict(files, inference).body.diagnosis;
      Classify(Some(d.severity)) ==
        if !d.isPlant then Healthy
        else if d.confidence > 85.0 then High
        else if d.confidence > 70.0 then Moderate
        else Low
  {
    var d := Predict(files, inference).body.diagnosis;
    if d.isPlant {
      PlantResponse(files, inference);
      DiagnosisCategory(d);
    } else {
      assert d.severity == NotApplicable;
      DiagnosisCategory(d);
    }
  }

  /** The category of a diagnosis whose severity is its confidence band, or "N/A" for a non-plant. */
  lemma DiagnosisCategory(d: Api.Diagnosis)
    requires if d.isPlant then d.severity == SeverityBand(d.confidence) else d.severity == NotApplicable
    ensures Classify(Some(d.severity)) ==
        if !d.isPlant then Healthy
        else if d.confidence > 85.0 then High
        else if d.confidence > 70.0 then Moderate
        else Low
  {
    if d.isPlant {
      BandCategory(d.confidence);
    } else {
      NotApplicableIsDefault();
    }
  }

  /** The request the frontend sends always carries the `image` field, so it is never answered with 400. */
  lemma SubmittedRequestNotRejected(file: File, inference: Inference)
    ensures Predict(Frontend.PredictRequest(file).files, inference).status != 400
  {
  }

  /** How `fetch` settles on a backend response: a 2xx response is parsed, anything else is not ok. */
  function Deliver(r: Response): (o: Frontend.FetchOutcome)
    requires 200 <= r.status < 300 ==> r.body.DiagnosisBody?
    ensures o.FetchOk? <==> 200 <= r.status < 300
    ensures o.FetchOk? ==> o.data == r.body.diagnosis
    ensures !o.FetchThrown?
  {
    if 200 <= r.status < 300 then Frontend.FetchOk(r.body.diagnosis) else Frontend.FetchNotOk
  }

  /**
   * One session: select a file, submit it to the backend.  The results page
   * opens exactly when the backend answers 200, and it shows the category of
   * the backend's severity text.
   */
  method AnalyzeOnce(file: File, inference: Inference) returns (page: Frontend.Page, shown: Option<Category>)
    ensures var r := Predict(Frontend.PredictRequest(file).files, inference);
      (page == Frontend.ResultsPage <==> r.status == 200) &&
      (r.status == 200 ==> shown == Some(Classify(Some(r.body.diagnosis.severity)))) &&
      (r.status != 200 ==> shown == None)
  {
    var app := new Frontend.PlantDiseaseClassifier();
    app.HandleImageUpload(Some(file));
    var response := Predict(Frontend.PredictRequest(file).files, inference);
    var sent := app.HandleSubmit(Deliver(response));
    page := app.currentPage;
    shown := app.ShownCategory();
  }
}
