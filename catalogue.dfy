/**
 * The backend's two tables: the disease model's class labels, in output order,
 * and the treatment advice for each label.
 */
module Catalogue {

  /** `CLASS_LABELS`: index `i` names the disease model's `i`-th output. */
  const ClassLabels: seq<string> := [
    "Apple___Apple_scab",
    "Apple___Black_rot",
    "Apple___Cedar_apple_rust",
    "Apple___healthy",
    "Blueberry___healthy",
    "Cherry_(including_sour)___Powdery_mildew",
    "Cherry_(including_sour)___healthy",
    "Corn_(maize)___Cercospora_leaf_spot Gray_leaf_spot",
    "Corn_(maize)___Common_rust_",
    "Corn_(maize)___Northern_Leaf_Blight",
    "Corn_(maize)___healthy",
    "Grape___Black_rot",
    "Grape___Esca_(Black_Measles)",
    "Grape___Leaf_blight_(Isariopsis_Leaf_Spot)",
    "Grape___healthy",
    "Orange___Haunglongbing_(Citrus_greening)",
    "Peach___Bacterial_spot",
    "Peach___healthy",
    "Pepper,_bell___Bacterial_spot",
    "Pepper,_bell___healthy",
    "Potato___Early_blight",
    "Potato___Late_blight",
    "Potato___healthy",
    "Raspberry___healthy",
    "Soybean___healthy",
    "Squash___Powdery_mildew",
    "Strawberry___Leaf_scorch",
    "Strawberry___healthy",
    "Tomato___Bacterial_spot",
    "Tomato___Early_blight",
    "Tomato___Late_blight",
    "Tomato___Leaf_Mold",
    "Tomato___Septoria_leaf_spot",
    "Tomato___Spider_mites Two-spotted_spider_mite",
    "Tomato___Target_Spot",
    "Tomato___Tomato_Yellow_Leaf_Curl_Virus",
    "Tomato___Tomato_mosaic_virus",
    "Tomato___healthy"
  ]

  /** `TREATMENTS`: advice per label. */
  const Treatments: map<string, string> := map[
    "Apple___Apple_scab" := "Remove and destroy infected leaves. Apply fungicide sprays. Ensure proper air circulation.",
    "Apple___Black_rot" := "Prune infected branches. Remove mummified fruits. Apply fungicide during growing season.",
    "Apple___Cedar_apple_rust" := "Remove nearby cedar trees if possible. Apply fungicide in spring. Plant resistant varieties.",
    "Apple___healthy" := "No treatment needed. Continue regular care and monitoring.",
    "Blueberry___healthy" := "No treatment needed. Maintain proper watering and fertilization.",
    "Cherry_(including_sour)___Powdery_mildew" := "Apply fungicide. Improve air circulation. Remove infected parts.",
    "Cherry_(including_sour)___healthy" := "No treatment needed. Continue regular maintenance.",
    "Corn_(maize)___Cercospora_leaf_spot Gray_leaf_spot" := "Rotate crops. Use resistant varieties. Apply fungicide if severe.",
    "Corn_(maize)___Common_rust_" := "Plant resistant hybrids. Apply fungicide if infection is severe.",
    "Corn_(maize)___Northern_Leaf_Blight" := "Use resistant hybrids. Rotate crops. Remove infected debris.",
    "Corn_(maize)___healthy" := "No treatment needed. Maintain good agricultural practices.",
    "Grape___Black_rot" := "Remove infected fruit and leaves. Apply fungicide. Improve air circulation.",
    "Grape___Esca_(Black_Measles)" := "Prune infected wood. No chemical treatment available. Focus on prevention.",
    "Grape___Leaf_blight_(Isariopsis_Leaf_Spot)" := "Remove infected leaves. Apply copper-based fungicide.",
    "Grape___healthy" := "No treatment needed. Continue regular vineyard management.",
    "Orange___Haunglongbing_(Citrus_greening)" := "Remove infected trees. Control psyllid insects. Use disease-free plants.",
    "Peach___Bacterial_spot" := "Apply copper sprays. Plant resistant varieties. Improve air circulation.",
    "Peach___healthy" := "No treatment needed. Maintain regular pruning and care.",
    "Pepper,_bell___Bacterial_spot" := "Use disease-free seeds. Apply copper-based bactericide. Avoid overhead watering.",
    "Pepper,_bell___healthy" := "No treatment needed. Continue proper watering and fertilization.",
    "Potato___Early_blight" := "Remove infected leaves. Apply fungicide. Practice crop rotation.",
    "Potato___Late_blight" := "Apply fungicide immediately. Remove infected plants. Improve drainage.",
    "Potato___healthy" := "No treatment needed. Monitor regularly for signs of disease.",
    "Raspberry___healthy" := "No treatment needed. Maintain proper spacing and pruning.",
    "Soybean___healthy" := "No treatment needed. Continue good agricultural practices.",
    "Squash___Powdery_mildew" := "Apply fungicide. Improve air circulation. Water at soil level.",
    "Strawberry___Leaf_scorch" := "Remove infected leaves. Improve air circulation. Apply fungicide if needed.",
    "Strawberry___healthy" := "No treatment needed. Maintain proper spacing and watering.",
    "Tomato___Bacterial_spot" := "Use disease-free seeds. Apply copper sprays. Avoid overhead watering.",
    "Tomato___Early_blight" := "Remove infected leaves. Apply fungicide. Mulch around plants.",
    "Tomato___Late_blight" := "Apply fungicide immediately. Remove severely infected plants. Improve air circulation.",
    "Tomato___Leaf_Mold" := "Improve air circulation. Reduce humidity. Apply fungicide if severe.",
    "Tomato___Septoria_leaf_spot" := "Remove infected leaves. Apply fungicide. Mulch to prevent splash.",
    "Tomato___Spider_mites Two-spotted_spider_mite" := "Spray with water. Use insecticidal soap. Encourage natural predators.",
    "Tomato___Target_Spot" := "Remove infected leaves. Apply fungicide. Practice crop rotation.",
    "Tomato___Tomato_Yellow_Leaf_Curl_Virus" := "Remove infected plants. Control whiteflies. Use virus-resistant varieties.",
    "Tomato___Tomato_mosaic_virus" := "Remove infected plants. Disinfect tools. Use virus-free seeds.",
    "Tomato___healthy" := "No treatment needed. Continue proper watering and fertilization."
  ]

  /** The advice returned for a label that has no entry. */
  const DefaultTreatment: string := "Consult a plant specialist for treatment options."

  /** `TREATMENTS.get(disease, default)`. */
  function TreatmentFor(disease: string): (advice: string)
    ensures disease in Treatments ==> advice == Treatments[disease]
    ensures advice == DefaultTreatment <==> disease !in Treatments
  {
    EntriesAreSpecific();
    if disease in Treatments then Treatments[disease] else DefaultTreatment
  }

  /** The table lists exactly the model's labels. */
  lemma TableMatchesLabels()
    ensures |ClassLabels| == 38
    ensures forall i :: 0 <= i < |ClassLabels| ==> ClassLabels[i] in Treatments
    ensures forall d :: d in Treatments ==> d in ClassLabels
  {
  }

  /** No entry of the table is the default advice. */
  lemma EntriesAreSpecific()
    ensures forall d :: d in Treatments ==> Treatments[d] != DefaultTreatment
  {
  }

  /** Every label the disease model can name has its own advice. */
  lemma EveryLabelHasAdvice(i: nat)
    requires i < |ClassLabels|
    ensures TreatmentFor(ClassLabels[i]) == Treatments[ClassLabels[i]] != DefaultTreatment
  {
    TableMatchesLabels();
    EntriesAreSpecific();
  }
}
