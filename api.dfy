/**
 * The HTTP contract between the browser frontend and the Flask backend:
 * the multipart request the frontend sends to `POST /predict` and the JSON
 * bodies the backend answers with.
 */
module Api {

  /** A file picked or dropped in the browser: its name and declared MIME type (the bytes are opaque). */
  datatype File = File(name: string, mimeType: string)

  /** A multipart POST: target URL, HTTP method, and the form's file fields. */
  datatype Request = Request(url: string, httpMethod: string, files: map<string, File>)

  /** The JSON object of a diagnosis, as the backend builds it and the frontend stores it. */
  datatype Diagnosis = Diagnosis(disease: string, severity: string, treatment: string, confidence: real, isPlant: bool)

  /** A JSON body: either `{error: ...}` or a diagnosis. */
  datatype Body = ErrorBody(error: string) | DiagnosisBody(diagnosis: Diagnosis)

  datatype Response = Response(status: int, body: Body)

  /** The endpoint the frontend posts to. */
  const PredictUrl: string := "http://localhost:5000/predict"

  /** The form field that carries the image. */
  const ImageField: string := "image"
}
