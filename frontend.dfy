/**
 * The React component `PlantDiseaseClassifier`: a two-page controller whose
 * state is six `useState` cells.  Each handler becomes a method that updates
 * the fields it sets.  The outcome of the `fetch` and the completion of a
 * `FileReader` come from outside, as a parameter and as an event of their own.
 */
module Frontend {
  import opened Common
  import opened Text
  import opened Api
  import opened SeverityStyle

  datatype Page = UploadPage | ResultsPage

  /** How the awaited `fetch` settled: a 2xx response with its parsed body, a non-2xx response, or an exception. */
  datatype FetchOutcome = FetchOk(data: Diagnosis) | FetchNotOk | FetchThrown

  /** The one message shown for every failed submission. */
  const FailureMessage: string := "Failed to analyze image. Make sure the backend server is running."

  /** A dropped file is accepted only if its declared type starts with this. */
  const ImageMimePrefix: string := "image/"

  /** The request `handleSubmit` sends for a selected file. */
  function PredictRequest(file: File): (req: Request)
    ensures req.url == PredictUrl && req.httpMethod == "POST"
    ensures req.files.Keys == {ImageField} && req.files[ImageField] == file
  {
    Request(PredictUrl, "POST", map[ImageField := file])
  }

  class PlantDiseaseClassifier {
    var currentPage: Page
    var uploadedImage: Option<File>
    var imagePreview: Option<string>
    var loading: bool
    var results: Option<Diagnosis>
    var error: Option<string>

    /**
     * The results page is shown exactly when there is a result, and a result
     * was only ever obtained for a selected image.
     */
    predicate Valid()
      reads this
    {
      (currentPage == ResultsPage <==> results.Some?) &&
      (currentPage == ResultsPage ==> uploadedImage.Some?)
    }

    /** The severity category the results page renders, if it renders one. */
    function ShownCategory(): (c: Option<Category>)
      reads this
      ensures c.Some? <==> currentPage == ResultsPage && results.Some?
      ensures c.Some? ==> c.value == Classify(Some(results.value.severity))
    {
      if currentPage == ResultsPage && results.Some? then Some(Classify(Some(results.value.severity))) else None
    }

    /** The initial values of the six `useState` cells. */
    constructor ()
      ensures Valid()
      ensures currentPage == UploadPage && uploadedImage == None && imagePreview == None
      ensures !loading && results == None && error == None
    {
      currentPage := UploadPage;
      uploadedImage := None;
      imagePreview := None;
      loading := false;
      results := None;
      error := None;
    }

    /**
     * `handleImageUpload`: with a file, select it and clear the error.  The
     * preview is not set here; the reader it starts delivers it later.
     */
    method HandleImageUpload(file: Option<File>)
      requires Valid()
      modifies this
      ensures Valid()
      ensures file.None? ==> uploadedImage == old(uploadedImage) && error == old(error)
      ensures file.Some? ==> uploadedImage == file && error == None
      ensures currentPage == old(currentPage) && imagePreview == old(imagePreview)
      ensures loading == old(loading) && results == old(results)
    {
      if file.Some? {
        uploadedImage := file;
        error := None;
      }
    }

    /** `handleDrop`: like selecting, but only for a file whose type starts with `image/`. */
    method HandleDrop(file: Option<File>)
      requires Valid()
      modifies this
      ensures Valid()
      ensures file.Some? && StartsWith(file.value.mimeType, ImageMimePrefix) ==>
                uploadedImage == file && error == None
      ensures !(file.Some? && StartsWith(file.value.mimeType, ImageMimePrefix)) ==>
                uploadedImage == old(uploadedImage) && error == old(error)
      ensures currentPage == old(currentPage) && imagePreview == old(imagePreview)
      ensures loading == old(loading) && results == old(results)
    {
      if file.Some? && StartsWith(file.value.mimeType, ImageMimePrefix) {
        HandleImageUpload(file);
      }
    }

    /** The `onloadend` callback of a reader: the preview becomes the reader's result (null if reading failed). */
    method ReaderLoadEnd(result: Option<string>)
      requires Valid()
      modifies this
      ensures Valid()
      ensures imagePreview == result
      ensures currentPage == old(currentPage) && uploadedImage == old(uploadedImage)
      ensures loading == old(loading) && results == old(results) && error == old(error)
    {
      imagePreview := result;
    }

    /**
     * `handleSubmit`: without a selected image nothing is sent and nothing
     * changes.  Otherwise the error is cleared, the image is posted, and the
     * outcome either stores the result and opens the results page or sets the
     * fixed failure message; `loading` is cleared on every path.
     */
    method HandleSubmit(outcome: FetchOutcome) returns (sent: Option<Request>)
      requires Valid()
      modifies this
      ensures Valid()
      ensures old(uploadedImage).None? ==>
                sent == None &&
                currentPage == old(currentPage) && loading == old(loading) &&
                results == old(results) && error == old(error)
      ensures old(uploadedImage).Some? ==> sent == Some(PredictRequest(old(uploadedImage).value)) && !loading
      ensures old(uploadedImage).Some? && outcome.FetchOk? ==>
                results == Some(outcome.data) && currentPage == ResultsPage && error == None
      ensures old(uploadedImage).Some? && !outcome.FetchOk? ==>
                results == old(results) && currentPage == old(currentPage) && error == Some(FailureMessage)
      ensures uploadedImage == old(uploadedImage) && imagePreview == old(imagePreview)
    {
      if uploadedImage.None? {
        return None;
      }
      loading := true;
      error := None;
      sent := Some(PredictRequest(uploadedImage.value));
      // try
      match outcome {
        case FetchOk(data) =>
          results := Some(data);
          currentPage := ResultsPage;
        case FetchNotOk =>
          error := Some(FailureMessage);
        case FetchThrown =>
          error := Some(FailureMessage);
      }
      // finally
      loading := false;
    }

    /** `handleBackToHome`: back to the upload page with every cell but `loading` emptied. */
    method HandleBackToHome()
      requires Valid()
      modifies this
      ensures Valid()
      ensures currentPage == UploadPage && uploadedImage == None && imagePreview == None
      ensures results == None && error == None && loading == old(loading)
    {
      currentPage := UploadPage;
      uploadedImage := None;
      imagePreview := None;
      results := None;
      error := None;
    }
  }
}
