/** The request and response records exchanged between the monitors and the
    vision judge (angeleyes/models/base.py). Python's pydantic validation
    becomes the two checked builders below; a request's `timestamp`
    (filled in from the wall clock) is not part of this model. */
module Models {
  import opened Wrappers

  /** A file-system path, as text. */
  type Path = string

  /** A confidence score; the records only accept values in [0, 1]. */
  type Confidence = c: real | 0.0 <= c <= 1.0

  datatype FocusCheckRequest = FocusCheckRequest(imagePath: Path, goal: string)

  datatype FocusCheckResponse = FocusCheckResponse(isFocused: bool, confidence: Confidence, reason: string)

  datatype PostureCheckRequest = PostureCheckRequest(imagePaths: seq<Path>)

  datatype PostureCheckResponse = PostureCheckResponse(isCorrect: bool, confidence: Confidence, issues: seq<string>)

  /** The model's error for a confidence outside [0, 1]; pydantic raises a
      `ValidationError` with its own wording. */
  const ConfidenceRangeError := "confidence must be between 0 and 1"

  /** Building a `FocusCheckResponse`: rejected when the confidence is out of
      range, otherwise every field reads back as given. */
  function NewFocusCheckResponse(isFocused: bool, confidence: real, reason: string)
    : (r: Result<FocusCheckResponse, string>)
    ensures r.Success? <==> 0.0 <= confidence <= 1.0
    ensures r.Failure? ==> r.error == ConfidenceRangeError
    ensures r.Success? ==>
      r.value.isFocused == isFocused && r.value.confidence == confidence && r.value.reason == reason
  {
    if 0.0 <= confidence <= 1.0 then Success(FocusCheckResponse(isFocused, confidence, reason))
    else Failure(ConfidenceRangeError)
  }

  /** Building a `PostureCheckResponse`: rejected when the confidence is out of
      range; an omitted issue list defaults to the empty list. */
  function NewPostureCheckResponse(isCorrect: bool, confidence: real, issues: Option<seq<string>>)
    : (r: Result<PostureCheckResponse, string>)
    ensures r.Success? <==> 0.0 <= confidence <= 1.0
    ensures r.Failure? ==> r.error == ConfidenceRangeError
    ensures r.Success? ==> r.value.isCorrect == isCorrect && r.value.confidence == confidence
    ensures r.Success? && issues.None? ==> r.value.issues == []
    ensures r.Success? && issues.Some? ==> r.value.issues == issues.value
  {
    if 0.0 <= confidence <= 1.0 then
      Success(PostureCheckResponse(isCorrect, confidence, if issues.Some? then issues.value else []))
    else Failure(ConfidenceRangeError)
  }
}
