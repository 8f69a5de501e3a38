/** The errors of the image pipeline and their user-facing messages (Sources/Image/ImageError.swift). */
module ImageErrors {
  import opened Wrappers

  datatype ImageError =
    | FailedToLoadImage
    | FailedToCreateContext
    | FailedToCreateFinalImage
    | FailedToCreateDestination
    | FailedToSaveImage

  /** Every case of `ImageError`, in declaration order. */
  function AllImageErrors(): (all: seq<ImageError>)
    ensures |all| == 5
    ensures forall i, j :: 0 <= i < j < |all| ==> all[i] != all[j]
  {
    [FailedToLoadImage, FailedToCreateContext, FailedToCreateFinalImage,
     FailedToCreateDestination, FailedToSaveImage]
  }

  /** The list above is exhaustive: there is no sixth error. */
  lemma {:induction false} EveryErrorListed(e: ImageError)
    ensures e in AllImageErrors()
  {
    match e
    case FailedToLoadImage =>
    case FailedToCreateContext =>
    case FailedToCreateFinalImage =>
    case FailedToCreateDestination =>
    case FailedToSaveImage =>
  }

  /** `errorDescription`: the localized message of each error. */
  function ErrorDescription(e: ImageError): (message: Option<string>)
    ensures message.Some? && |message.value| > 0
  {
    match e
    case FailedToLoadImage => Some("Failed to load image")
    case FailedToCreateContext => Some("Failed to create graphics context")
    case FailedToCreateFinalImage => Some("Failed to create final image")
    case FailedToCreateDestination => Some("Failed to create image destination")
    case FailedToSaveImage => Some("Failed to save manipulated image")
  }

  /** No two errors share a message, so the message identifies the error. */
  lemma DescriptionsDistinct(e1: ImageError, e2: ImageError)
    ensures ErrorDescription(e1) == ErrorDescription(e2) <==> e1 == e2
  {
  }
}
