/**
 * FeedImagePresenter: each image-loading event of one feed image becomes
 * exactly one `FeedImageViewModel` shown on the image's view. The presenter
 * holds only its view and its image transformer, never any state of its
 * own, so it is modelled as functions of the event and its arguments.
 */
module FeedImagePresentation {
  import opened Wrappers
  import opened FeedDomain

  /** `FeedImageViewModel<Image>`: what one cell shows. */
  datatype FeedImageViewModel<Image> = FeedImageViewModel(
    description: Option<string>,
    location: Option<string>,
    image: Option<Image>,
    isLoading: bool,
    shouldRetry: bool)

  /** The three calls a presenter receives for an image. */
  datatype ImageLoadingEvent =
    | StartedLoadingImageData
    | FinishedWithError(error: Error)
    | FinishedWithData(data: Data)

  /**
   * The states a cell may show: while loading there is no image and no retry
   * button; once loading is over, the retry button shows exactly when there
   * is no image.
   */
  predicate IsCoherent<Image>(vm: FeedImageViewModel<Image>) {
    if vm.isLoading then vm.image.None? && !vm.shouldRetry
    else vm.shouldRetry <==> vm.image.None?
  }

  /** `didStartLoadingImageData(for:)`. */
  function DidStartLoadingImageData<Image>(model: FeedImage): (vm: FeedImageViewModel<Image>)
    ensures vm.isLoading && vm.image.None? && !vm.shouldRetry
  {
    FeedImageViewModel(model.description, model.location, None, true, false)
  }

  /** `didFinishLoadingImageData(with error:for:)`: the error itself is not shown. */
  function DidFinishLoadingImageDataWithError<Image>(error: Error, model: FeedImage): (vm: FeedImageViewModel<Image>)
    ensures !vm.isLoading && vm.image.None? && vm.shouldRetry
  {
    FeedImageViewModel(model.description, model.location, None, false, true)
  }

  /** `didFinishLoadingImageData(with data:for:)`: the transformer decides the image, and retry follows from it. */
  function DidFinishLoadingImageData<Image>(transform: Data -> Option<Image>, data: Data, model: FeedImage)
    : (vm: FeedImageViewModel<Image>)
    ensures !vm.isLoading && vm.image == transform(data)
    ensures vm.shouldRetry <==> transform(data).None?
  {
    var transformedImage := transform(data);
    FeedImageViewModel(model.description, model.location, transformedImage, false, transformedImage.None?)
  }

  /** The one view model the presenter displays for an event. */
  function Present<Image>(transform: Data -> Option<Image>, event: ImageLoadingEvent, model: FeedImage)
    : FeedImageViewModel<Image>
  {
    match event
    case StartedLoadingImageData => DidStartLoadingImageData(model)
    case FinishedWithError(error) => DidFinishLoadingImageDataWithError(error, model)
    case FinishedWithData(data) => DidFinishLoadingImageData(transform, data, model)
  }

  /**
   * Whatever the event, the cell shows the model's own description and
   * location, a coherent loading/image/retry state, and it is loading
   * exactly after a start.
   */
  lemma PresentIsCoherent<Image>(transform: Data -> Option<Image>, event: ImageLoadingEvent, model: FeedImage)
    ensures var vm := Present(transform, event, model);
      && vm.description == model.description
      && vm.location == model.location
      && IsCoherent(vm)
      && (vm.isLoading <==> event.StartedLoadingImageData?)
  {
  }

  /**
   * A finished load offers a retry exactly when it produced no image: after
   * an error, or after data the transformer cannot turn into an image.
   */
  lemma RetryExactlyWithoutImage<Image>(transform: Data -> Option<Image>, event: ImageLoadingEvent, model: FeedImage)
    requires !event.StartedLoadingImageData?
    ensures Present(transform, event, model).shouldRetry <==>
              event.FinishedWithError? || transform(event.data).None?
  {
  }
}
