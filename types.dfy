/** The records and the state enumeration shared by the app and its services. */
module Types {

  /** The kid-friendly description of one landmark. */
  datatype LandmarkData = LandmarkData(
    name: string,
    history: string,
    funFacts: seq<string>,
    architecture: string,
    visitInfo: string)

  /** The five screens of the app; exactly one is active. */
  datatype AppState = HOME | ANALYZING_IMAGE | FETCHING_INFO | RESULT | ERROR

  /** One (label, confidence) pair produced by the classifier. Probabilities
      are only compared, so they are modelled as reals. */
  datatype PredictionResult = PredictionResult(className: string, probability: real)

  /** The bytes of an image, as produced by the canvas or the file picker. */
  type Blob = seq<bv8>

  /** A browser `File`: its name, its MIME type and its contents. */
  datatype ImageFile = ImageFile(name: string, mimeType: string, data: Blob)
}
