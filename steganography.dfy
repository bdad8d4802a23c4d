/** The simulated steganography contract: embedding accepts only images and
    passes them through, extraction is a ladder of password and success
    checks over draws, and visualization data is bounded random arrays. */
module Steganography {
  import opened Common
  import opened Strings
  import opened Draws

  /** Options of an embedding (`method` is a keyword here, hence `embedMethod`);
      only the method is read by the simulation. */
  datatype SteganographyOptions = SteganographyOptions(
    message: string,
    password: Option<string>,
    embedMethod: string,
    quality: Option<int>)

  const ImagesOnlyMessage := "Steganography currently only supports image files"
  const UnsupportedMethodMessage := "Unsupported steganography method"
  const EmbedFailedMessage := "Failed to embed data using steganography"
  const PasswordRequiredMessage := "This file requires a password to extract the hidden data"
  const InvalidPasswordMessage := "Invalid password for steganography extraction"
  const NoHiddenDataMessage := "Could not detect any hidden data in this file"
  const HiddenMessage := "Successfully extracted hidden message: This is a simulated steganography message"

  // ---------------------------------------------------------------------
  // Embedding
  // ---------------------------------------------------------------------

  predicate SupportedMethod(name: string) {
    name == "lsb" || name == "dct" || name == "advanced"
  }

  /** The `switch` on `options.method` inside the try block: the three
      simulated paths pass the file through; any other method throws. */
  function Dispatch(file: FileData, options: SteganographyOptions): (r: Result<Blob>)
    ensures r.Ok? <==> SupportedMethod(options.embedMethod)
    ensures r.Ok? ==> r.value.bytes == file.bytes && r.value.mimeType == file.mimeType
    ensures r.Err? ==> r.message == UnsupportedMethodMessage
  {
    match options.embedMethod
    case "lsb" => Ok(CopyToBlob(file))
    case "dct" => Ok(CopyToBlob(file))
    case "advanced" => Ok(CopyToBlob(file))
    case _ => Err(UnsupportedMethodMessage)
  }

  /** `embedSteganography`: the file and MIME checks run first and their
      errors surface as they are; every error of the dispatch is replaced by
      one generic message. */
  function EmbedSteganography(file: Option<FileData>, options: SteganographyOptions): (r: Result<Blob>)
    ensures file.None? ==> r == Err(NoFileProvided)
    ensures file.Some? && !StartsWith(file.value.mimeType, "image/") ==> r == Err(ImagesOnlyMessage)
    ensures file.Some? && StartsWith(file.value.mimeType, "image/") ==>
      (r.Ok? <==> SupportedMethod(options.embedMethod))
    ensures file.Some? && StartsWith(file.value.mimeType, "image/") && r.Err? ==> r.message == EmbedFailedMessage
    ensures r.Ok? ==> r.value.bytes == file.value.bytes && r.value.mimeType == file.value.mimeType
  {
    if file.None? then Err(NoFileProvided)
    else if !StartsWith(file.value.mimeType, "image/") then Err(ImagesOnlyMessage)
    else match Dispatch(file.value, options)
      case Ok(blob) => Ok(blob)
      case Err(_) => Err(EmbedFailedMessage)
  }

  /** Only image files are ever embedded into: a successful embedding's blob
      has an 'image/' type. */
  lemma EmbeddedBlobIsImage(file: Option<FileData>, options: SteganographyOptions)
    requires EmbedSteganography(file, options).Ok?
    ensures StartsWith(EmbedSteganography(file, options).value.mimeType, "image/")
  {
  }

  // ---------------------------------------------------------------------
  // Extraction
  // ---------------------------------------------------------------------

  /** The draws `extractSteganography` may consume; each is taken only on the
      branch that reads it. */
  datatype ExtractionDraws = ExtractionDraws(
    passwordRequired: real,  // `Math.random() > 0.7` when no password is given
    wrongPassword: real,     // `Math.random() > 0.5` on a wrong password
    success: real)           // `Math.random() > 0.2`

  predicate ValidDraws(d: ExtractionDraws) {
    IsDraw(d.passwordRequired) && IsDraw(d.wrongPassword) && IsDraw(d.success)
  }

  /** `extractSteganography`. */
  function ExtractSteganography(file: Option<FileData>, password: Option<string>, d: ExtractionDraws): (r: Result<string>)
    requires ValidDraws(d)
    ensures file.None? ==> r == Err(NoFileProvided)
    ensures r == Err(PasswordRequiredMessage) <==>
      file.Some? && password.None? && d.passwordRequired > 0.7
    ensures r == Err(InvalidPasswordMessage) <==>
      file.Some? && Truthy(password) && password.value != CorrectPassword && d.wrongPassword > 0.5
    ensures r.Ok? ==> r.value == HiddenMessage
    ensures r.Err? ==> r.message in {NoFileProvided, PasswordRequiredMessage, InvalidPasswordMessage, NoHiddenDataMessage}
  {
    if file.None? then Err(NoFileProvided)
    else if password.None? && d.passwordRequired > 0.7 then Err(PasswordRequiredMessage)
    else if Truthy(password) && password.value != CorrectPassword && d.wrongPassword > 0.5 then Err(InvalidPasswordMessage)
    else if d.success > 0.2 then Ok(HiddenMessage)
    else Err(NoHiddenDataMessage)
  }

  /** Once both password checks pass, the success draw alone decides. */
  lemma ExtractionAfterPasswordChecks(file: FileData, password: Option<string>, d: ExtractionDraws)
    requires ValidDraws(d)
    requires !(password.None? && d.passwordRequired > 0.7)
    requires !(Truthy(password) && password.value != CorrectPassword && d.wrongPassword > 0.5)
    ensures ExtractSteganography(Some(file), password, d) ==
      (if d.success > 0.2 then Ok(HiddenMessage) else Err(NoHiddenDataMessage))
  {
  }

  /** An empty-string password takes neither password branch: it behaves
      like the demo password. */
  lemma EmptyPasswordSkipsChecks(file: Option<FileData>, d: ExtractionDraws)
    requires ValidDraws(d)
    ensures ExtractSteganography(file, Some(""), d) == ExtractSteganography(file, Some(CorrectPassword), d)
    ensures ExtractSteganography(file, Some(""), d) != Err(PasswordRequiredMessage)
    ensures ExtractSteganography(file, Some(""), d) != Err(InvalidPasswordMessage)
  {
  }

  // ---------------------------------------------------------------------
  // Visualization data
  // ---------------------------------------------------------------------

  datatype VisualizationData = VisualizationData(
    originalFrequencies: seq<real>,
    modifiedFrequencies: seq<real>,
    detectionPoints: seq<DetectionPoint>)

  /** The draws `generateVisualizationData` consumes, in order. */
  datatype VisualizationDraws = VisualizationDraws(
    base: seq<real>,        // one per original frequency
    jitter: seq<real>,      // one per modified frequency
    pointCount: real,       // `5 + Math.floor(Math.random() * 10)`
    points: seq<PointDraw>) // three per detection point

  const VisualizationLength := 50

  /** Between 5 and 14 detection points. */
  function DetectionCount(d: real): (n: nat)
    requires IsDraw(d)
    ensures 5 <= n <= 14
  {
    5 + FloorScaled(d, 10)
  }

  predicate ValidVisualizationDraws(d: VisualizationDraws) {
    && AllDraws(d.base) && |d.base| == VisualizationLength
    && AllDraws(d.jitter) && |d.jitter| == VisualizationLength
    && IsDraw(d.pointCount) && AllPointDraws(d.points) && |d.points| == DetectionCount(d.pointCount)
  }

  /** `generateVisualizationData`. Its file argument is never read, so it is
      not a parameter here. */
  function GenerateVisualizationData(d: VisualizationDraws): (v: VisualizationData)
    requires ValidVisualizationDraws(d)
    ensures |v.originalFrequencies| == VisualizationLength && |v.modifiedFrequencies| == VisualizationLength
    ensures forall i :: 0 <= i < VisualizationLength ==> 0.0 <= v.originalFrequencies[i] < 100.0
    ensures forall i :: 0 <= i < VisualizationLength ==>
      v.originalFrequencies[i] - 10.0 <= v.modifiedFrequencies[i] < v.originalFrequencies[i] + 10.0
    ensures 5 <= |v.detectionPoints| <= 14
    ensures forall i :: 0 <= i < |v.detectionPoints| ==> PointWithin(v.detectionPoints[i], 0.5)
  {
    var frequencies := Frequencies(d.base, d.jitter, 0.0, 100.0, 20.0);
    VisualizationData(frequencies.original, frequencies.modified, Points(d.points, 0.5))
  }
}
