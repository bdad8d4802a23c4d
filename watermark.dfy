/** The simulated watermark contract: embedding passes the file through,
    extraction builds a VerificationResult from a password check and draws,
    and a blockchain proof is two random 64-digit hex identifiers and a block
    number. */
module Watermark {
  import opened Common
  import opened Draws

  datatype WatermarkType = TextMark | ImageMark | LinkMark

  /** Options of an embedding; only `algorithm` is read by the simulation. */
  datatype WatermarkOptions = WatermarkOptions(
    watermarkType: WatermarkType,
    content: string,
    strength: Option<int>,
    algorithm: string,
    redundancy: Option<int>,
    encryption: Option<bool>,
    password: Option<string>,
    qrCode: Option<string>)

  datatype ContentType = TextContent | QrContent | LinkContent

  datatype Area = Area(x: int, y: int, width: int, height: int)

  /** Every field but `isVerified` is optional, as in the source's interface. */
  datatype VerificationResult = VerificationResult(
    isVerified: bool,
    originalWatermark: Option<string>,
    confidenceScore: Option<real>,
    tamperedAreas: Option<seq<Area>>,
    errorMessage: Option<string>,
    frequencyData: Option<FrequencyData>,
    detectionPoints: Option<seq<DetectionPoint>>,
    contentType: Option<ContentType>)

  const InvalidPasswordMessage := "Invalid password for watermark extraction"
  const IntegrityMessage := "Could not verify watermark integrity"
  const QrWatermark := "https://example.com/qr-content"
  const TextWatermark := "Simulated extracted watermark content"
  const ContentTypes: seq<ContentType> := [TextContent, QrContent, LinkContent]
  const SuspectedArea := Area(100, 100, 50, 50)
  const FrequencyLength := 50

  // ---------------------------------------------------------------------
  // Embedding
  // ---------------------------------------------------------------------

  /** The two simulated embedding paths. */
  datatype EmbedPath = DctPath | DwtPath

  /** The dispatch on `options.algorithm`: 'dct' and nothing else takes the
      DCT path. */
  function Route(algorithm: string): (p: EmbedPath)
    ensures p == DctPath <==> algorithm == "dct"
  {
    if algorithm == "dct" then DctPath else DwtPath
  }

  /** `embedWithDCT`: returns the file's bytes unchanged, under its type. */
  function EmbedWithDct(file: FileData, options: WatermarkOptions): (b: Blob)
    ensures b.bytes == file.bytes && b.mimeType == file.mimeType
  {
    CopyToBlob(file)
  }

  /** `embedWithDWT`: returns the file's bytes unchanged, under its type. */
  function EmbedWithDwt(file: FileData, options: WatermarkOptions): (b: Blob)
    ensures b.bytes == file.bytes && b.mimeType == file.mimeType
  {
    CopyToBlob(file)
  }

  /** `embedWatermark`: a missing file is rejected; otherwise the blob carries
      the same bytes and type as the file, whichever path runs. */
  function EmbedWatermark(file: Option<FileData>, options: WatermarkOptions): (r: Result<Blob>)
    ensures r.Err? <==> file.None?
    ensures r.Err? ==> r.message == NoFileProvided
    ensures r.Ok? ==> r.value.bytes == file.value.bytes && r.value.mimeType == file.value.mimeType
  {
    if file.None? then Err(NoFileProvided)
    else match Route(options.algorithm)
      case DctPath => Ok(EmbedWithDct(file.value, options))
      case DwtPath => Ok(EmbedWithDwt(file.value, options))
  }

  /** The choice of algorithm does not change what embedding returns. */
  lemma EmbedIgnoresAlgorithm(file: Option<FileData>, a: WatermarkOptions, b: WatermarkOptions)
    ensures EmbedWatermark(file, a) == EmbedWatermark(file, b)
  {
  }

  // ---------------------------------------------------------------------
  // Extraction
  // ---------------------------------------------------------------------

  /** The draws `extractWatermark` consumes, in the order the source takes
      them; a draw on a branch not taken is simply unused. */
  datatype ExtractionDraws = ExtractionDraws(
    passwordCoin: real,        // `Math.random() > 0.6` on a wrong password
    rejectedConfidence: real,  // confidence of the invalid-password result
    success: real,             // `Math.random() > 0.2`
    base: seq<real>,           // one per original frequency
    jitter: seq<real>,         // one per modified frequency
    pointCount: real,          // `Math.floor(Math.random() * 8) + 3`
    points: seq<PointDraw>,    // three per detection point
    contentType: real,         // index into ['text', 'qr', 'link']
    confidence: real,          // confidence of the verified or unverified result
    tamper: real)              // `Math.random() > 0.7` adds the suspected area

  /** Between 3 and 10 detection points. */
  function PointCount(d: real): (n: nat)
    requires IsDraw(d)
    ensures 3 <= n <= 10
  {
    FloorScaled(d, 8) + 3
  }

  predicate ValidDraws(d: ExtractionDraws) {
    && IsDraw(d.passwordCoin) && IsDraw(d.rejectedConfidence) && IsDraw(d.success)
    && AllDraws(d.base) && |d.base| == FrequencyLength
    && AllDraws(d.jitter) && |d.jitter| == FrequencyLength
    && IsDraw(d.pointCount) && AllPointDraws(d.points) && |d.points| == PointCount(d.pointCount)
    && IsDraw(d.contentType) && IsDraw(d.confidence) && IsDraw(d.tamper)
  }

  /** The condition under which the invalid-password result is returned:
      a non-empty password other than the demo one, and a coin above 0.6. */
  predicate RejectsPassword(password: Option<string>, coin: real) {
    Truthy(password) && password.value != CorrectPassword && coin > 0.6
  }

  /** The invalid-password result: nothing but a low confidence and the error. */
  predicate RejectedShape(v: VerificationResult) {
    && !v.isVerified
    && v.confidenceScore.Some? && 0.0 <= v.confidenceScore.value < 0.3
    && v.errorMessage == Some(InvalidPasswordMessage)
    && v.originalWatermark.None? && v.contentType.None? && v.tamperedAreas.None?
    && v.frequencyData.None? && v.detectionPoints.None?
  }

  /** The chart data both non-password results carry. */
  predicate ChartData(v: VerificationResult) {
    && v.frequencyData.Some?
    && |v.frequencyData.value.original| == FrequencyLength
    && |v.frequencyData.value.modified| == FrequencyLength
    && (forall i :: 0 <= i < FrequencyLength ==> 20.0 <= v.frequencyData.value.original[i] < 100.0)
    && (forall i :: 0 <= i < FrequencyLength ==>
          v.frequencyData.value.original[i] - 15.0 <= v.frequencyData.value.modified[i] < v.frequencyData.value.original[i] + 15.0)
    && v.detectionPoints.Some?
    && 3 <= |v.detectionPoints.value| <= 10
    && (forall i :: 0 <= i < |v.detectionPoints.value| ==> PointWithin(v.detectionPoints.value[i], 0.6))
  }

  /** The watermark text each content type reports. */
  function WatermarkFor(t: ContentType): string {
    if t == QrContent then QrWatermark else TextWatermark
  }

  /** A verified result carries every field but the error. */
  predicate VerifiedShape(v: VerificationResult) {
    && v.isVerified
    && v.contentType.Some?
    && v.originalWatermark == Some(WatermarkFor(v.contentType.value))
    && v.confidenceScore.Some? && 0.85 <= v.confidenceScore.value < 1.0
    && (v.tamperedAreas == Some([]) || v.tamperedAreas == Some([SuspectedArea]))
    && v.errorMessage.None?
    && ChartData(v)
  }

  /** A failed integrity check: chart data and the error, no watermark. */
  predicate UnverifiedShape(v: VerificationResult) {
    && !v.isVerified
    && v.confidenceScore.Some? && 0.0 <= v.confidenceScore.value < 0.5
    && v.errorMessage == Some(IntegrityMessage)
    && v.originalWatermark.None? && v.contentType.None? && v.tamperedAreas.None?
    && ChartData(v)
  }

  /** `extractWatermark`. */
  function ExtractWatermark(file: Option<FileData>, password: Option<string>, d: ExtractionDraws): (r: Result<VerificationResult>)
    requires ValidDraws(d)
    ensures r.Err? <==> file.None?
    ensures r.Err? ==> r.message == NoFileProvided
    ensures r.Ok? ==> (RejectedShape(r.value) <==> RejectsPassword(password, d.passwordCoin))
    ensures r.Ok? ==> (r.value.isVerified <==> !RejectsPassword(password, d.passwordCoin) && d.success > 0.2)
    ensures r.Ok? ==> RejectedShape(r.value) || VerifiedShape(r.value) || UnverifiedShape(r.value)
  {
    if file.None? then Err(NoFileProvided)
    else if RejectsPassword(password, d.passwordCoin) then
      Ok(VerificationResult(
        isVerified := false,
        originalWatermark := None,
        confidenceScore := Some(Scaled(d.rejectedConfidence, 0.0, 0.3)),
        tamperedAreas := None,
        errorMessage := Some(InvalidPasswordMessage),
        frequencyData := None,
        detectionPoints := None,
        contentType := None))
    else
      var frequencies := Frequencies(d.base, d.jitter, 20.0, 80.0, 30.0);
      var points := Points(d.points, 0.6);
      var contentType := ContentTypes[FloorScaled(d.contentType, |ContentTypes|)];
      if d.success > 0.2 then
        Ok(VerificationResult(
          isVerified := true,
          originalWatermark := Some(WatermarkFor(contentType)),
          confidenceScore := Some(Scaled(d.confidence, 0.85, 0.15)),
          tamperedAreas := Some(if d.tamper > 0.7 then [SuspectedArea] else []),
          errorMessage := None,
          frequencyData := Some(frequencies),
          detectionPoints := Some(points),
          contentType := Some(contentType)))
      else
        Ok(VerificationResult(
          isVerified := false,
          originalWatermark := None,
          confidenceScore := Some(Scaled(d.confidence, 0.0, 0.5)),
          tamperedAreas := None,
          errorMessage := Some(IntegrityMessage),
          frequencyData := Some(frequencies),
          detectionPoints := Some(points),
          contentType := None))
  }

  /** An empty password, or the demo one, is never checked: extraction then
      behaves exactly as with no password. */
  lemma HarmlessPasswordActsLikeNone(file: Option<FileData>, password: Option<string>, d: ExtractionDraws)
    requires ValidDraws(d)
    requires !Truthy(password) || password.value == CorrectPassword
    ensures ExtractWatermark(file, password, d) == ExtractWatermark(file, None, d)
  {
  }

  /** The simulation lets a wrong password through: when the rejection coin
      stays at or below 0.6, a wrong password can yield a verified result. */
  lemma WrongPasswordMayVerify(file: FileData, password: string, d: ExtractionDraws)
    requires ValidDraws(d)
    requires password != "" && password != CorrectPassword
    requires d.passwordCoin <= 0.6 && d.success > 0.2
    ensures ExtractWatermark(Some(file), Some(password), d).Ok?
    ensures ExtractWatermark(Some(file), Some(password), d).value.isVerified
  {
  }

  /** Every verified confidence is above every unverified one. */
  lemma ConfidenceSeparatesOutcomes(v: VerificationResult, w: VerificationResult)
    requires VerifiedShape(v)
    requires RejectedShape(w) || UnverifiedShape(w)
    ensures v.confidenceScore.value > w.confidenceScore.value
  {
  }

  /** Modified frequencies stay within 15 of their originals, so in [5, 115). */
  lemma ModifiedFrequencyBounds(v: VerificationResult, i: int)
    requires VerifiedShape(v) || UnverifiedShape(v)
    requires 0 <= i < FrequencyLength
    ensures 5.0 <= v.frequencyData.value.modified[i] < 115.0
  {
  }

  // ---------------------------------------------------------------------
  // Blockchain proof
  // ---------------------------------------------------------------------

  datatype BlockchainProof = BlockchainProof(
    hash: string,
    timestamp: string,
    blockNumber: int,
    transactionId: string)

  const HexAlphabet := "abcdef0123456789"
  const HexDigitCount := 64

  /** The hex digit one draw selects: `characters.charAt(Math.floor(Math.random() * 16))`. */
  function HexDigit(d: real): (c: char)
    requires IsDraw(d)
    ensures c in HexAlphabet
  {
    HexAlphabet[FloorScaled(d, |HexAlphabet|)]
  }

  /** The string the loops at lines 139-148 build: '0x' and one digit per draw. */
  function HexId(draws: seq<real>): (s: string)
    requires AllDraws(draws)
  {
    "0x" + seq(|draws|, i requires 0 <= i < |draws| => HexDigit(draws[i]))
  }

  /** '0x' followed by exactly 64 characters of 'abcdef0123456789'. */
  predicate IsHexId(s: string) {
    |s| == 2 + HexDigitCount && s[..2] == "0x" && forall i :: 2 <= i < |s| ==> s[i] in HexAlphabet
  }

  /** `generateBlockchainProof`. The file argument is not read by the source
      (the hash does not depend on the content), so it is not a parameter here. */
  method GenerateBlockchainProof(hashDraws: seq<real>, txDraws: seq<real>, timestamp: string, blockDraw: real)
    returns (proof: BlockchainProof)
    requires |hashDraws| == HexDigitCount && AllDraws(hashDraws)
    requires |txDraws| == HexDigitCount && AllDraws(txDraws)
    requires IsDraw(blockDraw)
    ensures proof.hash == HexId(hashDraws) && IsHexId(proof.hash)
    ensures proof.transactionId == HexId(txDraws) && IsHexId(proof.transactionId)
    ensures 17000000 <= proof.blockNumber < 17500000
    ensures proof.timestamp == timestamp
  {
    var hash := "0x";
    for i := 0 to HexDigitCount
      invariant hash == HexId(hashDraws[..i])
    {
      hash := hash + [HexDigit(hashDraws[i])];
      assert hashDraws[..i + 1] == hashDraws[..i] + [hashDraws[i]];
    }
    assert hashDraws[..HexDigitCount] == hashDraws;

    var txId := "0x";
    for i := 0 to HexDigitCount
      invariant txId == HexId(txDraws[..i])
    {
      txId := txId + [HexDigit(txDraws[i])];
      assert txDraws[..i + 1] == txDraws[..i] + [txDraws[i]];
    }
    assert txDraws[..HexDigitCount] == txDraws;

    var blockNumber := 17000000 + FloorScaled(blockDraw, 500000);
    proof := BlockchainProof(hash, timestamp, blockNumber, txId);
  }

  /** Position of a hex character in the alphabet. */
  function HexIndex(c: char): (k: nat)
    requires c in HexAlphabet
    ensures k < |HexAlphabet| && HexAlphabet[k] == c
  {
    if c == 'a' then 0 else if c == 'b' then 1 else if c == 'c' then 2
    else if c == 'd' then 3 else if c == 'e' then 4 else if c == 'f' then 5
    else if c == '0' then 6 else if c == '1' then 7 else if c == '2' then 8
    else if c == '3' then 9 else if c == '4' then 10 else if c == '5' then 11
    else if c == '6' then 12 else if c == '7' then 13 else if c == '8' then 14
    else 15
  }

  /** The draw k/16 selects the k-th digit. */
  lemma DigitOfIndex(k: nat)
    requires k < |HexAlphabet|
    ensures IsDraw(k as real / 16.0) && HexDigit(k as real / 16.0) == HexAlphabet[k]
  {
  }

  /** Every well-formed identifier is one the generator can produce, so the
      identifier format is exactly the set of possible outputs. */
  lemma EveryHexIdReachable(s: string)
    requires IsHexId(s)
    ensures exists draws :: |draws| == HexDigitCount && AllDraws(draws) && HexId(draws) == s
  {
    var draws := seq(HexDigitCount, i requires 0 <= i < HexDigitCount => HexIndex(s[i + 2]) as real / 16.0);
    forall i | 0 <= i < HexDigitCount
      ensures IsDraw(draws[i]) && HexDigit(draws[i]) == s[i + 2]
    {
      DigitOfIndex(HexIndex(s[i + 2]));
    }
    assert HexId(draws) == s;
  }
}
