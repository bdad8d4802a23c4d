# ShadowStamp simulated contract layer, in Dafny

ShadowStamp is a demo web front-end for document watermarking, steganography
and blockchain fingerprint registration. None of these operations does real
work. Each is a stub: it returns the input file unchanged or builds a result
from `Math.random()`. This project models that stub layer and the two pieces
of UI state around it:

- **Watermark contract** (`watermark.dfy`, module `Watermark`). `embedWatermark`
  dispatches on the algorithm and passes the bytes through. `extractWatermark`
  checks the password, flips a success coin and assembles a
  `VerificationResult`. `generateBlockchainProof` builds two `0x` + 64 hex
  identifiers with loops and draws a block number.
- **Steganography contract** (`steganography.dfy`, module `Steganography`).
  Embedding accepts images only, dispatches on the method and wraps dispatch
  errors. Extraction is a ladder of password and success checks. The
  visualization data is bounded random arrays.
- **File intake** (`file_upload.dfy`, module `Upload`). The `FileUpload`
  component is a class with the fields `dragActive`, `file`, `uploadProgress`
  and `loading`. It has an acceptance test on type and size, a capped
  progress counter and icon classification.
- **Registration session** (`blockchain_registration.dfy`, module
  `Registration`). The `BlockchainRegistration` component is a class holding
  the wallet connection, the selected file, the registration flags and the
  in-memory `records` list. Each successful registration prepends one record.

Shared pieces: `common.dfy` (files as name, MIME type and bytes; blobs;
`Option`/`Result`; JavaScript truthiness of an optional password),
`strings.dfy` (`startsWith`, `includes` and `substring`, with ECMAScript's
index clamping and empty-string cases, over strings of Unicode scalar values), `draws.dfy` (the shapes built from draws).

Every `Math.random()` value is an explicit input: a real `d` with
`0 <= d < 1`. The draws of one call are grouped in a record named after the
source expression each one feeds. A missing file (`!file`) is `None`, and a
thrown `Error` is `Err(message)`. Timed waits are dropped, so each
asynchronous handler is one sequential step.

Two behaviours of the code are easy to misread. The model follows the code
in both:

- `extractWatermark` rejects a wrong password when the draw exceeds 0.6. That
  is 40% of draws, not a majority.
- `contentType` is set only on verified results. It is never set
  independently of `isVerified`.

## Model

| member | source | states |
|---|---|---|
| `Strings.IncludesIff` | src/components/FileUpload.tsx:33 | `includes` is true exactly when the substring occurs at some position |
| `Draws.Scaled` | src/utils/watermarkUtils.ts:107 | `lo + Math.random() * width` lies in [lo, lo + width) |
| `Draws.FloorScaled` | src/utils/watermarkUtils.ts:101 | `Math.floor(Math.random() * n)` is an index in 0..n-1 |
| `Draws.Jitter` | src/utils/watermarkUtils.ts:88 | `v + (Math.random() - 0.5) * w` lies within w/2 of v |
| `Draws.Frequencies` | src/utils/watermarkUtils.ts:86-88 | both arrays have one entry per draw; originals lie in [lo, lo + width); each modified value is within half the jitter width of its original |
| `Draws.Points` | src/utils/watermarkUtils.ts:92-96 | one point per draw triple; x and y are integers in 0..99; confidence lies in [lo, 1) |
| `Watermark.Route` | src/utils/watermarkUtils.ts:55-59 | the DCT path is taken exactly when the algorithm is 'dct'; every other value takes the DWT path |
| `Watermark.EmbedWithDct` | src/utils/watermarkUtils.ts:30-38 | the blob has the file's bytes and type |
| `Watermark.EmbedWithDwt` | src/utils/watermarkUtils.ts:41-48 | the blob has the file's bytes and type |
| `Watermark.EmbedWatermark` | src/utils/watermarkUtils.ts:51-64 | fails with 'No file provided' exactly when the file is missing; otherwise returns a blob with the same bytes and type |
| `Watermark.EmbedIgnoresAlgorithm` | src/utils/watermarkUtils.ts:55-59 | the result does not depend on the algorithm |
| `Watermark.PointCount` | src/utils/watermarkUtils.ts:91 | between 3 and 10 detection points |
| `Watermark.ExtractWatermark` | src/utils/watermarkUtils.ts:67-125 | fails exactly when the file is missing. The invalid-password shape is returned iff the password is non-empty, is not 'correct_password' and its draw is > 0.6. The result is verified iff that did not happen and the success draw is > 0.2. Every result has one of three shapes, each with fixed field presence and bounds: invalid password (confidence [0, 0.3), no data); verified (watermark by content type, confidence [0.85, 1), no tampered area or the one 50x50 area at (100, 100), 50 frequencies with originals in [20, 100), 3-10 points); unverified ('Could not verify watermark integrity', confidence [0, 0.5), no watermark or content type) |
| `Watermark.HarmlessPasswordActsLikeNone` | src/utils/watermarkUtils.ts:74-80 | an empty password or 'correct_password' gives the same result as no password |
| `Watermark.WrongPasswordMayVerify` | src/utils/watermarkUtils.ts:74-83 | a wrong password whose rejection draw is <= 0.6 can still yield a verified result |
| `Watermark.ConfidenceSeparatesOutcomes` | src/utils/watermarkUtils.ts:77-119 | every verified confidence exceeds every unverified or rejected one |
| `Watermark.ModifiedFrequencyBounds` | src/utils/watermarkUtils.ts:87-88 | modified frequencies lie in [5, 115) |
| `Watermark.HexDigit` | src/utils/watermarkUtils.ts:141 | each drawn character is one of 'abcdef0123456789' |
| `Watermark.GenerateBlockchainProof` | src/utils/watermarkUtils.ts:128-162 | the loops build `hash` and `transactionId` as '0x' plus one digit per draw, so each is '0x' + 64 hex characters; the block number lies in [17000000, 17500000); the timestamp is the given one |
| `Watermark.EveryHexIdReachable` | src/utils/watermarkUtils.ts:138-148 | every '0x' + 64-hex-digit string is produced by some choice of draws, so the format is exactly the set of outputs |
| `Steganography.Dispatch` | src/utils/steganographyUtils.ts:56-65 | 'lsb', 'dct' and 'advanced' pass the file's bytes and type through; any other method fails with 'Unsupported steganography method' |
| `Steganography.EmbedSteganography` | src/utils/steganographyUtils.ts:47-70 | a missing file gives 'No file provided'. A type not starting with 'image/' gives the images-only error as is. For an image, the call succeeds iff the method is supported, and any dispatch error becomes 'Failed to embed data using steganography'. Success returns the same bytes and type |
| `Steganography.EmbeddedBlobIsImage` | src/utils/steganographyUtils.ts:51-53 | a successful embedding's blob has an 'image/' type |
| `Steganography.ExtractSteganography` | src/utils/steganographyUtils.ts:73-100 | 'requires a password' happens iff a file is present, the password is undefined and the draw is > 0.7. 'Invalid password' happens iff a file is present, the password is non-empty and not 'correct_password', and the draw is > 0.5. Success always returns the fixed message. Every error is one of the four messages |
| `Steganography.ExtractionAfterPasswordChecks` | src/utils/steganographyUtils.ts:93-99 | once both password checks pass, the result is the fixed message if the draw is > 0.2, else 'Could not detect any hidden data in this file' |
| `Steganography.EmptyPasswordSkipsChecks` | src/utils/steganographyUtils.ts:80-90 | an empty-string password triggers neither password error and behaves like 'correct_password' |
| `Steganography.DetectionCount` | src/utils/steganographyUtils.ts:121 | between 5 and 14 detection points |
| `Steganography.GenerateVisualizationData` | src/utils/steganographyUtils.ts:103-133 | 50 original and 50 modified frequencies; originals lie in [0, 100); each modified value is within 10 of its original; 5-14 points with x and y in 0..99 and confidence in [0.5, 1) |
| `Upload.AcceptsTypeIff` | src/components/FileUpload.tsx:32-33 | a type is accepted iff '*' or the type occurs somewhere in the accept string |
| `Upload.WildcardAcceptsEveryType` | src/components/FileUpload.tsx:33 | an accept string containing '*' accepts every type |
| `Upload.DefaultAcceptsEveryType` | src/components/FileUpload.tsx:16-33 | the default accept string accepts every type |
| `Upload.EmptyTypeAccepted` | src/components/FileUpload.tsx:33 | the empty type is accepted by every accept string |
| `Upload.ExceedsSizeIff` | src/components/FileUpload.tsx:44-45 | a file is too large iff its size exceeds maxSize * 1024 * 1024 bytes |
| `Upload.DefaultLimitBoundary` | src/components/FileUpload.tsx:17-45 | with the default limit, exactly 10 MiB passes and one byte more is rejected |
| `Upload.IconFor` | src/components/FileUpload.tsx:100-111 | the upload icon iff there is no file; the image icon iff the type starts with 'image/'; the text icon iff the type is exactly 'application/pdf'; the generic icon otherwise |
| `Upload.FileUpload.constructor` | src/components/FileUpload.tsx:14-22 | the props are kept; no drag, no file, progress 0, not loading |
| `Upload.FileUpload.HandleFileChange` | src/components/FileUpload.tsx:26-56 | an absent or empty list changes nothing. Only the first file is checked, type before size. A rejected file leaves the state unchanged. An accepted file is stored, progress is reset to 0 and loading starts |
| `Upload.FileUpload.SimulateUpload` | src/components/FileUpload.tsx:59-62 | loading starts from progress 0 with an interval holding the file |
| `Upload.FileUpload.UploadTick` | src/components/FileUpload.tsx:63-74 | progress grows by draw * 15 and never decreases. It is pinned to exactly 100 when it would reach 100; loading then ends and the captured file is handed to `onFileSelect`. Progress stays below 100 while loading |
| `Upload.FileUpload.HandleDrag` | src/components/FileUpload.tsx:78-87 | dragenter and dragover activate the zone; dragleave deactivates it |
| `Upload.FileUpload.HandleDrop` | src/components/FileUpload.tsx:89-97 | a drop deactivates the zone, then accepts the first file under the same rules |
| `Upload.FileUpload.Clear` | src/components/FileUpload.tsx:166-169 | the file becomes null and progress 0 |
| `Registration.RecordOf` | src/components/BlockchainRegistration.tsx:129-138 | the record copies hash, timestamp, block number and transaction id from the proof, name and type from the file, and the visibility flag |
| `Registration.DisplayAddress` | src/components/BlockchainRegistration.tsx:253-255 | an empty address shows the placeholder '0x71C...4E29' |
| `Registration.DisplayAddressParts` | src/components/BlockchainRegistration.tsx:253-255 | a non-empty address shows as its first (up to) 6 characters, '...', its last (up to) 4 characters |
| `Registration.DisplayAddressOfLongAddress` | src/components/BlockchainRegistration.tsx:253-255 | an address of 10 or more characters shows as 13 characters: its first 6, '...', its last 4 |
| `Registration.HashPreviewOfHexId` | src/components/BlockchainRegistration.tsx:440 | the records table shows the first 12 characters of a generated hash: '0x' and 10 hex digits |
| `Registration.BlockchainRegistration.constructor` | src/components/BlockchainRegistration.tsx:35-43 | not connected, empty address, no file, private, no registration, no records |
| `Registration.BlockchainRegistration.ConnectMetaMask` | src/components/BlockchainRegistration.tsx:53-78 | a non-empty account list connects with its first account. No provider, a failed request or an empty list leave the connection unchanged |
| `Registration.BlockchainRegistration.DisconnectWallet` | src/components/BlockchainRegistration.tsx:98-102 | disconnected with an empty address; nothing else changes |
| `Registration.BlockchainRegistration.HandleFileSelect` | src/components/BlockchainRegistration.tsx:104-108 | the file is stored; the completion flag and proof are cleared; records are untouched |
| `Registration.BlockchainRegistration.SetPublic` | src/components/BlockchainRegistration.tsx:299-300 | only the visibility flag changes |
| `Registration.BlockchainRegistration.RegisterOnBlockchain` | src/components/BlockchainRegistration.tsx:110-149 | with no file nothing changes. Otherwise the proof is stored, the registration is complete, and `records` becomes the new record followed by the old records. `isRegistering` is false afterwards. The invariant `Valid` is kept: a completed registration shows the proof of the newest record, made from the current file (under the one-step reading of the handler; see "Left out"), and every record has well-formed identifiers |

## Left out

- Timed waits, `setInterval`/`setTimeout` scheduling, promises and `console.log`. Each handler or stub call is one sequential step, and each firing of the upload interval is one `UploadTick`.
- `Math.random()` as a generator, `new Date().toISOString()` and the record id `Math.random().toString(36).substring(2, 9)`. They are inputs of the calls that use them.
- Reading a file's bytes cannot fail in the model. So the catch branch of `embedWatermark` ('Failed to embed watermark') and the catch branch of `registerOnBlockchain` are unreachable here.
- The file argument of `generateBlockchainProof` and of `generateVisualizationData` is never read by the source, so these functions have no file parameter.
- Option fields other than `algorithm` and `method` (content, strength, redundancy, encryption, password, QR code, message, quality) are carried but never read, as in the source.
- `Upload.FileUpload.HandleFileChange`, `HandleDrop` and `Clear` require that no upload is running. While loading, the drop zone is disabled by its CSS class, and the file input and the Clear/Change buttons are not rendered. So the source never runs two progress intervals at once.
- Upload completion is not proved: draws of 0 never advance the progress counter.
- Wallet plumbing: `connectOtherWallet` (a timer-driven fake connection), the `hasMetaMask` detection effect, clipboard copying, the records download and JSON export, and the active tab.
- Rendering: toasts, JSX markup, charts, QR codes and 3D scenes. Page orchestration in `Embed` and `Verify` is also left out.
- Draws.Scaled: arithmetic is exact over reals. JavaScript numbers are IEEE doubles, and a draw just below 1 (such as 1 - 2^-52) can round `lo + d * width` up to exactly `lo + width`. So the half-open upper bound can hold with equality in the program.
- Draws.Points: the confidence bound `< 1` is proved over exact reals. In doubles, `0.6 + d * 0.4` or `0.5 + d * 0.5` can round to exactly 1.0 for a draw just below 1.
- Draws.Frequencies: the upper bounds on original values and on the jitter are proved over exact reals. IEEE rounding can make them hold with equality.
- Watermark.ExtractWatermark: the confidence bounds (verified `< 1.0`, rejected `< 0.3`, unverified `< 0.5`) are proved over exact reals. In doubles, `0.85 + d * 0.15` can evaluate to exactly 1.0.
- Steganography.GenerateVisualizationData: the bounds on frequencies and point confidence (`< 1.0`) are proved over exact reals. IEEE rounding can make them hold with equality.
- Strings.Substring: strings are sequences of Unicode scalar values, not UTF-16 code units. `substring`, `includes` and `startsWith` therefore differ from JavaScript on text outside the Basic Multilingual Plane (a surrogate pair counts as two units there and one character here). Hex hashes, wallet addresses and ASCII MIME types are unaffected.
- Registration.BlockchainRegistration.RegisterOnBlockchain: the handler runs as one atomic step. In the program, the file picker stays active during the awaits of about 3 seconds. A new file can finish uploading and run `handleFileSelect` in that window, and the earlier registration then completes with a record for the old file while `file` is the new one. The `Valid` conjunct "the newest record was made from the current file" does not hold under that interleaving.
