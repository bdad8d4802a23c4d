/** Value types shared by the watermark, steganography and registration code:
    the abstraction of a browser File and Blob, the error-carrying result of
    every simulated operation, and the demo password both extractors compare
    against. */
module Common {

  newtype Byte = b: int | 0 <= b < 256

  /** A browser File reduced to what the core reads: its name, its MIME type
      (`file.type`) and its bytes (`file.arrayBuffer()`). */
  datatype FileData = FileData(name: string, mimeType: string, bytes: seq<Byte>) {
    /** `file.size`: the number of bytes. */
    function Size(): nat { |bytes| }
  }

  /** A Blob: MIME type and bytes. */
  datatype Blob = Blob(mimeType: string, bytes: seq<Byte>)

  datatype Option<T> = None | Some(value: T)

  /** A resolved promise (`Ok`) or a rejected one carrying the Error's message. */
  datatype Result<T> = Ok(value: T) | Err(message: string)

  const NoFileProvided := "No file provided"

  /** The one password the simulated extractors treat as right. */
  const CorrectPassword := "correct_password"

  /** JavaScript truthiness of an optional string: present and non-empty. */
  predicate Truthy(password: Option<string>) {
    password.Some? && password.value != ""
  }

  /** `new Blob([await file.arrayBuffer()], { type: file.type })`: a copy of
      the file's bytes under the file's type. */
  function CopyToBlob(file: FileData): Blob {
    Blob(file.mimeType, file.bytes)
  }
}
