/** The file intake component: it validates a chosen or dropped file against
    an accept string and a size limit, runs a capped progress counter, hands
    the file to its `onFileSelect` callback when the counter reaches 100, and
    shows an icon by MIME type. */
module Upload {
  import opened Common
  import opened Strings
  import opened Draws

  const DefaultAccept := "image/*, application/pdf"
  const DefaultMaxSize: real := 10.0
  const BytesPerMegabyte: nat := 1024 * 1024
  const ProgressCap: real := 100.0
  const ProgressStep: real := 15.0

  /** What `handleFileChange` did, i.e. which toast, if any, it showed. */
  datatype Intake = Ignored | InvalidType | TooLarge | Accepted

  /** `isAcceptedType`: the accept string contains '*' or contains the type. */
  predicate AcceptsType(accept: string, mimeType: string) {
    Includes(accept, "*") || Includes(accept, mimeType)
  }

  /** `fileSizeInMB > maxSize`. */
  predicate ExceedsSize(size: nat, maxSize: real) {
    (size as real) / (BytesPerMegabyte as real) > maxSize
  }

  /** Acceptance as substring occurrence: a wildcard anywhere in the accept
      string, or the type itself somewhere in it. */
  lemma AcceptsTypeIff(accept: string, mimeType: string)
    ensures AcceptsType(accept, mimeType) <==>
      (exists i :: OccursAt(accept, "*", i)) || (exists i :: OccursAt(accept, mimeType, i))
  {
    IncludesIff(accept, "*");
    IncludesIff(accept, mimeType);
  }

  /** Any accept string containing '*' accepts every type. */
  lemma WildcardAcceptsEveryType(accept: string, i: int, mimeType: string)
    requires 0 <= i < |accept| && accept[i] == '*'
    ensures AcceptsType(accept, mimeType)
  {
    assert OccursAt(accept, "*", i);
    AcceptsTypeIff(accept, mimeType);
  }

  /** So the default accept string, with its 'image' wildcard, accepts every type. */
  lemma DefaultAcceptsEveryType(mimeType: string)
    ensures AcceptsType(DefaultAccept, mimeType)
  {
    WildcardAcceptsEveryType(DefaultAccept, 6, mimeType);
  }

  /** A file with an empty type is always accepted. */
  lemma EmptyTypeAccepted(accept: string)
    ensures AcceptsType(accept, "")
  {
  }

  /** The size limit in bytes: more than maxSize * 1024 * 1024 bytes is too large. */
  lemma ExceedsSizeIff(size: nat, maxSize: real)
    ensures ExceedsSize(size, maxSize) <==> size as real > maxSize * (BytesPerMegabyte as real)
  {
  }

  /** With the default limit, 10 MiB exactly passes and one byte more does not. */
  lemma DefaultLimitBoundary()
    ensures !ExceedsSize(10 * BytesPerMegabyte, DefaultMaxSize)
    ensures ExceedsSize(10 * BytesPerMegabyte + 1, DefaultMaxSize)
  {
  }

  datatype Icon = UploadCloudIcon | FileImageIcon | FileTextIcon | FileIcon

  /** `getFileIcon`: by the MIME type of the current file. */
  function IconFor(file: Option<FileData>): (icon: Icon)
    ensures icon == UploadCloudIcon <==> file.None?
    ensures icon == FileImageIcon <==> file.Some? && StartsWith(file.value.mimeType, "image/")
    ensures icon == FileTextIcon <==> file.Some? && file.value.mimeType == "application/pdf"
    ensures icon == FileIcon <==>
      file.Some? && !StartsWith(file.value.mimeType, "image/") && file.value.mimeType != "application/pdf"
  {
    assert !StartsWith("application/pdf", "image/") by {
      assert "application/pdf"[0] != "image/"[0];
    }
    if file.None? then UploadCloudIcon
    else if StartsWith(file.value.mimeType, "image/") then FileImageIcon
    else if file.value.mimeType == "application/pdf" then FileTextIcon
    else FileIcon
  }

  datatype DragKind = DragEnter | DragOver | DragLeave

  class FileUpload {
    const accept: string
    const maxSize: real
    var dragActive: bool
    var file: Option<FileData>
    var uploadProgress: real
    var loading: bool
    /** The file captured by the running progress interval, if one runs. */
    var pending: Option<FileData>

    /** The interval runs exactly while loading, it uploads the current file,
        and its progress stays below the cap. */
    ghost predicate Valid()
      reads this
    {
      && 0.0 <= uploadProgress <= ProgressCap
      && (loading <==> pending.Some?)
      && (loading ==> file == pending && uploadProgress < ProgressCap)
    }

    /** The component as first rendered, with the given (or default) props. */
    constructor (accept: string, maxSize: real)
      ensures Valid()
      ensures this.accept == accept && this.maxSize == maxSize
      ensures !dragActive && file.None? && uploadProgress == 0.0 && !loading
    {
      this.accept := accept;
      this.maxSize := maxSize;
      dragActive := false;
      file := None;
      uploadProgress := 0.0;
      loading := false;
      pending := None;
    }

    /** `handleFileChange`. Only the first file of the list is considered;
        the type check runs before the size check; an accepted file is
        stored and its upload starts. While loading, neither the input nor
        the drop zone can deliver a file, so the handler is not reached then. */
    method HandleFileChange(files: Option<seq<FileData>>) returns (outcome: Intake)
      requires Valid() && !loading
      modifies this
      ensures Valid()
      ensures outcome == Ignored <==> files.None? || |files.value| == 0
      ensures outcome == InvalidType <==>
        files.Some? && |files.value| > 0 && !AcceptsType(accept, files.value[0].mimeType)
      ensures outcome == TooLarge <==>
        files.Some? && |files.value| > 0 && AcceptsType(accept, files.value[0].mimeType)
        && ExceedsSize(files.value[0].Size(), maxSize)
      ensures outcome == Accepted ==>
        file == Some(files.value[0]) && uploadProgress == 0.0 && loading && pending == file
      ensures outcome != Accepted ==>
        file == old(file) && uploadProgress == old(uploadProgress) && loading == old(loading)
        && pending == old(pending)
      ensures dragActive == old(dragActive)
    {
      if files.None? || |files.value| == 0 {
        return Ignored;
      }
      var selected := files.value[0];
      if !AcceptsType(accept, selected.mimeType) {
        return InvalidType;
      }
      if ExceedsSize(selected.Size(), maxSize) {
        return TooLarge;
      }
      file := Some(selected);
      SimulateUpload(selected);
      outcome := Accepted;
    }

    /** `simulateUpload`: starts loading from zero with an interval that
        captures the file. */
    method SimulateUpload(f: FileData)
      requires !loading && file == Some(f)
      modifies this
      ensures Valid()
      ensures loading && uploadProgress == 0.0 && pending == Some(f)
      ensures file == old(file) && dragActive == old(dragActive)
    {
      loading := true;
      uploadProgress := 0.0;
      pending := Some(f);
    }

    /** One firing of the progress interval: progress grows by draw * 15;
        on reaching 100 it is pinned to exactly 100, the interval is cleared,
        loading ends and the captured file is handed to `onFileSelect`
        (returned here). */
    method UploadTick(draw: real) returns (selected: Option<FileData>)
      requires Valid() && loading && IsDraw(draw)
      modifies this
      ensures Valid()
      ensures old(uploadProgress) <= uploadProgress <= ProgressCap
      ensures selected.Some? <==> old(uploadProgress) + draw * ProgressStep >= ProgressCap
      ensures selected.Some? ==>
        selected == old(pending) && uploadProgress == ProgressCap && !loading && pending.None?
      ensures selected.None? ==>
        uploadProgress == old(uploadProgress) + draw * ProgressStep && loading && pending == old(pending)
      ensures file == old(file) && dragActive == old(dragActive)
    {
      var next := uploadProgress + draw * ProgressStep;
      if next >= ProgressCap {
        selected := pending;
        pending := None;
        loading := false;
        uploadProgress := ProgressCap;
      } else {
        selected := None;
        uploadProgress := next;
      }
    }

    /** `handleDrag`: entering or moving over the zone activates it,
        leaving deactivates it. */
    method HandleDrag(kind: DragKind)
      requires Valid()
      modifies this
      ensures Valid()
      ensures dragActive == (kind == DragEnter || kind == DragOver)
      ensures file == old(file) && uploadProgress == old(uploadProgress)
      ensures loading == old(loading) && pending == old(pending)
    {
      if kind == DragEnter || kind == DragOver {
        dragActive := true;
      } else if kind == DragLeave {
        dragActive := false;
      }
    }

    /** `handleDrop`: deactivates the zone, then takes the dropped files as
        `handleFileChange` does when there are any. */
    method HandleDrop(files: Option<seq<FileData>>) returns (outcome: Intake)
      requires Valid() && !loading
      modifies this
      ensures Valid() && !dragActive
      ensures outcome == Accepted <==>
        files.Some? && |files.value| > 0 && AcceptsType(accept, files.value[0].mimeType)
        && !ExceedsSize(files.value[0].Size(), maxSize)
      ensures outcome == Accepted ==>
        file == Some(files.value[0]) && uploadProgress == 0.0 && loading
      ensures outcome != Accepted ==>
        file == old(file) && uploadProgress == old(uploadProgress) && loading == old(loading)
    {
      dragActive := false;
      if files.Some? && |files.value| > 0 {
        outcome := HandleFileChange(files);
      } else {
        outcome := Ignored;
      }
    }

    /** The Clear button, shown only when a file is present and not loading. */
    method Clear()
      requires Valid() && !loading
      modifies this
      ensures Valid()
      ensures file.None? && uploadProgress == 0.0
      ensures loading == old(loading) && pending == old(pending) && dragActive == old(dragActive)
    {
      file := None;
      uploadProgress := 0.0;
    }
  }
}
