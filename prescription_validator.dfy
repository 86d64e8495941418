/**
 * The check a prescription image passes before upload: a minimum
 * resolution, then a minimum file size.
 */
module ImageValidation {
  import opened Text

  const MinWidth := 800
  const MinHeight := 800
  const MinFileSize := 20 * 1024

  datatype ValidationResult = Valid | Invalid(reason: string)

  /** What reading the image's bounds gave: the stream could not be opened,
      the bounds (-1 each when the data is not an image), or an exception,
      `io` telling an I/O failure from any other. */
  datatype BoundsRead = CannotOpen | Bounds(width: int, height: int) | Thrown(io: bool, message: Option<string>)

  const CannotOpenReason := "Cannot open image"
  const LowResolutionReason := "Image resolution too low. Please upload a clearer image."
  const TooSmallReason := "File size too small. Please upload a proper prescription image."
  const ReadErrorPrefix := "Error reading image: "
  const FailedPrefix := "Validation failed: "

  /** `getFileSizeFromUri`: the bytes the stream reports available, 0
      without a stream, -1 when reading throws. */
  function FileSize(available: Option<int>, throws: bool): (size: int)
    ensures throws ==> size == -1
    ensures !throws && available.None? ==> size == 0
    ensures !throws && available.Some? ==> size == available.value
  {
    if throws then -1 else available.OrElse(0)
  }

  /** `validatePrescriptionImage`: the dimension check comes first, the size
      check second; an exception's missing message is printed as "null". */
  function ValidatePrescriptionImage(read: BoundsRead, fileSize: int): (r: ValidationResult)
    ensures r.Valid? <==> (read.Bounds? && read.width >= MinWidth && read.height >= MinHeight
                           && fileSize >= MinFileSize)
    ensures read.CannotOpen? ==> r == Invalid(CannotOpenReason)
    ensures read.Bounds? && (read.width < MinWidth || read.height < MinHeight) ==> r == Invalid(LowResolutionReason)
    ensures read.Bounds? && read.width >= MinWidth && read.height >= MinHeight && fileSize < MinFileSize ==>
              r == Invalid(TooSmallReason)
    ensures read.Thrown? && read.io ==> r == Invalid(ReadErrorPrefix + read.message.OrElse("null"))
    ensures read.Thrown? && !read.io ==> r == Invalid(FailedPrefix + read.message.OrElse("null"))
  {
    match read
    case CannotOpen => Invalid(CannotOpenReason)
    case Thrown(io, message) =>
      Invalid((if io then ReadErrorPrefix else FailedPrefix) + message.OrElse("null"))
    case Bounds(width, height) =>
      if width < MinWidth || height < MinHeight then Invalid(LowResolutionReason)
      else if fileSize <= 0 || fileSize < MinFileSize then Invalid(TooSmallReason)
      else Valid
  }

  /** A larger or sharper image than a valid one is valid too. */
  lemma ValidUpward(width: int, height: int, size: int, width2: int, height2: int, size2: int)
    requires ValidatePrescriptionImage(Bounds(width, height), size).Valid?
    requires width <= width2 && height <= height2 && size <= size2
    ensures ValidatePrescriptionImage(Bounds(width2, height2), size2).Valid?
  {
  }

  /** A size that could not be read never passes. */
  lemma UnreadableSizeRejected(read: BoundsRead, available: Option<int>, throws: bool)
    requires throws || available.None?
    ensures ValidatePrescriptionImage(read, FileSize(available, throws)).Invalid?
  {
  }
}
