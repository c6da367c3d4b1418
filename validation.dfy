/** The checks the POST handlers make on a request before any upload, enqueue or record write.
    Each check answers None (accepted) or the HTTP error the handler raises. */
module Validation {
  import opened Wrappers
  import opened Text
  import opened Media

  /** An uploaded file as the handler sees it: the declared content type and the bytes. */
  datatype UploadFile = UploadFile(contentType: string, data: Bytes)

  /** An HTTPException: the status code and the detail text. */
  datatype HttpError = HttpError(code: nat, detail: string)

  const BadRequest: nat := 400
  const NotFound: nat := 404
  const ServerError: nat := 500

  const PdfType: string := "application/pdf"
  const ImagePrefix: string := "image/"

  /** The target formats the convert handler accepts, lower-cased. */
  const ValidFormats: seq<string> := ["jpg", "jpeg", "png", "webp", "bmp", "tiff", "gif"]

  /** The compression levels the PDF compress handler accepts. */
  const ValidLevels: seq<string> := ["low", "medium", "high"]

  predicate IsImage(contentType: string)
  {
    StartsWith(contentType, ImagePrefix)
  }

  function NotAnImage(): HttpError
  {
    HttpError(BadRequest, "File must be an image")
  }

  function NotAPdf(): HttpError
  {
    HttpError(BadRequest, "File must be a PDF")
  }

  /** POST /image/compress: an image type, and a quality from 1 to 100. */
  function CheckCompressImage(contentType: string, quality: int): (r: Option<HttpError>)
    ensures r.None? <==> IsImage(contentType) && 1 <= quality <= 100
    ensures !IsImage(contentType) ==> r == Some(NotAnImage())
    ensures IsImage(contentType) && r.Some? ==> r.value == HttpError(BadRequest, "Quality must be between 1 and 100")
  {
    if !IsImage(contentType) then Some(NotAnImage())
    else if quality < 1 || quality > 100 then Some(HttpError(BadRequest, "Quality must be between 1 and 100"))
    else None
  }

  /** POST /image/resize: an image type, and a positive width and height. */
  function CheckResize(contentType: string, width: int, height: int): (r: Option<HttpError>)
    ensures r.None? <==> IsImage(contentType) && width > 0 && height > 0
    ensures !IsImage(contentType) ==> r == Some(NotAnImage())
    ensures IsImage(contentType) && r.Some? ==> r.value == HttpError(BadRequest, "Width and height must be positive")
  {
    if !IsImage(contentType) then Some(NotAnImage())
    else if width <= 0 || height <= 0 then Some(HttpError(BadRequest, "Width and height must be positive"))
    else None
  }

  /** The detail of a rejected target format, listing the accepted ones. */
  function InvalidFormat(): HttpError
  {
    HttpError(BadRequest, "Invalid format. Must be one of: " + Join(ValidFormats, ", "))
  }

  /** POST /image/convert: an image type, and a target that lower-cases to a listed format. */
  function CheckConvert(contentType: string, targetFormat: string): (r: Option<HttpError>)
    ensures r.None? <==> IsImage(contentType) && Lower(targetFormat) in ValidFormats
    ensures !IsImage(contentType) ==> r == Some(NotAnImage())
    ensures IsImage(contentType) && r.Some? ==> r.value == InvalidFormat()
  {
    if !IsImage(contentType) then Some(NotAnImage())
    else if Lower(targetFormat) !in ValidFormats then Some(InvalidFormat())
    else None
  }

  function InvalidLevel(): HttpError
  {
    HttpError(BadRequest, "Invalid compression level. Must be one of: " + Join(ValidLevels, ", "))
  }

  /** POST /pdf/compress: exactly the PDF type, and a listed level (case-sensitive). */
  function CheckCompressPdf(contentType: string, level: string): (r: Option<HttpError>)
    ensures r.None? <==> contentType == PdfType && level in ValidLevels
    ensures contentType != PdfType ==> r == Some(NotAPdf())
    ensures contentType == PdfType && r.Some? ==> r.value == InvalidLevel()
  {
    if contentType != PdfType then Some(NotAPdf())
    else if level !in ValidLevels then Some(InvalidLevel())
    else None
  }

  /** POST /pdf/extract: exactly the PDF type; the page range is checked by the worker only. */
  function CheckExtract(contentType: string): (r: Option<HttpError>)
    ensures r.None? <==> contentType == PdfType
    ensures r.Some? ==> r.value == NotAPdf()
  {
    if contentType != PdfType then Some(NotAPdf()) else None
  }

  /** POST /pdf/merge: at least two files, every one of exactly the PDF type. The count is
      checked first. */
  function CheckMerge(files: seq<UploadFile>): (r: Option<HttpError>)
    ensures r.None? <==> |files| >= 2 && forall i :: 0 <= i < |files| ==> files[i].contentType == PdfType
    ensures |files| < 2 ==> r == Some(HttpError(BadRequest, "At least 2 PDF files are required for merging"))
    ensures |files| >= 2 && r.Some? ==> r.value == HttpError(BadRequest, "All files must be PDFs")
  {
    if |files| < 2 then Some(HttpError(BadRequest, "At least 2 PDF files are required for merging"))
    else if exists i :: 0 <= i < |files| && files[i].contentType != PdfType then Some(HttpError(BadRequest, "All files must be PDFs"))
    else None
  }

  /** Content types are compared exactly: a PDF endpoint rejects any other spelling of the PDF
      type, and no PDF passes the image check. */
  lemma PdfIsNotAnImage()
    ensures !IsImage(PdfType)
    ensures CheckExtract("application/PDF").Some?
  {
    assert PdfType[..|ImagePrefix|] != ImagePrefix by {
      assert PdfType[0] == 'a';
    }
  }
}
