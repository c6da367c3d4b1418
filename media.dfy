/** The external collaborators the workers and the server call, as values: object storage and
    HTTP downloads, the PDF library and the image library. Each call either returns a value or
    raises (an `Err` with the exception's message). */
module Media {
  import opened Wrappers

  type Bytes = seq<int>

  /** One page of a PDF document; its content is opaque. */
  datatype Page = Page(content: Bytes)

  /** A PDF document: its pages in order. */
  type Document = seq<Page>

  /** The arguments of one `cloudinary.uploader.upload` call. */
  datatype UploadRequest = UploadRequest(data: Bytes, folder: string, resourceType: Option<string>, format: Option<string>)

  /** Object storage and plain HTTP: `requests.get(url)` with `raise_for_status()`, and upload,
      which answers with the stored object's secure URL. */
  datatype Storage = Storage(fetch: string -> Result<Bytes>, upload: UploadRequest -> Result<string>)

  /** The keyword arguments of `Document.save`. */
  datatype PdfSaveSettings = PdfSaveSettings(deflate: nat, deflateImages: bool, deflateFonts: bool, garbage: Option<nat>)

  /** The PDF library: open a byte stream as a document, save a document (with default
      settings or the given ones) to bytes. */
  datatype PdfCodec = PdfCodec(open: Bytes -> Result<Document>, save: (Document, Option<PdfSaveSettings>) -> Result<Bytes>)

  /** What the routines read of an image: its mode ("RGB", "RGBA", "P", ...), size and the
      format it was decoded from. */
  datatype Image = Image(mode: string, width: int, height: int, format: Option<string>)

  /** The keyword arguments of `Image.save`; a `None` is a key the call does not pass. */
  datatype SaveOptions = SaveOptions(format: string, quality: Option<int>, optimize: Option<bool>)

  /** The image library: decode bytes, shrink in place to fit a box keeping the aspect ratio
      (`thumbnail`), encode with the given options. */
  datatype ImageCodec = ImageCodec(
    open: Bytes -> Result<Image>,
    thumbnail: (Image, int, int) -> Image,
    save: (Image, SaveOptions) -> Result<Bytes>)

  /** `mode in ("RGBA", "P")`: a mode JPEG cannot store. */
  predicate AlphaOrPalette(mode: string)
  {
    mode == "RGBA" || mode == "P"
  }

  /** `image.convert(mode)`: the same picture in the given mode. */
  function Converted(img: Image, mode: string): (r: Image)
    ensures r.mode == mode && r.width == img.width && r.height == img.height
  {
    img.(mode := mode)
  }

  /** `image.resize((width, height))`: exactly the requested size, whatever the aspect ratio. */
  function Resized(img: Image, width: int, height: int): (r: Image)
    ensures r.width == width && r.height == height && r.mode == img.mode
  {
    img.(width := width, height := height)
  }
}
