/**
 * notes_ocr.py: each note image is sent to a vision model as a base 64 `data:` URL
 * and the transcriptions are gathered into one labelled text. The model call is an oracle.
 */
module NotesOcr {
  import opened Bytes
  import opened Wrappers
  import opened PyText
  import opened Lines
  import Base64

  /**
   * An image upload as a file-like object: its `name` and `type` attributes (`None` when
   * the object lacks the attribute or `type` holds `None`) and the bytes `read()` returns.
   */
  datatype ImageFile = ImageFile(name: Option<string>, mimeType: Option<string>, content: seq<byte>)

  /**
   * One vision call on a data URL: `resp.choices[0].message.content or ""`, or the text of the
   * exception raised while getting a client or calling the model.
   */
  type Ocr = string -> Result<string>

  /** `getattr(file_obj, "type", "image/png") or "image/png"` */
  function Mime(image: ImageFile): (r: string)
    ensures r != []
  {
    if image.mimeType.Some? && image.mimeType.value != "" then image.mimeType.value else "image/png"
  }

  /** `_image_to_data_url(file_obj)`: a base 64 `data:` URL as section 3 of RFC 2397 writes it. */
  function DataUrl(image: ImageFile): string
  {
    "data:" + Mime(image) + ";base64," + Base64.Encode(image.content)
  }

  /** `getattr(img_file, "name", f"Image {idx}")` */
  function Label(image: ImageFile, idx: nat): string
  {
    if image.name.Some? then image.name.value else "Image " + NatDecimal(idx)
  }

  function ChunkHeader(caption: string): string
  {
    "=== Notes from " + caption + " ==="
  }

  /** What follows an image's header: the stripped transcription, or the error notice. */
  function ChunkBody(outcome: Result<string>): string
  {
    match outcome
    case Ok(text) => Strip(text)
    case Err(e) => "[Error reading this image: " + e + "]"
  }

  /** The chunk of one image: its header line, then its body. */
  function Chunk(caption: string, outcome: Result<string>): string
  {
    ChunkHeader(caption) + "\n" + ChunkBody(outcome)
  }

  /** `f(x, idx)` for each item `x` of `xs`, the way `enumerate(xs, start=1)` numbers them. */
  function Numbered<T>(xs: seq<T>, f: (T, nat) -> string): (r: seq<string>)
    ensures |r| == |xs|
  {
    seq(|xs|, k requires 0 <= k < |xs| => f(xs[k], k + 1))
  }

  lemma NumberedSnoc<T>(xs: seq<T>, i: nat, f: (T, nat) -> string)
    requires i < |xs|
    ensures Numbered(xs[..i + 1], f) == Numbered(xs[..i], f) + [f(xs[i], i + 1)]
  {
  }

  /** The chunk for image `image` at position `idx`. */
  function ImageChunk(ocr: Ocr): (ImageFile, nat) -> string
  {
    (image: ImageFile, idx: nat) => Chunk(Label(image, idx), ocr(DataUrl(image)))
  }

  /** One chunk per image, in order, numbered from 1. */
  function Chunks(images: seq<ImageFile>, ocr: Ocr): (r: seq<string>)
    ensures |r| == |images|
  {
    Numbered(images, ImageChunk(ocr))
  }

  /** The chunk at position `k` is the one for the `k + 1`-th image. */
  lemma ChunkAt(images: seq<ImageFile>, ocr: Ocr, k: nat)
    requires k < |images|
    ensures Chunks(images, ocr)[k] == Chunk(Label(images[k], k + 1), ocr(DataUrl(images[k])))
  {
  }

  /** `extract_text_from_note_images(images)` */
  function NotesText(images: seq<ImageFile>, ocr: Ocr): string
  {
    if images == [] then "" else Strip(Join(Chunks(images, ocr), "\n\n"))
  }

  /** The body of the loop over the images: the chunk for the image at position `idx`. */
  method ReadImage(image: ImageFile, idx: nat, ocr: Ocr) returns (chunk: string)
    ensures chunk == Chunk(Label(image, idx), ocr(DataUrl(image)))
  {
    var fileLabel := Label(image, idx);
    var outcome := ocr(DataUrl(image));
    var body: string;
    if outcome.Ok? {
      body := Strip(outcome.value);
    } else {
      body := "[Error reading this image: " + outcome.error + "]";
    }
    assert body == ChunkBody(outcome);
    chunk := "=== Notes from " + fileLabel + " ===\n" + body;
  }

  method ExtractTextFromNoteImages(images: seq<ImageFile>, ocr: Ocr) returns (text: string)
    ensures text == NotesText(images, ocr)
  {
    if images == [] {
      return "";
    }
    var chunks: seq<string> := [];
    var i := 0;
    while i < |images|
      invariant 0 <= i <= |images|
      invariant chunks == Chunks(images[..i], ocr)
    {
      var chunk := ReadImage(images[i], i + 1, ocr);
      NumberedSnoc(images, i, ImageChunk(ocr));
      chunks := chunks + [chunk];
      i := i + 1;
    }
    assert images[..i] == images;
    text := Strip(Join(chunks, "\n\n"));
  }

  /** The URL carries the MIME type, and its payload decodes back to exactly the bytes read. */
  lemma DataUrlDecodes(image: ImageFile)
    ensures var prefix := "data:" + Mime(image) + ";base64,";
      StartsWith(DataUrl(image), prefix) && Base64.Decode(DataUrl(image)[|prefix|..]) == Some(image.content)
    ensures |DataUrl(image)| == |"data:" + Mime(image) + ";base64,"| + 4 * ((|image.content| + 2) / 3)
  {
    var prefix := "data:" + Mime(image) + ";base64,";
    var payload := Base64.Encode(image.content);
    StartsWithConcat(prefix, payload);
    assert DataUrl(image)[|prefix|..] == payload;
    Base64.RoundTrip(image.content);
  }

  /** A missing or empty `type` gives `image/png`; any other type is used as it is. */
  lemma MimeDefault(content: seq<byte>, t: string)
    ensures Mime(ImageFile(None, None, content)) == "image/png"
    ensures Mime(ImageFile(None, Some(""), content)) == "image/png"
    ensures t != "" ==> Mime(ImageFile(None, Some(t), content)) == t
  {
  }

  /** The position is the caption only for an image without a `name`; an empty name stays empty. */
  lemma LabelRule(image: ImageFile, idx: nat)
    ensures image.name.None? ==> Label(image, idx) == "Image " + NatDecimal(idx)
    ensures image.name == Some("") ==> Label(image, idx) == ""
  {
  }

  /** Every chunk opens with its image's header line. */
  lemma ChunkStartsWithHeader(caption: string, outcome: Result<string>)
    ensures StartsWith(Chunk(caption, outcome), ChunkHeader(caption) + "\n")
  {
    StartsWithConcat(ChunkHeader(caption) + "\n", ChunkBody(outcome));
  }

  /** The combined text opens with the first image's header. */
  lemma FirstChunkLeads(images: seq<ImageFile>, ocr: Ocr)
    requires images != []
    ensures StartsWith(NotesText(images, ocr), ChunkHeader(Label(images[0], 1)))
  {
    var chunks := Chunks(images, ocr);
    var header := ChunkHeader(Label(images[0], 1));
    ChunkAt(images, ocr, 0);
    ChunkStartsWithHeader(Label(images[0], 1), ocr(DataUrl(images[0])));
    JoinStartsWithFirst(chunks, "\n\n");
    var joined := Join(chunks, "\n\n");
    PrefixOfPrefix(joined, chunks[0], header);
    StripKeepsPrefix(joined, header);
  }

  lemma PrefixOfPrefix(s: string, t: string, prefix: string)
    requires StartsWith(s, t) && StartsWith(t, prefix)
    ensures StartsWith(s, prefix)
  {
    assert s[..|prefix|] == t[..|t|][..|prefix|];
  }

  /** Chunks are separated by one blank line, and a later image only adds to the end. */
  lemma ChunksAppend(images: seq<ImageFile>, image: ImageFile, ocr: Ocr)
    requires images != []
    ensures Join(Chunks(images + [image], ocr), "\n\n")
      == Join(Chunks(images, ocr), "\n\n") + "\n\n" + Chunk(Label(image, |images| + 1), ocr(DataUrl(image)))
  {
    var all := images + [image];
    assert all[..|images|] == images && all[..|images| + 1] == all;
    NumberedSnoc(all, |images|, ImageChunk(ocr));
  }
}
