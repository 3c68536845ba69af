/** The per-drawing pipeline of the digit visualiser: one pass from the canvas buffer,
    through grayscale reduction and resizing to 28x28, the two optional toggles (invert,
    then normalise), to the numeric matrix on display and the image that is shown and
    offered for download as a PNG file. */
module Pipeline {
  import opened Grids
  import opened Transforms

  datatype Option<T> = None | Some(value: T)

  /** One canvas pixel as the drawing widget delivers it. */
  datatype Rgba = Rgba(red: int, green: int, blue: int, alpha: int)

  /** The canvas buffer: rows of pixels, shape (height, width, 4). */
  type Canvas = seq<seq<Rgba>>

  /** The two checkboxes of the page. */
  datatype Config = Config(invert: bool, normalize: bool)

  /** The library calls whose code is not part of this model: the per-pixel luma of
      `convert("L")`, `resize((28, 28))`, and saving an 8-bit image as PNG. */
  datatype Library = Library(
    luma: Rgba -> int,
    resize: seq<seq<int>> -> seq<seq<int>>,
    png: seq<seq<int>> -> seq<Octet>)

  /** What the numeric-matrix view receives: a uint8 array, or a float array once normalised. */
  datatype Matrix = IntMatrix(ints: seq<seq<int>>) | RealMatrix(reals: seq<seq<real>>)

  /** What the download button offers. */
  datatype Download = Download(data: seq<Octet>, fileName: string, mediaType: string)

  /** The result of one run of the script. */
  datatype Outcome =
    | NothingToProcess(notice: string)
    | InvalidDimension
    | Processed(gray: seq<seq<int>>, image: seq<seq<int>>, matrix: Matrix, download: Download)

  const DRAW_PROMPT: string := "Draw a digit in the canvas above to begin."
  const FILE_NAME: string := "digit_28x28.png"
  const MEDIA_TYPE: string := "image/png"

  predicate IsBytePixel(p: Rgba) {
    IsSample(p.red) && IsSample(p.green) && IsSample(p.blue) && IsSample(p.alpha)
  }

  /** The luma of a pixel with uint8 channels is a uint8 sample. */
  ghost predicate LumaInRange(luma: Rgba -> int) {
    forall p :: IsBytePixel(p) ==> IsSample(luma(p))
  }

  /** Resizing any non-empty uint8 image gives a 28x28 uint8 image. */
  ghost predicate ResizesToCanonical(resize: seq<seq<int>> -> seq<seq<int>>) {
    forall g :: IsRaster(g) && AllSamples(g) ==> IsByteGrid(resize(g), SIDE, SIDE)
  }

  /** The shape and range guarantees the model relies on from the library. */
  ghost predicate Lawful(lib: Library) {
    LumaInRange(lib.luma) && ResizesToCanonical(lib.resize)
  }

  /** `.astype("uint8")` on one pixel: every channel reduced modulo 256; a pixel whose
      channels are already uint8 is unchanged. */
  function AsUint8(p: Rgba): (r: Rgba)
    ensures IsBytePixel(r)
    ensures IsBytePixel(p) ==> r == p
  {
    Rgba(U8(p.red), U8(p.green), U8(p.blue), U8(p.alpha))
  }

  /** `Image.fromarray(buffer.astype("uint8")).convert("L")`: one luma sample per pixel,
      so the grayscale image has the canvas's height and width, and its samples are uint8. */
  function Grayscale(b: Canvas, luma: Rgba -> int): (g: seq<seq<int>>)
    ensures SameShape(b, g)
    ensures LumaInRange(luma) ==> AllSamples(g)
  {
    var g := seq(|b|, i requires 0 <= i < |b| =>
      seq(|b[i]|, j requires 0 <= j < |b[i]| => luma(AsUint8(b[i][j]))));
    assert forall i, j :: 0 <= i < |b| && 0 <= j < |b[i]| ==>
      g[i][j] == luma(AsUint8(b[i][j])) && IsBytePixel(AsUint8(b[i][j]));
    g
  }

  /** The post-resample array: the grayscale image resized to 28x28. With the library's
      guarantees, every non-empty canvas gives a 28x28 uint8 array. */
  function Resized(b: Canvas, lib: Library): (r: seq<seq<int>>)
    ensures IsRaster(b) && Lawful(lib) ==> IsByteGrid(r, SIDE, SIDE)
  {
    var g := Grayscale(b, lib.luma);
    assert IsRaster(b) ==> HasShape(g, |b|, |b[0]|) && IsRaster(g);
    lib.resize(g)
  }

  /** One pass of the pipeline, stated as stages: with no drawing nothing runs; otherwise
      the image is the resized grayscale, inverted when the invert toggle is on; the
      matrix is that image, rescaled when the normalise toggle is on; and the download is
      the PNG encoding of the image. */
  function Process(canvas: Option<Canvas>, cfg: Config, lib: Library): (out: Outcome)
    ensures canvas.None? <==> out.NothingToProcess?
    ensures out.NothingToProcess? ==> out.notice == DRAW_PROMPT
    ensures out.InvalidDimension? <==> canvas.Some? && !IsRaster(canvas.value)
  {
    match canvas
    case None => NothingToProcess(DRAW_PROMPT)
    case Some(b) =>
      if !IsRaster(b) then InvalidDimension
      else
        var image := if cfg.invert then Invert(Resized(b, lib)) else Resized(b, lib);
        var matrix := if cfg.normalize then RealMatrix(Normalize(image)) else IntMatrix(image);
        Processed(Grayscale(b, lib.luma), image, matrix, Download(lib.png(image), FILE_NAME, MEDIA_TYPE))
  }

  /** The script body as written: `pixel_array` and `img_gray_resized` are locals that
      the two toggles reassign in sequence before display and export read them. */
  method Run(canvas: Option<Canvas>, cfg: Config, lib: Library) returns (out: Outcome)
    ensures out == Process(canvas, cfg, lib)
  {
    if canvas.None? {
      return NothingToProcess(DRAW_PROMPT);
    }
    var imageData := canvas.value;
    if !IsRaster(imageData) {
      return InvalidDimension;
    }
    var grayImg := Grayscale(imageData, lib.luma);
    var imgGrayResized := lib.resize(grayImg);
    var pixelArray := imgGrayResized;
    var matrix := IntMatrix(pixelArray);
    if cfg.invert {
      pixelArray := Invert(pixelArray);
      imgGrayResized := pixelArray;
      matrix := IntMatrix(pixelArray);
    }
    if cfg.normalize {
      matrix := RealMatrix(Normalize(pixelArray));
    }
    var byteIm := lib.png(imgGrayResized);
    out := Processed(grayImg, imgGrayResized, matrix, Download(byteIm, FILE_NAME, MEDIA_TYPE));
  }

  /** Shapes: the grayscale image keeps the canvas's height and width, while the image and
      the matrix are exactly 28x28 whatever the toggles; all integer samples are uint8. */
  lemma ProcessedShape(b: Canvas, cfg: Config, lib: Library)
    requires IsRaster(b) && Lawful(lib)
    ensures Process(Some(b), cfg, lib).Processed?
    ensures IsByteGrid(Process(Some(b), cfg, lib).gray, |b|, |b[0]|)
    ensures IsByteGrid(Process(Some(b), cfg, lib).image, SIDE, SIDE)
    ensures Process(Some(b), cfg, lib).matrix.IntMatrix? ==>
      IsByteGrid(Process(Some(b), cfg, lib).matrix.ints, SIDE, SIDE)
    ensures Process(Some(b), cfg, lib).matrix.RealMatrix? ==>
      HasShape(Process(Some(b), cfg, lib).matrix.reals, SIDE, SIDE)
  {
    var g := Grayscale(b, lib.luma);
    assert HasShape(g, |b|, |b[0]|);
  }

  /** The numeric matrix in each of the four configurations, cell by cell, in terms of
      the post-resample sample v: v; 255 - v; v / 255; (255 - v) / 255. */
  lemma MatrixByConfig(b: Canvas, cfg: Config, lib: Library)
    requires IsRaster(b) && Lawful(lib)
    ensures Process(Some(b), cfg, lib).Processed?
    ensures Process(Some(b), cfg, lib).matrix.RealMatrix? <==> cfg.normalize
    ensures !cfg.normalize ==> forall i, j :: 0 <= i < SIDE && 0 <= j < SIDE ==>
      Process(Some(b), cfg, lib).matrix.ints[i][j]
        == if cfg.invert then 255 - Resized(b, lib)[i][j] else Resized(b, lib)[i][j]
    ensures cfg.normalize ==> forall i, j :: 0 <= i < SIDE && 0 <= j < SIDE ==>
      Process(Some(b), cfg, lib).matrix.reals[i][j] * 255.0
        == if cfg.invert then (255 - Resized(b, lib)[i][j]) as real else Resized(b, lib)[i][j] as real
  {
    var r := Resized(b, lib);
    var image := if cfg.invert then Invert(r) else r;
    assert forall i, j :: 0 <= i < SIDE && 0 <= j < SIDE ==>
      image[i][j] == if cfg.invert then 255 - r[i][j] else r[i][j];
  }

  /** The displayed matrix lies in [0, 1] when normalised and in 0..255 otherwise. */
  lemma MatrixRange(b: Canvas, cfg: Config, lib: Library)
    requires IsRaster(b) && Lawful(lib)
    ensures Process(Some(b), cfg, lib).Processed?
    ensures !cfg.normalize ==> AllSamples(Process(Some(b), cfg, lib).matrix.ints)
    ensures cfg.normalize ==> forall i, j :: 0 <= i < SIDE && 0 <= j < SIDE ==>
      0.0 <= Process(Some(b), cfg, lib).matrix.reals[i][j] <= 1.0
  {
  }

  /** The image (shown and exported) is the resized grayscale, inverted if and only if the
      invert toggle is on. */
  lemma ImageInvertedIffToggle(b: Canvas, cfg: Config, lib: Library)
    requires IsRaster(b) && Lawful(lib)
    ensures Process(Some(b), cfg, lib).Processed?
    ensures Process(Some(b), cfg, lib).image == Resized(b, lib) <==> !cfg.invert
    ensures Process(Some(b), cfg, lib).image == Invert(Resized(b, lib)) <==> cfg.invert
  {
    InvertChangesEverySample(Resized(b, lib), 0, 0);
  }

  /** Normalisation never reaches the image: the image and the download are the same with
      the normalise toggle on or off. Without normalisation the matrix is the image's own
      samples, so the two outputs agree. */
  lemma ImageIgnoresNormalize(b: Canvas, invert: bool, lib: Library)
    requires IsRaster(b)
    ensures Process(Some(b), Config(invert, true), lib).image
         == Process(Some(b), Config(invert, false), lib).image
    ensures Process(Some(b), Config(invert, true), lib).download
         == Process(Some(b), Config(invert, false), lib).download
    ensures Process(Some(b), Config(invert, false), lib).matrix
         == IntMatrix(Process(Some(b), Config(invert, false), lib).image)
    ensures Process(Some(b), Config(invert, true), lib).matrix
         == RealMatrix(Normalize(Process(Some(b), Config(invert, true), lib).image))
  {
  }

  /** Inverting the image of the inverted run gives back the image of the plain run. */
  lemma InvertToggleUndoes(b: Canvas, normalize: bool, lib: Library)
    requires IsRaster(b) && Lawful(lib)
    ensures Invert(Process(Some(b), Config(true, normalize), lib).image)
         == Process(Some(b), Config(false, normalize), lib).image
  {
    InvertInvolution(Resized(b, lib));
  }

  /** Whatever the toggles, the download is the PNG encoding of the image, named
      digit_28x28.png with media type image/png. */
  lemma ExportIsPng(b: Canvas, cfg: Config, lib: Library)
    requires IsRaster(b)
    ensures Process(Some(b), cfg, lib).Processed?
    ensures Process(Some(b), cfg, lib).download.fileName == "digit_28x28.png"
    ensures Process(Some(b), cfg, lib).download.mediaType == "image/png"
    ensures Process(Some(b), cfg, lib).download.data == lib.png(Process(Some(b), cfg, lib).image)
  {
  }
}
