# Handwritten digit to 28x28 pixels: the normalisation pipeline

This project models the per-drawing pipeline of a small Streamlit page (`my_app.py`). Each time the
drawing changes, the page:

1. reduces the canvas's RGBA buffer to grayscale,
2. resizes it to 28x28,
3. optionally inverts every sample to `255 - v`,
4. optionally divides every sample by 255.

It then shows the numeric 28x28 matrix and the 28x28 image, and offers the image as a PNG
download. When nothing has been drawn, the page only shows the notice
"Draw a digit in the canvas above to begin.".

The model has three modules:

- `Grids` (`Grids.dfy`): uint8 samples and the shape predicates for row-major grids. It also
  gives numpy's uint8 conversion as reduction modulo 256 (`U8`).
- `Transforms` (`Transforms.dfy`): the two whole-array expressions `255 - pixel_array` (`Invert`,
  computed in uint8 arithmetic) and `pixel_array / 255.0` (`Normalize`, exact `real` division).
  Lemmas cover involution, injectivity, and how invert-then-normalise relates to inverting in
  the unit domain.
- `Pipeline` (`Pipeline.dfy`):
  - `Config` holds the two checkboxes.
  - `Library` holds the three library calls whose code is not shown (per-pixel luma of
    `convert("L")`, `resize((28, 28))`, PNG saving). They are passed in as function values.
  - `Lawful` states the only things assumed of luma and resize: luma gives 0..255 on uint8
    pixels, and resizing any non-empty uint8 image gives a 28x28 uint8 image. The PNG call is
    constrained only by its result type, a sequence of octets (`seq<Octet>`).
  - `Process` is the pipeline as a function. It yields `NothingToProcess` (with the notice),
    `InvalidDimension`, or `Processed`, which holds the grayscale preview, the image, the matrix
    and the download.
  - `Run` is the script body as a method. Its locals `pixelArray` and `imgGrayResized` are
    reassigned by the two toggles in sequence, as in the script. It is proved equal to `Process`.

The two outputs see different transforms. The numeric matrix sees both toggles. The image, which is
both shown and exported, is rebuilt after inversion (line 47) but never after normalisation.

## Model

| member | source | states |
|---|---|---|
| `Grids.U8` | my_app.py:33 | storing an integer as uint8 lands in 0..255; values already in 0..255 are unchanged, and -256..-1 wrap to +256 |
| `Transforms.InvertSample` | my_app.py:46 | `255 - v` in uint8 arithmetic is always a uint8 sample, and for a uint8 input it is exactly `255 - v` (no wrap-around) |
| `Transforms.Invert` | my_app.py:46 | inversion keeps the array's shape and its uint8 range, and on a uint8 array every sample and its inverse sum to 255 |
| `Transforms.InvertInvolution` | my_app.py:46 | inverting a uint8 array twice gives back the original array exactly |
| `Transforms.InvertChangesEverySample` | my_app.py:45-47 | inversion changes every sample of a uint8 array (255 - v = v has no integer solution), so no non-empty array is its own inverse |
| `Transforms.NormalizeSample` | my_app.py:52 | one sample of `/ 255.0`: the result times 255 is the sample, and a uint8 sample lands in [0, 1] |
| `Transforms.Normalize` | my_app.py:52 | normalisation keeps the shape; every entry times 255 is exactly the original sample; on a uint8 array every entry lies in [0, 1] |
| `Transforms.NormalizeInjective` | my_app.py:52 | two integer arrays with the same normalised array are equal: normalisation loses no information |
| `Transforms.InvertThenNormalizeIsUnitInversion` | my_app.py:45-52 | inverting in 0..255 and then normalising gives, cell by cell, 1 minus the normalised sample |
| `Pipeline.AsUint8` | my_app.py:33 | `.astype("uint8")` yields a pixel with uint8 channels and leaves a pixel that already has them unchanged |
| `Pipeline.Grayscale` | my_app.py:33-34 | the grayscale image has the canvas's height and width (row by row), and with an in-range luma all its samples are uint8 |
| `Pipeline.Lawful` | my_app.py:34-40 | the only assumptions made of the library: `convert("L")` gives a 0..255 luma for every uint8 pixel, and `resize((28, 28))` turns every non-empty uint8 image into a 28x28 uint8 image |
| `Pipeline.Resized` | my_app.py:40-41 | the grayscale image resized to 28x28: for every non-empty rectangular canvas and a lawful library, a 28x28 uint8 array |
| `Pipeline.Process` | my_app.py:31-85 | with no canvas buffer the only outcome is the informational draw-to-begin notice, not an error; only a buffer that is not a non-empty rectangle gives `InvalidDimension` |
| `Pipeline.Run` | my_app.py:31-85 | the script's step-by-step reassignment of `pixel_array` and `img_gray_resized` computes exactly the staged pipeline `Process` |
| `Pipeline.ProcessedShape` | my_app.py:34-52 | the grayscale preview keeps the canvas's H x W; the image and the matrix are exactly 28x28 under every toggle; integer outputs are uint8 |
| `Pipeline.MatrixByConfig` | my_app.py:41-52 | the matrix is a float array iff normalise is on. Per cell, with v the resized sample, it is v, 255 - v, v/255 or (255 - v)/255 across the four configurations: inversion is applied before normalisation |
| `Pipeline.MatrixRange` | my_app.py:45-52 | the displayed matrix lies in [0, 1] when normalised and in 0..255 otherwise |
| `Pipeline.ImageInvertedIffToggle` | my_app.py:40-47 | the exported and displayed image equals the resized grayscale iff invert is off, and equals its inversion iff invert is on |
| `Pipeline.ImageIgnoresNormalize` | my_app.py:45-76 | the image and the download are identical with normalise on or off. Without normalise the matrix is the image's own samples (the two outputs agree); with it, the matrix is the image normalised |
| `Pipeline.InvertToggleUndoes` | my_app.py:44-47 | inverting the image of the inverted run gives the image of the non-inverted run |
| `Pipeline.ExportIsPng` | my_app.py:74-81 | whatever the toggles, the download is the PNG encoding of the image, named `digit_28x28.png` with media type `image/png` |

## Left out

- The page itself is not modelled: title, markdown, canvas widget, checkboxes, `st.image`,
  `st.dataframe`, `st.download_button` and `st.info` (my_app.py:8-28, 36-37, 44, 50, 55-58,
  70-71, 77-85). They are UI plumbing. The checkboxes appear only as the two booleans of
  `Config`, the notice only as the text in `NothingToProcess`, and the download only as the
  `Download` value.
- The matplotlib pixel-grid figure (my_app.py:61-67) is left out. It only renders the same image
  that `Processed.image` holds.
- `Pipeline.Process`: the script never checks for an empty or ragged buffer, and its canvas is
  fixed at 300x300 (my_app.py:24-25). The model returns `InvalidDimension` for any buffer that is
  not a non-empty rectangle instead of modelling what PIL would do with one.
- The luma weighting of `convert("L")`, the interpolation kernel of `resize` and PNG serialisation
  through `BytesIO` are library code that is not part of this model. They are parameters.
  `Lawful` constrains luma and resize by shape and range only. The PNG call is constrained only
  by its result type `seq<Octet>`. As a consequence, the model does not prove that a 28x28 input
  resizes to itself, that the PNG round-trips, or where a drawn stroke lands in the 28x28 grid.
  Each of these depends on that library code.
- Modelling `convert("L")` as a per-pixel luma assumes only that each gray sample depends on its
  own pixel. Whether the alpha channel is ignored depends on that luma and is not stated.
- `NormalizeSample` uses exact `real` division, so the rounding of the float64 `/ 255.0` is not
  modelled.
- The encoding-failure case is left out. Saving an 8-bit grayscale image as PNG cannot fail in
  the script, which has no handling for it.
- Re-running on every drawing update and the framework's rerun model are left out. Each call of
  `Process` or `Run` is one independent run. No state carries over between runs.
