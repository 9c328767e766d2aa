/**
 * What `downloadImage` computes before it draws: the size of the export
 * canvas, the image type and quality passed to `toDataURL`, and the name of
 * the downloaded file. The pixels themselves are not modelled.
 */
module Export {
  import opened Wrappers

  /** The parameters of one export. `quality == None` is `undefined`. */
  datatype ExportRequest = ExportRequest(
    width: nat,
    height: nat,
    mimeType: string,
    quality: Option<real>,
    filename: string)

  const JpegQuality: real := 0.95

  /**
   * The export canvas is the chart canvas scaled by `scale` on both axes;
   * `png` is exported as `image/png` and every other format as `image/jpeg`;
   * a quality is passed only for `jpg`; the file is `chart.` + format.
   */
  function ExportFor(format: string, scale: nat, width: nat, height: nat): (r: ExportRequest)
    ensures r.width == width * scale && r.height == height * scale
    ensures r.mimeType == "image/png" <==> format == "png"
    ensures r.mimeType != "image/png" ==> r.mimeType == "image/jpeg"
    ensures r.quality.Some? <==> format == "jpg"
    ensures r.quality.Some? ==> r.quality.value == 0.95 && r.mimeType == "image/jpeg"
    ensures |r.filename| == 6 + |format| && r.filename[..6] == "chart." && r.filename[6..] == format
  {
    ExportRequest(
      width * scale,
      height * scale,
      if format == "png" then "image/png" else "image/jpeg",
      if format == "jpg" then Some(JpegQuality) else None,
      "chart." + format)
  }

  /** Scaling keeps the aspect ratio of the chart canvas. */
  lemma ExportKeepsAspectRatio(format: string, scale: nat, width: nat, height: nat)
    ensures ExportFor(format, scale, width, height).width * height
         == ExportFor(format, scale, width, height).height * width
  {
    assert (width * scale) * height == (height * scale) * width;
  }

  /** A PNG export is lossless: `image/png`, no quality, `chart.png`. */
  lemma PngExport(scale: nat, width: nat, height: nat)
    ensures ExportFor("png", scale, width, height)
         == ExportRequest(width * scale, height * scale, "image/png", None, "chart.png")
  {
  }

  /** A JPG export is `image/jpeg` at quality 0.95, saved as `chart.jpg`. */
  lemma JpgExport(scale: nat, width: nat, height: nat)
    ensures ExportFor("jpg", scale, width, height)
         == ExportRequest(width * scale, height * scale, "image/jpeg", Some(0.95), "chart.jpg")
  {
  }

  /**
   * The two tests look at different names: a format that is neither `png`
   * nor `jpg` is exported as `image/jpeg` but without a quality.
   */
  lemma OtherFormatExport(format: string, scale: nat, width: nat, height: nat)
    requires format != "png" && format != "jpg"
    ensures ExportFor(format, scale, width, height).mimeType == "image/jpeg"
    ensures ExportFor(format, scale, width, height).quality == None
  {
  }

  /** Doubling an 800 by 400 canvas gives a 1600 by 800 image. */
  lemma DoubleScaleExample()
    ensures ExportFor("png", 2, 800, 400).width == 1600
    ensures ExportFor("png", 2, 800, 400).height == 800
  {
  }
}
