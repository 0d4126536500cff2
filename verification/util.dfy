/** util.py: compression names and labels, and the choice of image decoder
    from a file name. */
module Util {
  import opened Common
  import opened Text

  /** The four compression settings a descriptor may name; `Uncompressed` is
      the setting named 'none'. `Auto` defers the choice to the optimiser. */
  datatype Compression = Uncompressed | RunLength | Lz77 | Auto

  /** The descriptor spelling of each setting. */
  function Name(c: Compression): string {
    match c
    case Uncompressed => "none"
    case RunLength => "run_length"
    case Lz77 => "lz77"
    case Auto => "auto"
  }

  /** validate_compression: accepts exactly the four spellings and raises on
      anything else; the accepted spelling is read as its setting. */
  function ValidateCompression(s: string): (r: Result<Compression>)
    ensures r.Ok? ==> Name(r.value) == s
    ensures r.Err? ==> r.error == UnknownCompression(s)
  {
    if s == "none" then Ok(Uncompressed)
    else if s == "lz77" then Ok(Lz77)
    else if s == "run_length" then Ok(RunLength)
    else if s == "auto" then Ok(Auto)
    else Err(UnknownCompression(s))
  }

  lemma ValidateCompressionAccepts(s: string)
    ensures ValidateCompression(s).Ok? <==> s in {"none", "lz77", "run_length", "auto"}
  {
  }

  /** Validating a setting's spelling gives the setting back. */
  lemma {:induction false} ValidateCompressionRoundTrip(c: Compression)
    ensures ValidateCompression(Name(c)) == Ok(c)
  {
    match c
    case Uncompressed =>
    case RunLength =>
    case Lz77 =>
    case Auto =>
  }

  /** compression_label: the C++ enumerator for a resolved setting. */
  function CompressionLabel(s: string): (r: Result<string>)
    ensures r.Ok? <==> s in {"none", "lz77", "run_length"}
    ensures r.Err? ==> r.error == UnknownCompression(s)
  {
    if s == "none" then Ok("compression_type::NONE")
    else if s == "lz77" then Ok("compression_type::LZ77")
    else if s == "run_length" then Ok("compression_type::RUN_LENGTH")
    else Err(UnknownCompression(s))
  }

  /** The three labels are distinct, so the label determines the setting. */
  lemma CompressionLabelInjective(s: string, t: string)
    requires CompressionLabel(s).Ok? && CompressionLabel(t).Ok?
    requires CompressionLabel(s) == CompressionLabel(t)
    ensures s == t
  {
  }

  /** 'auto' has no label: it must be resolved before a header is written,
      while every resolved setting has one. */
  lemma CompressionLabelNeedsResolved(c: Compression)
    ensures CompressionLabel(Name(c)).Ok? <==> c != Auto
    ensures CompressionLabel("auto") == Err(UnknownCompression("auto"))
  {
  }

  /** The label of a setting already known to be resolved. */
  function Label(c: Compression): (l: string)
    requires c != Auto
    ensures CompressionLabel(Name(c)) == Ok(l)
  {
    match c
    case Uncompressed => "compression_type::NONE"
    case RunLength => "compression_type::RUN_LENGTH"
    case Lz77 => "compression_type::LZ77"
  }

  /** The colour-count round-up that bmp.py and sprite_palette.py both write
      out: `n += 16 - n % 16` when `n % 16 > 0`. It yields the least multiple
      of 16 that is at least `n`. */
  function RoundUpColors(n: int): (r: int)
    ensures r % 16 == 0
    ensures n <= r < n + 16
    ensures n % 16 == 0 ==> r == n
  {
    var extra := n % 16;
    if extra > 0 then n + 16 - extra else n
  }

  /** The closed form `N + (16 - N % 16) % 16` of the round-up. */
  lemma RoundUpColorsClosedForm(n: int)
    ensures RoundUpColors(n) == n + (16 - n % 16) % 16
  {
  }

  /** What a decoder (BMP or PNG processor) exposes to the items. */
  datatype ImageInfo = ImageInfo(width: int, height: int, colorsCount: int)

  datatype ImageFormat = Png | Bmp

  /** get_processor: a path ending in ".png" is decoded as PNG, every other
      path as BMP. */
  function ProcessorFor(path: string): (f: ImageFormat)
    ensures f == Png <==> EndsWith(path, ".png")
  {
    if EndsWith(path, ".png") then Png else Bmp
  }

  lemma {:induction false} ProcessorForExtension(stem: string)
    ensures ProcessorFor(stem + ".png") == Png
    ensures ProcessorFor(stem + ".bmp") == Bmp
  {
    var p, b := stem + ".png", stem + ".bmp";
    assert p[|p| - 4..] == ".png";
    assert b[|b| - 1] == 'p' != 'g';
  }
}
