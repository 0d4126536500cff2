/** Values shared by the whole graphics tool model: optional values, the
    errors the tool raises, and a failure-compatible result type. */
module Common {

  datatype Option<+T> = None | Some(value: T)

  /** Every exception the tool raises, one constructor per distinct cause. */
  datatype Error =
    // descriptor validation
    | UnknownCompression(name: string)
    | MissingField(field: string)
    | DivisionByZero(field: string)
    | NotDivisible(field: string, imageSize: int, itemSize: int)
    | InvalidSpriteSize(width: int, height: int)
    | InvalidColorsCount(count: int)
    | EmptyPaletteItem
    | InvalidPaletteItem(name: string, character: char)
    | InvalidBppMode(mode: string)
    | BppModeNeedsInlinePalette(mode: string)
    | InvalidBgDimension(field: string, value: int)
    // grit invocation and report
    | CodecFailed
    | MissingTotalSize
    | MissingTilesCount
    | InvalidTotalSize(word: string)
    | TooManyTiles(count: int, limit: int)
    // BMP decoding
    | BmpTruncated
    | BmpColorSpaceHeader
    | BmpHeaderSize(size: int)
    | BmpWidth(width: int)
    | BmpHeight(height: int)
    | BmpBitsPerPixel(bits: int)
    | BmpCompression(compressionMethod: int)
    | BmpColorsCount(count: int)
    | ImageDecodeFailed(path: string)
    // orchestration
    | JsonParseFailed(path: string)
    | MissingGraphicsType(path: string)
    | UnknownGraphicsType(graphicsType: string)
    | DuplicateName(name: string)
    | JsonNotFound(path: string)
    | FolderNotFound(path: string)

  /** The value a step computes, or the error it raises. */
  datatype Result<+T> = Ok(value: T) | Err(error: Error) {

    predicate IsFailure() {
      Err?
    }

    function PropagateFailure<U>(): Result<U>
      requires Err?
    {
      Err(error)
    }

    function Extract(): T
      requires Ok?
    {
      value
    }
  }

  /** `map(f, xs)`: `f` applied to every element, in order. */
  function Map<A, B>(f: A -> B, xs: seq<A>): (ys: seq<B>)
    ensures |ys| == |xs|
    ensures forall k | 0 <= k < |xs| :: ys[k] == f(xs[k])
  {
    if xs == [] then []
    else
      var n := |xs| - 1;
      var earlier := Map(f, xs[..n]);
      assert forall k | 0 <= k < n :: xs[..n][k] == xs[k];
      earlier + [f(xs[n])]
  }

  /** Mapping one more element appends its image. */
  lemma {:induction false} MapStep<A, B>(f: A -> B, xs: seq<A>, i: nat)
    requires i < |xs|
    ensures Map(f, xs[..i + 1]) == Map(f, xs[..i]) + [f(xs[i])]
  {
    assert xs[..i + 1][..i] == xs[..i];
  }

  /** Concatenation is associative. */
  lemma ConcatAssoc<T>(a: seq<T>, b: seq<T>, c: seq<T>)
    ensures (a + b) + c == a + (b + c)
  {
  }
}
