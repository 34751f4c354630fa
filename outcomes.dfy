/** Optional values, results and the exceptions the ripper can raise. */
module Outcomes {

  datatype Option<+T> = None | Some(value: T)

  /**
   * Why a rip stops: each constructor except PayloadMismatch stands for one exception raised in
   * core.py; PayloadMismatch exists only because a modelled object's type name and payload can disagree.
   */
  datatype RipError =
    | GameExeMissing                          // ValueError: no MuseDash.exe in the game folder
    | BundleNotUnique(prefix: string)         // FileNotFoundError from find_with_prefix
    | BundleUnreadable(file: string)          // the bundle file cannot be loaded
    | AssetNotFound(name: string)             // FileNotFoundError from find_asset
    | PayloadMismatch(name: string)           // the object found holds no payload of its type's kind
    | MalformedJson(name: string)             // json5.loads rejects the text asset
    | MissingKey(key: string)                 // KeyError on a config record
    | LengthMismatch                          // assert len(base) == len(localized)
    | CoverSuffixMissing(cover: string)       // assert cover.endswith("_cover")
    | BadAlbumNumber(text: string)            // ValueError from int(...)
    | SampleCountNotOne(name: string, count: nat)  // assert len(af.samples) == 1
    | CoverNotRgba(name: string)              // assert cover_image.mode == "RGBA"

  /** The outcome of an operation that may raise: failure-compatible, so `:-` propagates errors. */
  datatype Result<+T> = Ok(value: T) | Err(error: RipError) {
    predicate IsFailure() { Err? }

    function PropagateFailure<U>(): Result<U>
      requires Err?
    {
      Err(error)
    }

    function Extract(): T
      requires Ok?
    {
      value
    }
  }
}
