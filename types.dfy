/**
 * The public data types of the wave loader: the seven path variants, the
 * per-wave override record and the component's props. Fields that a caller
 * may leave out, or fill with a value of the wrong type, are options.
 */
module WaveTypes {
  import opened Js

  datatype Variant = Rounded | Choppy | Smooth | Pulse | Square | Ripple | Travel

  /** The string tag a variant is written as. */
  function VariantName(v: Variant): string {
    match v
    case Rounded => "rounded"
    case Choppy => "choppy"
    case Smooth => "smooth"
    case Pulse => "pulse"
    case Square => "square"
    case Ripple => "ripple"
    case Travel => "travel"
  }

  datatype WaveOverride = WaveOverride(
    color: Option<string>,
    durationMs: Option<Num>,
    pathVariant: Option<string>)

  const EMPTY_OVERRIDE := WaveOverride(None, None, None)

  datatype WaveLoaderProps = WaveLoaderProps(
    width: Option<Num>,
    height: Option<Num>,
    waves: Option<Num>,
    color: Option<string>,
    durationMs: Option<Num>,
    pathVariant: Option<string>,
    opacity: Option<Num>,
    fadeOut: Option<Num>,
    waveOverrides: Option<seq<WaveOverride>>)

  const NO_PROPS := WaveLoaderProps(None, None, None, None, None, None, None, None, None)
}
