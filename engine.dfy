/** The conversion engine as the binding exposes it: an `Interface` object
    holding three option structs and two flags, all readable and writable in
    place, plus the conversion itself, which is not part of this model. A
    conversion's result is supplied from outside as an `Outcome`. */
module Engine {
  import opened Values

  /** `MathmlOptions::SpacingControl`. */
  datatype SpacingControl = StrictSpacing | ModerateSpacing | RelaxedSpacing

  /** `EncodingOptions::MathmlEncoding`. */
  datatype MathmlEncoding = RawEncoding | NumericEncoding | ShortEncoding | LongEncoding

  /** The engine's exception: a code and a list of arguments. */
  datatype Exception = Exception(code: string, args: seq<string>)

  /** What the engine's `ProcessInput` does with one input: either it produces
      MathML content, or it throws. Which one, and the content, are the
      engine's business. */
  datatype Outcome = Converted(mathml: string) | Raised(exception: Exception)

  class MathmlOptions {
    var spacingControl: SpacingControl
    var useVersion1FontAttributes: bool
    var allowPlane1: bool

    /** The engine's defaults, which are not part of this model. */
    constructor ()
    {
    }
  }

  class EncodingOptions {
    var mathmlEncoding: MathmlEncoding
    var otherEncodingRaw: bool
    var allowPlane1: bool

    constructor ()
    {
    }
  }

  class PurifiedTexOptions {
    var displayMath: bool
    var allowUcs: bool
    var allowCjk: bool
    var allowPreview: bool
    var japaneseFont: string
    var latexPreamble: string
    var latexBeforeMath: string

    constructor ()
    {
    }
  }

  /** Every engine field the wrapper reads or writes, as one value. */
  datatype Config = Config(
    indented: bool,
    texvcCompatibility: bool,
    spacingControl: SpacingControl,
    useVersion1FontAttributes: bool,
    mathmlAllowPlane1: bool,
    mathmlEncoding: MathmlEncoding,
    otherEncodingRaw: bool,
    encodingAllowPlane1: bool,
    displayMath: bool,
    allowUcs: bool,
    allowCjk: bool,
    allowPreview: bool,
    japaneseFont: string,
    latexPreamble: string,
    latexBeforeMath: string)

  class Interface {
    const mathmlOptions: MathmlOptions
    const encodingOptions: EncodingOptions
    const purifiedTexOptions: PurifiedTexOptions
    var texvcCompatibility: bool
    var indented: bool
    /** The MathML content of the last successful conversion, if any, as it
        was when that conversion ran. */
    var mathml: Option<string>

    constructor ()
      ensures fresh(mathmlOptions) && fresh(encodingOptions) && fresh(purifiedTexOptions)
      ensures mathml == None
    {
      mathmlOptions := new MathmlOptions();
      encodingOptions := new EncodingOptions();
      purifiedTexOptions := new PurifiedTexOptions();
      mathml := None;
    }

    /** The current values of all option fields. */
    function Snapshot(): Config
      reads this, mathmlOptions, encodingOptions, purifiedTexOptions
    {
      Config(indented, texvcCompatibility,
             mathmlOptions.spacingControl, mathmlOptions.useVersion1FontAttributes,
             mathmlOptions.allowPlane1,
             encodingOptions.mathmlEncoding, encodingOptions.otherEncodingRaw,
             encodingOptions.allowPlane1,
             purifiedTexOptions.displayMath, purifiedTexOptions.allowUcs,
             purifiedTexOptions.allowCjk, purifiedTexOptions.allowPreview,
             purifiedTexOptions.japaneseFont, purifiedTexOptions.latexPreamble,
             purifiedTexOptions.latexBeforeMath)
    }

    /** Runs one conversion whose result is `outcome`. A successful conversion
        replaces the stored MathML; a failed one throws, and what the engine
        then keeps is its own business. No option field changes. */
    method ProcessInput(input: string, displayStyle: bool, outcome: Outcome)
      returns (thrown: Option<Exception>)
      modifies this
      ensures thrown == if outcome.Raised? then Some(outcome.exception) else None
      ensures outcome.Converted? ==> mathml == Some(outcome.mathml)
      ensures Snapshot() == old(Snapshot())
    {
      match outcome
      case Converted(content) =>
        mathml := Some(content);
        thrown := None;
      case Raised(e) =>
        thrown := Some(e);
    }
  }
}
