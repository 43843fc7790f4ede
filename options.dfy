/** What the wrapper's `__getattr__` and `__setattr__` do to the engine's option
    fields, stated on a `Config` value: `Read` maps the fields back to a friendly
    value, `Write` validates a friendly value and computes the new fields or the
    error. `ApplyAll` is `set_options`' loop, `Collect` is `get_options`', and
    `Update` is the `dict.update` that `__init__` uses to merge its defaults
    with the caller's options. */
module Options {
  import opened Values
  import opened Engine

  /** The thirteen option names `__setattr__` and `__getattr__` recognise. */
  datatype Key =
    | IndentedKey | TexvcCompatibilityKey | SpacingKey | DisallowPlane1Key
    | MathmlEncodingKey | OtherEncodingKey | MathmlVersion1FontsKey
    | UseUcsPackageKey | UseCjkPackageKey | UsePreviewPackageKey
    | JapaneseFontKey | LatexPreambleKey | LatexBeforeMathKey

  function Name(k: Key): string
  {
    match k
    case IndentedKey => "indented"
    case TexvcCompatibilityKey => "texvc_compatibility"
    case SpacingKey => "spacing"
    case DisallowPlane1Key => "disallow_plane_1"
    case MathmlEncodingKey => "mathml_encoding"
    case OtherEncodingKey => "other_encoding"
    case MathmlVersion1FontsKey => "mathml_version1_fonts"
    case UseUcsPackageKey => "use_ucs_package"
    case UseCjkPackageKey => "use_cjk_package"
    case UsePreviewPackageKey => "use_preview_package"
    case JapaneseFontKey => "japanese_font"
    case LatexPreambleKey => "latex_preamble"
    case LatexBeforeMathKey => "latex_before_math"
  }

  /** The `if key == ... elif ...` dispatch shared by `__setattr__` and
      `__getattr__`. */
  function KeyOf(name: string): (r: Option<Key>)
    ensures r.Some? ==> Name(r.value) == name
  {
    if name == "indented" then Some(IndentedKey)
    else if name == "texvc_compatibility" then Some(TexvcCompatibilityKey)
    else if name == "spacing" then Some(SpacingKey)
    else if name == "disallow_plane_1" then Some(DisallowPlane1Key)
    else if name == "mathml_encoding" then Some(MathmlEncodingKey)
    else if name == "other_encoding" then Some(OtherEncodingKey)
    else if name == "mathml_version1_fonts" then Some(MathmlVersion1FontsKey)
    else if name == "use_ucs_package" then Some(UseUcsPackageKey)
    else if name == "use_cjk_package" then Some(UseCjkPackageKey)
    else if name == "use_preview_package" then Some(UsePreviewPackageKey)
    else if name == "japanese_font" then Some(JapaneseFontKey)
    else if name == "latex_preamble" then Some(LatexPreambleKey)
    else if name == "latex_before_math" then Some(LatexBeforeMathKey)
    else None
  }

  /** The names `get_options` reads, in its order. */
  const OptionNames: seq<string> :=
    ["indented", "texvc_compatibility", "spacing",
     "disallow_plane_1", "mathml_encoding", "other_encoding",
     "mathml_version1_fonts",
     "use_ucs_package", "use_cjk_package", "use_preview_package",
     "japanese_font", "latex_preamble", "latex_before_math"]

  /** Every option's name is listed, in the place of its branch in the
      dispatch, and dispatches back to it. */
  lemma NamesListed(k: Key)
    ensures Name(k) in OptionNames && KeyOf(Name(k)) == Some(k)
  {
    match k
    case IndentedKey => assert Name(k) == OptionNames[0];
    case TexvcCompatibilityKey => assert Name(k) == OptionNames[1];
    case SpacingKey => assert Name(k) == OptionNames[2];
    case DisallowPlane1Key => assert Name(k) == OptionNames[3];
    case MathmlEncodingKey => assert Name(k) == OptionNames[4];
    case OtherEncodingKey => assert Name(k) == OptionNames[5];
    case MathmlVersion1FontsKey => assert Name(k) == OptionNames[6];
    case UseUcsPackageKey => assert Name(k) == OptionNames[7];
    case UseCjkPackageKey => assert Name(k) == OptionNames[8];
    case UsePreviewPackageKey => assert Name(k) == OptionNames[9];
    case JapaneseFontKey => assert Name(k) == OptionNames[10];
    case LatexPreambleKey => assert Name(k) == OptionNames[11];
    case LatexBeforeMathKey => assert Name(k) == OptionNames[12];
  }

  /** Every listed name is recognised by the dispatch. */
  lemma ListedNamesKnown(i: nat)
    requires i < |OptionNames|
    ensures KeyOf(OptionNames[i]).Some?
  {
  }

  /** `get_options` reads exactly the names `__setattr__` accepts, each once. */
  lemma OptionNamesAreTheKeys()
    ensures forall name :: KeyOf(name).Some? <==> name in OptionNames
    ensures forall k :: KeyOf(Name(k)) == Some(k)
    ensures forall i, j | 0 <= i < j < |OptionNames| :: OptionNames[i] != OptionNames[j]
  {
    forall k: Key ensures Name(k) in OptionNames && KeyOf(Name(k)) == Some(k) {
      NamesListed(k);
    }
    forall name | name in OptionNames ensures KeyOf(name).Some? {
      var i :| 0 <= i < |OptionNames| && OptionNames[i] == name;
      ListedNamesKnown(i);
    }
    forall i, j | 0 <= i < j < |OptionNames| ensures OptionNames[i] != OptionNames[j] {
      ListedNamesKnown(i);
      ListedNamesKnown(j);
      assert KeyOf(OptionNames[i]) != KeyOf(OptionNames[j]);
    }
  }

  /** The engine constant `__setattr__` stores for a `Blahtex.SPACING`
      member; `__getattr__` reads it back as that member. */
  function SpacingControlOf(s: Spacing): (r: SpacingControl)
    ensures SpacingOf(r) == s
  {
    match s
    case STRICT => StrictSpacing
    case MODERATE => ModerateSpacing
    case RELAXED => RelaxedSpacing
  }

  /** The engine's spacing read back as `Blahtex.SPACING`. */
  function SpacingOf(c: SpacingControl): Spacing
  {
    match c
    case StrictSpacing => STRICT
    case ModerateSpacing => MODERATE
    case RelaxedSpacing => RELAXED
  }

  /** The engine constant `__setattr__` stores for a `Blahtex.ENCODING`
      member given as `mathml_encoding`; `__getattr__` reads it back as that
      member. */
  function MathmlEncodingOf(e: Encoding): (r: MathmlEncoding)
    ensures EncodingOf(r) == e
  {
    match e
    case RAW => RawEncoding
    case NUMERIC => NumericEncoding
    case LONG => LongEncoding
    case SHORT => ShortEncoding
  }

  /** The engine's MathML encoding read back as `Blahtex.ENCODING`. */
  function EncodingOf(m: MathmlEncoding): Encoding
  {
    match m
    case RawEncoding => RAW
    case NumericEncoding => NUMERIC
    case LongEncoding => LONG
    case ShortEncoding => SHORT
  }

  /** Reading the engine spacing and writing the result back stores the same
      engine constant. */
  lemma SpacingStoredAgain(c: SpacingControl)
    ensures SpacingControlOf(SpacingOf(c)) == c
  {
  }

  /** Reading the engine MathML encoding and writing it back stores the same
      engine constant. Both directions test `LONG` before `SHORT`, the reverse
      of the order in which `Blahtex.ENCODING` declares them; members are
      matched by identity, so the order is harmless. */
  lemma EncodingStoredAgain(m: MathmlEncoding)
    ensures MathmlEncodingOf(EncodingOf(m)) == m
  {
  }

  /** The values `__setattr__` (with the binding's type conversion) stores
      for each option without raising. */
  predicate Admits(k: Key, v: PyValue)
  {
    match k
    case IndentedKey => v.BoolV?
    case TexvcCompatibilityKey => v.BoolV?
    case SpacingKey => v.SpacingV?
    case DisallowPlane1Key => true
    case MathmlEncodingKey => v.EncodingV?
    case OtherEncodingKey => v.EncodingV? && (v.encoding == RAW || v.encoding == NUMERIC)
    case MathmlVersion1FontsKey => v.BoolV?
    case UseUcsPackageKey => v.BoolV?
    case UseCjkPackageKey => v.BoolV?
    case UsePreviewPackageKey => v.BoolV?
    case JapaneseFontKey => v.StrV?
    case LatexPreambleKey => v.StrV?
    case LatexBeforeMathKey => v.StrV?
  }

  predicate Accepted(name: string, v: PyValue)
  {
    KeyOf(name).Some? && Admits(KeyOf(name).value, v)
  }

  /** What reading an option returns after `v` was written to it: the value
      itself, except that `disallow_plane_1` stores `not v`, so it reads back
      as `v`'s truth value. */
  function ReadBack(name: string, v: PyValue): PyValue
  {
    if KeyOf(name) == Some(DisallowPlane1Key) then BoolV(Truthy(v)) else v
  }

  /** `disallow_plane_1`'s two engine fields agree. Every write of that option
      sets both, and no other write touches either. */
  predicate Agree(c: Config)
  {
    c.mathmlAllowPlane1 == c.encodingAllowPlane1
  }

  /** The branch of `__getattr__` for a known option: the value it reads can
      be written back, and `disallow_plane_1` reads as a `bool`. */
  function ReadKey(c: Config, k: Key): (r: PyValue)
    ensures Admits(k, r)
    ensures k == DisallowPlane1Key ==> r.BoolV?
  {
    match k
    case IndentedKey => BoolV(c.indented)
    case TexvcCompatibilityKey => BoolV(c.texvcCompatibility)
    case SpacingKey => SpacingV(SpacingOf(c.spacingControl))
    case DisallowPlane1Key => BoolV(!c.mathmlAllowPlane1)
    case MathmlEncodingKey => EncodingV(EncodingOf(c.mathmlEncoding))
    case OtherEncodingKey => EncodingV(if c.otherEncodingRaw then RAW else NUMERIC)
    case MathmlVersion1FontsKey => BoolV(c.useVersion1FontAttributes)
    case UseUcsPackageKey => BoolV(c.allowUcs)
    case UseCjkPackageKey => BoolV(c.allowCjk)
    case UsePreviewPackageKey => BoolV(c.allowPreview)
    case JapaneseFontKey => StrV(c.japaneseFont)
    case LatexPreambleKey => StrV(c.latexPreamble)
    case LatexBeforeMathKey => StrV(c.latexBeforeMath)
  }

  /** `__getattr__`: an unknown name falls off the end and gives `None`; every
      value read for a known name can be written back, and reads back the same. */
  function Read(c: Config, name: string): (r: PyValue)
    ensures KeyOf(name).None? ==> r == NoneV
    ensures KeyOf(name).Some? ==> Accepted(name, r) && ReadBack(name, r) == r
  {
    match KeyOf(name)
    case None => NoneV
    case Some(k) => ReadKey(c, k)
  }

  const SpacingMessage: string := "spacing must be one of Blahtex.SPACING.{STRICT,MODERATE,RELAXED}"
  const MathmlEncodingMessage: string := "mathml_encoding must be one of Blahtex.ENCODING.{RAW,NUMERIC,LONG,SHORT}"
  const OtherEncodingMessage: string := "other_encoding must be one of Blahtex.ENCODING.{RAW,NUMERIC}"

  /** Which engine fields each option owns: `d` differs from `c` at most in
      the fields of option `k`. The display mode belongs to no option. */
  predicate OnlyOwnFields(c: Config, d: Config, k: Key)
  {
    && (k != IndentedKey ==> d.indented == c.indented)
    && (k != TexvcCompatibilityKey ==> d.texvcCompatibility == c.texvcCompatibility)
    && (k != SpacingKey ==> d.spacingControl == c.spacingControl)
    && (k != DisallowPlane1Key ==> d.mathmlAllowPlane1 == c.mathmlAllowPlane1)
    && (k != DisallowPlane1Key ==> d.encodingAllowPlane1 == c.encodingAllowPlane1)
    && (k != MathmlEncodingKey ==> d.mathmlEncoding == c.mathmlEncoding)
    && (k != OtherEncodingKey ==> d.otherEncodingRaw == c.otherEncodingRaw)
    && (k != MathmlVersion1FontsKey ==> d.useVersion1FontAttributes == c.useVersion1FontAttributes)
    && (k != UseUcsPackageKey ==> d.allowUcs == c.allowUcs)
    && (k != UseCjkPackageKey ==> d.allowCjk == c.allowCjk)
    && (k != UsePreviewPackageKey ==> d.allowPreview == c.allowPreview)
    && (k != JapaneseFontKey ==> d.japaneseFont == c.japaneseFont)
    && (k != LatexPreambleKey ==> d.latexPreamble == c.latexPreamble)
    && (k != LatexBeforeMathKey ==> d.latexBeforeMath == c.latexBeforeMath)
    && d.displayMath == c.displayMath
  }

  /** Changing only the fields of option `k` changes the read of no other
      option. */
  lemma OtherReadsKept(c: Config, d: Config, k: Key, j: Key)
    requires OnlyOwnFields(c, d, k) && j != k
    ensures ReadKey(d, j) == ReadKey(c, j)
  {
  }

  /** What `__setattr__` raises for a refused value of option `k`: the
      option's own `ValueError` for a spacing or an encoding, otherwise the
      binding's `TypeError` for a value of the wrong type. */
  function Refusal(k: Key): PyError
  {
    match k
    case SpacingKey => ValueError(SpacingMessage)
    case MathmlEncodingKey => ValueError(MathmlEncodingMessage)
    case OtherEncodingKey => ValueError(OtherEncodingMessage)
    case _ => TypeError
  }

  /** The contract of one write to option `k`: it succeeds exactly for an
      admitted value, which then reads back as written; it changes only the
      option's own fields (`WriteKeyOwnFields`); it keeps, or for `disallow_plane_1` establishes,
      the agreement of the two plane-1 fields; a refusal raises `Refusal(k)`. */
  predicate StoresOption(c: Config, k: Key, v: PyValue, r: Result<Config, PyError>)
  {
    && (r.Ok? <==> Admits(k, v))
    && (r.Ok? ==> ReadKey(r.value, k) == if k == DisallowPlane1Key then BoolV(Truthy(v)) else v)
    && (r.Ok? && (Agree(c) || k == DisallowPlane1Key) ==> Agree(r.value))
    && (r.Err? ==> r.error == Refusal(k))
  }

  /** The flags stored in the engine `Interface` itself. */
  function WriteCoreFlag(c: Config, k: Key, v: PyValue): (r: Result<Config, PyError>)
    requires k == IndentedKey || k == TexvcCompatibilityKey
    ensures StoresOption(c, k, v, r)
  {
    if !v.BoolV? then Err(TypeError)
    else if k == IndentedKey then Ok(c.(indented := v.b))
    else Ok(c.(texvcCompatibility := v.b))
  }

  /** The options stored in `MathmlOptions`, and `disallow_plane_1`, which
      is stored in `MathmlOptions` and `EncodingOptions` alike. */
  function WriteMathmlOption(c: Config, k: Key, v: PyValue): (r: Result<Config, PyError>)
    requires k == SpacingKey || k == DisallowPlane1Key || k == MathmlVersion1FontsKey
    ensures StoresOption(c, k, v, r)
  {
    if k == SpacingKey then
      if v.SpacingV? then Ok(c.(spacingControl := SpacingControlOf(v.spacing)))
      else Err(ValueError(SpacingMessage))
    else if k == DisallowPlane1Key then
      Ok(c.(mathmlAllowPlane1 := !Truthy(v), encodingAllowPlane1 := !Truthy(v)))
    else if v.BoolV? then Ok(c.(useVersion1FontAttributes := v.b))
    else Err(TypeError)
  }

  /** The two encodings stored in `EncodingOptions`. */
  function WriteEncodingOption(c: Config, k: Key, v: PyValue): (r: Result<Config, PyError>)
    requires k == MathmlEncodingKey || k == OtherEncodingKey
    ensures StoresOption(c, k, v, r)
  {
    if k == MathmlEncodingKey then
      if v.EncodingV? then Ok(c.(mathmlEncoding := MathmlEncodingOf(v.encoding)))
      else Err(ValueError(MathmlEncodingMessage))
    else if v.EncodingV? && v.encoding == RAW then Ok(c.(otherEncodingRaw := true))
    else if v.EncodingV? && v.encoding == NUMERIC then Ok(c.(otherEncodingRaw := false))
    else Err(ValueError(OtherEncodingMessage))
  }

  /** The package flags stored in `PurifiedTexOptions`. */
  function WritePackageFlag(c: Config, k: Key, v: PyValue): (r: Result<Config, PyError>)
    requires k == UseUcsPackageKey || k == UseCjkPackageKey || k == UsePreviewPackageKey
    ensures StoresOption(c, k, v, r)
  {
    if !v.BoolV? then Err(TypeError)
    else match k
      case UseUcsPackageKey => Ok(c.(allowUcs := v.b))
      case UseCjkPackageKey => Ok(c.(allowCjk := v.b))
      case UsePreviewPackageKey => Ok(c.(allowPreview := v.b))
  }

  /** The strings stored in `PurifiedTexOptions`. */
  function WriteTexText(c: Config, k: Key, v: PyValue): (r: Result<Config, PyError>)
    requires k == JapaneseFontKey || k == LatexPreambleKey || k == LatexBeforeMathKey
    ensures StoresOption(c, k, v, r)
  {
    if !v.StrV? then Err(TypeError)
    else if k == JapaneseFontKey then Ok(c.(japaneseFont := v.s))
    else if k == LatexPreambleKey then Ok(c.(latexPreamble := v.s))
    else Ok(c.(latexBeforeMath := v.s))
  }

  /** `__setattr__` for a known option: the branch of the engine struct that
      holds it. */
  function WriteKey(c: Config, k: Key, v: PyValue): (r: Result<Config, PyError>)
    ensures StoresOption(c, k, v, r)
  {
    match k
    case IndentedKey | TexvcCompatibilityKey => WriteCoreFlag(c, k, v)
    case SpacingKey | DisallowPlane1Key | MathmlVersion1FontsKey => WriteMathmlOption(c, k, v)
    case MathmlEncodingKey | OtherEncodingKey => WriteEncodingOption(c, k, v)
    case UseUcsPackageKey | UseCjkPackageKey | UsePreviewPackageKey => WritePackageFlag(c, k, v)
    case JapaneseFontKey | LatexPreambleKey | LatexBeforeMathKey => WriteTexText(c, k, v)
  }

  lemma CoreFlagOwnFields(c: Config, k: Key, v: PyValue)
    requires k == IndentedKey || k == TexvcCompatibilityKey
    requires v.BoolV?
    ensures OnlyOwnFields(c, WriteCoreFlag(c, k, v).value, k)
  {
  }

  lemma MathmlOptionOwnFields(c: Config, k: Key, v: PyValue)
    requires k == SpacingKey || k == DisallowPlane1Key || k == MathmlVersion1FontsKey
    requires WriteMathmlOption(c, k, v).Ok?
    ensures OnlyOwnFields(c, WriteMathmlOption(c, k, v).value, k)
  {
  }

  lemma MathmlEncodingOwnFields(c: Config, v: PyValue)
    requires v.EncodingV?
    ensures OnlyOwnFields(c, WriteEncodingOption(c, MathmlEncodingKey, v).value, MathmlEncodingKey)
  {
  }

  lemma OtherEncodingOwnFields(c: Config, v: PyValue)
    requires v.EncodingV? && (v.encoding == RAW || v.encoding == NUMERIC)
    ensures OnlyOwnFields(c, WriteEncodingOption(c, OtherEncodingKey, v).value, OtherEncodingKey)
  {
  }

  lemma PackageFlagOwnFields(c: Config, k: Key, v: PyValue)
    requires k == UseUcsPackageKey || k == UseCjkPackageKey || k == UsePreviewPackageKey
    requires v.BoolV?
    ensures OnlyOwnFields(c, WritePackageFlag(c, k, v).value, k)
  {
  }

  lemma TexTextOwnFields(c: Config, k: Key, v: PyValue)
    requires k == JapaneseFontKey || k == LatexPreambleKey || k == LatexBeforeMathKey
    requires v.StrV?
    ensures OnlyOwnFields(c, WriteTexText(c, k, v).value, k)
  {
  }

  /** A successful write changes only the fields of the option written. */
  lemma WriteKeyOwnFields(c: Config, k: Key, v: PyValue)
    requires WriteKey(c, k, v).Ok?
    ensures OnlyOwnFields(c, WriteKey(c, k, v).value, k)
  {
    match k
    case IndentedKey | TexvcCompatibilityKey => CoreFlagOwnFields(c, k, v);
    case SpacingKey | DisallowPlane1Key | MathmlVersion1FontsKey => MathmlOptionOwnFields(c, k, v);
    case MathmlEncodingKey => MathmlEncodingOwnFields(c, v);
    case OtherEncodingKey => OtherEncodingOwnFields(c, v);
    case UseUcsPackageKey | UseCjkPackageKey | UsePreviewPackageKey => PackageFlagOwnFields(c, k, v);
    case JapaneseFontKey | LatexPreambleKey | LatexBeforeMathKey => TexTextOwnFields(c, k, v);
  }

  /** What `__setattr__` raises when it refuses a value for `name`: the
      unknown-attribute `ValueError`, or the known option's own refusal. It
      depends on the name alone. */
  function ErrorOf(name: string): PyError
  {
    match KeyOf(name)
    case None => ValueError("Unknown attribute '" + name + "'")
    case Some(k) => Refusal(k)
  }

  /** `__setattr__`. It succeeds exactly for an admitted value of a known
      option; the option then reads back as written, every other option reads
      as before, and no field outside the option's own changes. An unknown
      name is refused with the source's message. */
  function Write(c: Config, name: string, v: PyValue): (r: Result<Config, PyError>)
    ensures r.Ok? <==> Accepted(name, v)
    ensures r.Err? ==> r.error == ErrorOf(name)
    ensures r.Ok? ==> Read(r.value, name) == ReadBack(name, v)
    ensures r.Ok? ==> forall other :: KeyOf(other) != KeyOf(name) ==> Read(r.value, other) == Read(c, other)
    ensures r.Ok? ==> OnlyOwnFields(c, r.value, KeyOf(name).value)
    ensures r.Ok? && (Agree(c) || KeyOf(name) == Some(DisallowPlane1Key)) ==> Agree(r.value)
  {
    match KeyOf(name)
    case None => Err(ValueError("Unknown attribute '" + name + "'"))
    case Some(k) =>
      var r := WriteKey(c, k, v);
      if r.Err? then r
      else
        WriteKeyOwnFields(c, k, v);
        assert forall j | j != k :: ReadKey(r.value, j) == ReadKey(c, j) by {
          forall j | j != k ensures ReadKey(r.value, j) == ReadKey(c, j) {
            OtherReadsKept(c, r.value, k, j);
          }
        }
        r
  }

  /** Every `Blahtex.SPACING` member is accepted, stored as the engine's
      matching constant, and read back as itself. */
  lemma SpacingRoundTrip(c: Config, s: Spacing)
    ensures Write(c, "spacing", SpacingV(s)).Ok?
    ensures Write(c, "spacing", SpacingV(s)).value.spacingControl == SpacingControlOf(s)
    ensures Read(Write(c, "spacing", SpacingV(s)).value, "spacing") == SpacingV(s)
  {
  }

  /** Every `Blahtex.ENCODING` member is accepted for `mathml_encoding`,
      stored as the engine's matching constant, and read back as itself. */
  lemma MathmlEncodingRoundTrip(c: Config, e: Encoding)
    ensures Write(c, "mathml_encoding", EncodingV(e)).Ok?
    ensures Write(c, "mathml_encoding", EncodingV(e)).value.mathmlEncoding == MathmlEncodingOf(e)
    ensures Read(Write(c, "mathml_encoding", EncodingV(e)).value, "mathml_encoding") == EncodingV(e)
  {
  }

  /** `other_encoding` accepts `RAW`, stored as `true`, and `NUMERIC`, stored
      as `false`, and reads either back; anything else raises its
      `ValueError`. */
  lemma OtherEncodingWrite(c: Config, v: PyValue)
    ensures Write(c, "other_encoding", v).Ok? <==> v == EncodingV(RAW) || v == EncodingV(NUMERIC)
    ensures Write(c, "other_encoding", v).Ok? ==>
      Write(c, "other_encoding", v).value.otherEncodingRaw == (v == EncodingV(RAW)) &&
      Read(Write(c, "other_encoding", v).value, "other_encoding") == v
    ensures Write(c, "other_encoding", v).Err? ==>
      Write(c, "other_encoding", v).error == ValueError(OtherEncodingMessage)
  {
  }

  /** `disallow_plane_1` accepts any value, sets both `allow_plane1` fields
      to its negation, and reads back as its truth value. */
  lemma DisallowPlane1Write(c: Config, v: PyValue)
    ensures Write(c, "disallow_plane_1", v).Ok?
    ensures var d := Write(c, "disallow_plane_1", v).value;
      d.mathmlAllowPlane1 == !Truthy(v) && d.encodingAllowPlane1 == !Truthy(v) &&
      Agree(d) && Read(d, "disallow_plane_1") == BoolV(Truthy(v))
  {
  }

  /** Why `__setattr__` refuses a value: an unknown name, a spacing or an
      encoding that is not one of the listed members, each with its own
      `ValueError`, or a value of the wrong type for a typed engine field. */
  lemma WriteRejections(c: Config, name: string, v: PyValue)
    requires !Accepted(name, v)
    ensures Write(c, name, v).Err?
    ensures Write(c, name, v).error ==
      match KeyOf(name)
      case None => ValueError("Unknown attribute '" + name + "'")
      case Some(SpacingKey) => ValueError(SpacingMessage)
      case Some(MathmlEncodingKey) => ValueError(MathmlEncodingMessage)
      case Some(OtherEncodingKey) => ValueError(OtherEncodingMessage)
      case Some(_) => TypeError
    ensures Write(c, name, v).error == ErrorOf(name)
  {
  }

  /** The outcome of `set_options`' loop: the fields after it stopped, and the
      error that stopped it, if any. */
  datatype Applied = Applied(config: Config, error: Option<PyError>)

  /** Item `i` is the first one `__setattr__` refuses. */
  predicate FirstRefused(items: seq<Item>, i: int)
  {
    && 0 <= i < |items|
    && !Accepted(items[i].0, items[i].1)
    && forall j | 0 <= j < i :: Accepted(items[j].0, items[j].1)
  }

  /** `for k, v in opts.items(): setattr(self, k, v)`: the first rejected
      item stops the loop; the writes before it stay. It runs to the end
      exactly when every item is accepted. */
  function ApplyAll(c: Config, items: seq<Item>): (r: Applied)
    ensures r.error.None? <==> forall i | 0 <= i < |items| :: Accepted(items[i].0, items[i].1)
    decreases |items|
  {
    if items == [] then Applied(c, None)
    else match Write(c, items[0].0, items[0].1)
      case Err(e) => Applied(c, Some(e))
      case Ok(next) =>
        assert forall i | 1 <= i < |items| :: items[i] == items[1..][i - 1];
        ApplyAll(next, items[1..])
  }

  /** When `set_options` stops, it raises the error of the first item it
      refuses. */
  lemma {:induction false} ApplyAllRefusal(c: Config, items: seq<Item>)
    ensures ApplyAll(c, items).error.Some? ==>
      exists i :: FirstRefused(items, i) && ApplyAll(c, items).error.value == ErrorOf(items[i].0)
    decreases |items|
  {
    if items != [] {
      var w := Write(c, items[0].0, items[0].1);
      if w.Err? {
        assert FirstRefused(items, 0);
      } else if ApplyAll(w.value, items[1..]).error.Some? {
        ApplyAllRefusal(w.value, items[1..]);
        var i :| FirstRefused(items[1..], i) && ApplyAll(w.value, items[1..]).error.value == ErrorOf(items[1..][i].0);
        assert FirstRefused(items, i + 1) by {
          assert forall j | 1 <= j <= i + 1 :: items[j] == items[1..][j - 1];
        }
      }
    }
  }

  /** The value of the last item for `name`, if there is one. */
  function LastValue(items: seq<Item>, name: string): Option<PyValue>
    decreases |items|
  {
    if items == [] then None
    else
      var later := LastValue(items[1..], name);
      if later.Some? then later
      else if items[0].0 == name then Some(items[0].1)
      else None
  }

  /** `get_options`' dictionary: each name with the value it reads. */
  function Collect(c: Config, names: seq<string>): (r: seq<Item>)
    ensures |r| == |names|
    ensures forall i | 0 <= i < |names| :: r[i] == (names[i], Read(c, names[i]))
    decreases |names|
  {
    if names == [] then [] else [(names[0], Read(c, names[0]))] + Collect(c, names[1..])
  }

  /** A rejected item stops `set_options`: the fields are those after the
      items before it, and the error is the one that item raised. */
  lemma {:induction false} ApplyAllStops(c: Config, items: seq<Item>, i: nat)
    requires i < |items| && !Accepted(items[i].0, items[i].1)
    requires forall j | 0 <= j < i :: Accepted(items[j].0, items[j].1)
    ensures var before := ApplyAll(c, items[..i]).config;
      Write(before, items[i].0, items[i].1).Err? &&
      ApplyAll(c, items) == Applied(before, Some(Write(before, items[i].0, items[i].1).error))
    decreases i
  {
    if i > 0 {
      var next := Write(c, items[0].0, items[0].1).value;
      assert items[1..][..i - 1] == items[..i][1..];
      ApplyAllStops(next, items[1..], i - 1);
    }
  }

  /** After a successful `set_options`, every option reads as the last value
      written to it, and an option not written reads as before. */
  lemma {:induction false} ApplyAllReads(c: Config, items: seq<Item>, name: string)
    requires ApplyAll(c, items).error.None?
    ensures Read(ApplyAll(c, items).config, name) ==
      match LastValue(items, name)
      case Some(v) => ReadBack(name, v)
      case None => Read(c, name)
    decreases |items|
  {
    if items != [] {
      var next := Write(c, items[0].0, items[0].1).value;
      ApplyAllReads(next, items[1..], name);
      if LastValue(items[1..], name).None? && items[0].0 != name {
        assert KeyOf(name) != KeyOf(items[0].0) || KeyOf(name).None?;
      }
    }
  }

  /** `set_options` never changes the display mode, keeps the plane-1 fields
      in agreement, and brings them into agreement when its first item is
      `disallow_plane_1`. */
  lemma {:induction false} ApplyAllKeeps(c: Config, items: seq<Item>)
    ensures ApplyAll(c, items).config.displayMath == c.displayMath
    ensures Agree(c) || (|items| > 0 && items[0].0 == "disallow_plane_1") ==> Agree(ApplyAll(c, items).config)
    decreases |items|
  {
    if items != [] {
      var w := Write(c, items[0].0, items[0].1);
      if w.Ok? {
        ApplyAllKeeps(w.value, items[1..]);
      }
    }
  }

  lemma {:induction false} LastValueCollect(c: Config, names: seq<string>, name: string)
    ensures LastValue(Collect(c, names), name) == if name in names then Some(Read(c, name)) else None
    decreases |names|
  {
    if names != [] {
      LastValueCollect(c, names[1..], name);
      assert Collect(c, names)[1..] == Collect(c, names[1..]);
    }
  }

  /** The reads of all options, the display mode and plane-1 agreement pin
      the engine fields down completely. */
  lemma ReadsDetermine(c: Config, d: Config)
    requires forall k :: ReadKey(c, k) == ReadKey(d, k)
    requires c.displayMath == d.displayMath
    requires Agree(c) && Agree(d)
    ensures c == d
  {
    assert ReadKey(c, SpacingKey) == ReadKey(d, SpacingKey);
    SpacingStoredAgain(c.spacingControl);
    SpacingStoredAgain(d.spacingControl);
    assert ReadKey(c, MathmlEncodingKey) == ReadKey(d, MathmlEncodingKey);
    EncodingStoredAgain(c.mathmlEncoding);
    EncodingStoredAgain(d.mathmlEncoding);
    assert ReadKey(c, OtherEncodingKey) == ReadKey(d, OtherEncodingKey);
    assert ReadKey(c, DisallowPlane1Key) == ReadKey(d, DisallowPlane1Key);
    assert ReadKey(c, IndentedKey) == ReadKey(d, IndentedKey);
    assert ReadKey(c, TexvcCompatibilityKey) == ReadKey(d, TexvcCompatibilityKey);
    assert ReadKey(c, MathmlVersion1FontsKey) == ReadKey(d, MathmlVersion1FontsKey);
    assert ReadKey(c, UseUcsPackageKey) == ReadKey(d, UseUcsPackageKey);
    assert ReadKey(c, UseCjkPackageKey) == ReadKey(d, UseCjkPackageKey);
    assert ReadKey(c, UsePreviewPackageKey) == ReadKey(d, UsePreviewPackageKey);
    assert ReadKey(c, JapaneseFontKey) == ReadKey(d, JapaneseFontKey);
    assert ReadKey(c, LatexPreambleKey) == ReadKey(d, LatexPreambleKey);
    assert ReadKey(c, LatexBeforeMathKey) == ReadKey(d, LatexBeforeMathKey);
  }

  /** Writing back the reads of any list of known option names succeeds and
      leaves every option reading as before. */
  lemma SetCollected(c: Config, names: seq<string>)
    requires forall i | 0 <= i < |names| :: KeyOf(names[i]).Some?
    ensures ApplyAll(c, Collect(c, names)).error == None
    ensures forall name :: Read(ApplyAll(c, Collect(c, names)).config, name) == Read(c, name)
  {
    var items := Collect(c, names);
    assert forall i | 0 <= i < |items| :: Accepted(items[i].0, items[i].1) by {
      forall i | 0 <= i < |items| ensures Accepted(items[i].0, items[i].1) {
        assert items[i] == (names[i], Read(c, names[i]));
      }
    }
    var after := ApplyAll(c, items).config;
    forall name ensures Read(after, name) == Read(c, name) {
      ApplyAllReads(c, items, name);
      LastValueCollect(c, names, name);
    }
  }

  /** Two configurations whose every option name reads the same agree on
      every key. */
  lemma SameReads(c: Config, d: Config)
    requires forall name :: Read(d, name) == Read(c, name)
    ensures forall k :: ReadKey(c, k) == ReadKey(d, k)
  {
    OptionNamesAreTheKeys();
    forall k ensures ReadKey(c, k) == ReadKey(d, k) {
      assert Read(c, Name(k)) == Read(d, Name(k));
    }
  }

  /** `set_options(get_options())` succeeds and every option reads as before. */
  lemma GetSetRoundTrip(c: Config)
    ensures ApplyAll(c, Collect(c, OptionNames)).error == None
    ensures forall name :: Read(ApplyAll(c, Collect(c, OptionNames)).config, name) == Read(c, name)
  {
    assert forall i | 0 <= i < |OptionNames| :: KeyOf(OptionNames[i]).Some? by {
      OptionNamesAreTheKeys();
    }
    SetCollected(c, OptionNames);
  }

  /** When the plane-1 fields agree, `set_options(get_options())` leaves the
      engine fields exactly as they were. */
  lemma GetSetRestores(c: Config)
    requires Agree(c)
    ensures ApplyAll(c, Collect(c, OptionNames)) == Applied(c, None)
  {
    var applied := ApplyAll(c, Collect(c, OptionNames));
    GetSetRoundTrip(c);
    ApplyAllKeeps(c, Collect(c, OptionNames));
    SameReads(c, applied.config);
    ReadsDetermine(c, applied.config);
  }

  /** An insertion-ordered dictionary has each key once. */
  predicate DistinctKeys(d: seq<Item>)
  {
    forall i, j | 0 <= i < j < |d| :: d[i].0 != d[j].0
  }

  function IndexOf(d: seq<Item>, key: string): (r: Option<nat>)
    ensures r.Some? ==> r.value < |d| && d[r.value].0 == key
    ensures r.None? ==> forall i | 0 <= i < |d| :: d[i].0 != key
    decreases |d|
  {
    if d == [] then None
    else if d[0].0 == key then Some(0)
    else match IndexOf(d[1..], key)
      case Some(i) => Some(i + 1)
      case None => None
  }

  /** `d[key] = value`: an existing key keeps its place, a new one goes last;
      either way the entry is in the dictionary afterwards. */
  function Put(d: seq<Item>, item: Item): (r: seq<Item>)
    ensures |r| == |d| || (|r| == |d| + 1 && r[|d|] == item)
    ensures forall i | 0 <= i < |d| :: r[i].0 == d[i].0
    ensures item in r
  {
    match IndexOf(d, item.0)
    case Some(i) => d[i := item]
    case None => d + [item]
  }

  /** `d.update(extra)`: `d`'s keys keep their places. */
  function Update(d: seq<Item>, extra: seq<Item>): (r: seq<Item>)
    ensures |r| >= |d|
    ensures forall i | 0 <= i < |d| :: r[i].0 == d[i].0
    decreases |extra|
  {
    if extra == [] then d else Update(Put(d, extra[0]), extra[1..])
  }

  lemma {:induction false} LastValueAbsent(d: seq<Item>, name: string)
    ensures LastValue(d, name).None? <==> forall i | 0 <= i < |d| :: d[i].0 != name
    decreases |d|
  {
    if d != [] {
      LastValueAbsent(d[1..], name);
      assert forall i | 1 <= i < |d| :: d[i] == d[1..][i - 1];
    }
  }

  lemma {:induction false} LastValueAt(d: seq<Item>, i: nat)
    requires DistinctKeys(d) && i < |d|
    ensures LastValue(d, d[i].0) == Some(d[i].1)
    decreases |d|
  {
    var rest := d[1..];
    assert DistinctKeys(rest) by {
      forall a, b | 0 <= a < b < |rest| ensures rest[a].0 != rest[b].0 {
        assert rest[a] == d[a + 1] && rest[b] == d[b + 1];
      }
    }
    if i == 0 {
      forall j | 0 <= j < |rest| ensures rest[j].0 != d[0].0 {
        assert rest[j] == d[j + 1];
      }
      LastValueAbsent(rest, d[0].0);
    } else {
      LastValueAt(rest, i - 1);
    }
  }

  /** Two dictionaries whose entries for `name` are the same have the same
      value for it. */
  lemma SameEntries(d: seq<Item>, e: seq<Item>, name: string)
    requires DistinctKeys(d) && DistinctKeys(e)
    requires forall i | 0 <= i < |d| && d[i].0 == name :: i < |e| && e[i] == d[i]
    requires forall i | 0 <= i < |e| && e[i].0 == name :: i < |d| && d[i] == e[i]
    ensures LastValue(d, name) == LastValue(e, name)
  {
    if i :| 0 <= i < |d| && d[i].0 == name {
      LastValueAt(d, i);
      LastValueAt(e, i);
    } else {
      LastValueAbsent(d, name);
      LastValueAbsent(e, name);
    }
  }

  lemma PutLastValue(d: seq<Item>, item: Item, name: string)
    requires DistinctKeys(d)
    ensures DistinctKeys(Put(d, item))
    ensures LastValue(Put(d, item), name) == if name == item.0 then Some(item.1) else LastValue(d, name)
  {
    var p := Put(d, item);
    match IndexOf(d, item.0)
    case Some(i) =>
      assert forall j | 0 <= j < |p| :: p[j].0 == d[j].0;
      if name == item.0 {
        LastValueAt(p, i);
      } else {
        SameEntries(d, p, name);
      }
    case None =>
      assert forall j | 0 <= j < |d| :: p[j] == d[j];
      if name == item.0 {
        LastValueAt(p, |d|);
      } else {
        SameEntries(d, p, name);
      }
  }

  /** After `d.update(extra)`, a key has its last value in `extra` if it
      occurs there, and its value in `d` otherwise. */
  lemma {:induction false} UpdateLastValue(d: seq<Item>, extra: seq<Item>, name: string)
    requires DistinctKeys(d)
    ensures DistinctKeys(Update(d, extra))
    ensures LastValue(Update(d, extra), name) ==
      if LastValue(extra, name).Some? then LastValue(extra, name) else LastValue(d, name)
    decreases |extra|
  {
    if extra != [] {
      PutLastValue(d, extra[0], name);
      UpdateLastValue(Put(d, extra[0]), extra[1..], name);
    }
  }

  /** The options `__init__` starts from, in its order. */
  const Defaults: seq<Item> :=
    [("disallow_plane_1", BoolV(false)),
     ("spacing", SpacingV(RELAXED)),
     ("mathml_encoding", EncodingV(RAW)),
     ("other_encoding", EncodingV(RAW))]

  /** The dictionary `__init__` hands to `set_options`: the defaults updated
      with the caller's options. The four default names stay first, in their
      order, so `disallow_plane_1` is applied before anything else. */
  function Initial(opts: seq<Item>): (r: seq<Item>)
    ensures |r| >= |Defaults|
    ensures forall i | 0 <= i < |Defaults| :: r[i].0 == Defaults[i].0
  {
    Update(Defaults, opts)
  }

  /** Every option has the caller's last value if the caller gave one, else
      its default. */
  lemma InitialOptions(opts: seq<Item>, name: string)
    ensures LastValue(Initial(opts), name) ==
      if LastValue(opts, name).Some? then LastValue(opts, name) else LastValue(Defaults, name)
  {
    assert DistinctKeys(Defaults) by {
      OptionNamesAreTheKeys();
      forall i, j | 0 <= i < j < |Defaults| ensures Defaults[i].0 != Defaults[j].0 {
        assert KeyOf(Defaults[i].0) != KeyOf(Defaults[j].0);
      }
    }
    UpdateLastValue(Defaults, opts, name);
  }

  /** The four defaults of `__init__` are accepted, and `disallow_plane_1`
      comes first. */
  lemma DefaultsAccepted()
    ensures forall i | 0 <= i < |Defaults| :: Accepted(Defaults[i].0, Defaults[i].1)
    ensures Defaults[0].0 == "disallow_plane_1"
  {
    assert Accepted(Defaults[0].0, Defaults[0].1);
    assert Accepted(Defaults[1].0, Defaults[1].1);
    assert Accepted(Defaults[2].0, Defaults[2].1);
    assert Accepted(Defaults[3].0, Defaults[3].1);
  }

  /** `Blahtex()` with no options: the defaults are all accepted, and the
      plane-1 fields agree afterwards. */
  lemma DefaultsApplied(c: Config)
    ensures ApplyAll(c, Initial([])).error == None
    ensures Agree(ApplyAll(c, Initial([])).config)
  {
    assert Initial([]) == Defaults;
    DefaultsAccepted();
    ApplyAllKeeps(c, Defaults);
  }

  lemma DefaultPlaneAndSpacing(c: Config)
    requires ApplyAll(c, Defaults).error == None
    ensures var d := ApplyAll(c, Defaults).config;
      Read(d, "disallow_plane_1") == BoolV(false) && Read(d, "spacing") == SpacingV(RELAXED)
  {
    ApplyAllReads(c, Defaults, "disallow_plane_1");
    ApplyAllReads(c, Defaults, "spacing");
  }

  lemma DefaultEncodings(c: Config)
    requires ApplyAll(c, Defaults).error == None
    ensures var d := ApplyAll(c, Defaults).config;
      Read(d, "mathml_encoding") == EncodingV(RAW) && Read(d, "other_encoding") == EncodingV(RAW)
  {
    ApplyAllReads(c, Defaults, "mathml_encoding");
    ApplyAllReads(c, Defaults, "other_encoding");
  }

  /** `Blahtex()` with no options: `disallow_plane_1` is false, `spacing` is
      `RELAXED`, and both encodings are `RAW`. */
  lemma DefaultOptions(c: Config)
    ensures var d := ApplyAll(c, Initial([])).config;
      Read(d, "disallow_plane_1") == BoolV(false) && Read(d, "spacing") == SpacingV(RELAXED) &&
      Read(d, "mathml_encoding") == EncodingV(RAW) && Read(d, "other_encoding") == EncodingV(RAW)
  {
    DefaultsApplied(c);
    assert Initial([]) == Defaults;
    DefaultPlaneAndSpacing(c);
    DefaultEncodings(c);
  }
}
