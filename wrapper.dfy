/** The Python class `Blahtex`: an engine `Interface` plus friendly option
    names, option dictionaries, and a `<math>` element around the engine's
    MathML. Every option access goes straight to the engine's fields; the
    class keeps no state of its own. */
module Wrapper {
  import opened Values
  import opened Engine
  import opened Options
  import Translator

  const MathmlNamespace: string := "http://www.w3.org/1998/Math/MathML"
  const CloseTag: string := "</math>"

  /** The opening tag `get_mathml` writes for a display mode. */
  function OpenTag(block: bool): string
  {
    "<math xmlns=\"" + MathmlNamespace + "\" display=\"" + (if block then "block" else "inline") + "\">"
  }

  /** Reads a `<math>` element as `get_mathml` writes it: the display mode
      and the content, or `None` for any other string. */
  function ParseMathElement(s: string): Option<(bool, string)>
  {
    var block := OpenTag(true);
    var inline := OpenTag(false);
    if |s| >= |block| + |CloseTag| && s[..|block|] == block && s[|s| - |CloseTag|..] == CloseTag then
      Some((true, s[|block|..|s| - |CloseTag|]))
    else if |s| >= |inline| + |CloseTag| && s[..|inline|] == inline && s[|s| - |CloseTag|..] == CloseTag then
      Some((false, s[|inline|..|s| - |CloseTag|]))
    else None
  }

  /** The string `get_mathml` returns: the engine's MathML inside a `<math>`
      element in the MathML namespace whose `display` attribute is `block`
      or `inline`. The display mode and the content can be read back. */
  function MathElement(block: bool, content: string): (r: string)
    ensures ParseMathElement(r) == Some((block, content))
    ensures r[..|OpenTag(block)|] == OpenTag(block)
    ensures |r| == |OpenTag(block)| + |content| + |CloseTag|
  {
    var r := OpenTag(block) + content + CloseTag;
    assert r[..|OpenTag(block)|] == OpenTag(block);
    assert r[|r| - |CloseTag|..] == CloseTag;
    assert r[|OpenTag(block)|..|r| - |CloseTag|] == content;
    assert !block ==> r[|OpenTag(true)| - 7] != OpenTag(true)[|OpenTag(true)| - 7];
    r
  }

  /** Every string `ParseMathElement` accepts is the `<math>` element of what
      it returns. */
  lemma ParseMathElementInverse(s: string)
    requires ParseMathElement(s).Some?
    ensures MathElement(ParseMathElement(s).value.0, ParseMathElement(s).value.1) == s
  {
    var (block, content) := ParseMathElement(s).value;
    var open := OpenTag(block);
    assert |s| >= |open| + |CloseTag| && s[..|open|] == open && s[|s| - |CloseTag|..] == CloseTag;
    assert content == s[|open|..|s| - |CloseTag|];
    assert s == s[..|open|] + s[|open|..|s| - |CloseTag|] + s[|s| - |CloseTag|..];
  }

  /** The arguments of `set_options`: a single `dict`, or else keyword
      arguments. Anything else is refused with an empty `ValueError`. */
  function OptionsArgument(args: seq<PyValue>, kwargs: seq<Item>): (r: Result<seq<Item>, PyError>)
    ensures r.Ok? <==> |args| == 0 || (|args| == 1 && args[0].DictV?)
    ensures r.Ok? ==> r.value == if |args| == 0 then kwargs else args[0].items
    ensures r.Err? ==> r.error == ValueError("")
  {
    if |args| > 0 then
      if |args| == 1 && args[0].DictV? then Ok(args[0].items) else Err(ValueError(""))
    else Ok(kwargs)
  }

  class Blahtex {
    const core: Interface

    /** The plane-1 fields of the two option structs agree: `__init__` sets
        them together first, and every later write keeps them together. */
    ghost predicate Valid()
      reads this, core, core.mathmlOptions, core.encodingOptions, core.purifiedTexOptions
    {
      Agree(core.Snapshot())
    }

    /** `__init__` without its options: a fresh engine. */
    constructor Bare()
      ensures fresh(core) && fresh(core.mathmlOptions) && fresh(core.encodingOptions)
      ensures fresh(core.purifiedTexOptions)
      ensures core.mathml == None
    {
      core := new Interface();
    }

    /** `Blahtex(**opts)`: a fresh engine, then `set_options` with the
        defaults updated by `opts`. It fails exactly when some merged option
        is refused, with the error of the first refused one; otherwise every option reads as the caller's last value
        for it, or as its default, and the plane-1 fields agree. */
    static method Create(opts: seq<Item>) returns (r: Result<Blahtex, PyError>)
      ensures r.Ok? <==> forall i | 0 <= i < |Initial(opts)| :: Accepted(Initial(opts)[i].0, Initial(opts)[i].1)
      ensures r.Err? ==> exists i :: FirstRefused(Initial(opts), i) && r.error == ErrorOf(Initial(opts)[i].0)
      ensures r.Ok? ==> fresh(r.value.core) && r.value.Valid() && r.value.core.mathml == None
      ensures r.Ok? ==> forall name | LastValue(Initial(opts), name).Some? ::
        Read(r.value.core.Snapshot(), name) == ReadBack(name, LastValue(Initial(opts), name).value)
    {
      var b := new Blahtex.Bare();
      var start := b.core.Snapshot();
      var merged := Initial(opts);
      var err := b.SetOptions([DictV(merged)], []);
      if err.Some? {
        ApplyAllRefusal(start, merged);
        return Err(err.value);
      }
      ApplyAllKeeps(start, merged);
      forall name | LastValue(merged, name).Some?
        ensures Read(b.core.Snapshot(), name) == ReadBack(name, LastValue(merged, name).value)
      {
        ApplyAllReads(start, merged, name);
      }
      r := Ok(b);
    }

    /** `__setattr__`: dispatch on the name, validate, store into the engine
        field or fields. The new fields are those `Write` computes; on an error
        nothing changes. The stored MathML is never touched. */
    method SetAttr(name: string, value: PyValue) returns (err: Option<PyError>)
      modifies core, core.mathmlOptions, core.encodingOptions, core.purifiedTexOptions
      ensures var w := Write(old(core.Snapshot()), name, value);
        if w.Ok? then err == None && core.Snapshot() == w.value
        else err == Some(w.error) && core.Snapshot() == old(core.Snapshot())
      ensures core.mathml == old(core.mathml)
      ensures old(Valid()) || name == "disallow_plane_1" ==> Valid()
    {
      match KeyOf(name)
      case None =>
        err := Some(ValueError("Unknown attribute '" + name + "'"));
      case Some(k) =>
        err := SetKey(k, value);
    }

    /** The branch of `__setattr__` for a known option. */
    method SetKey(k: Key, value: PyValue) returns (err: Option<PyError>)
      modifies core, core.mathmlOptions, core.encodingOptions, core.purifiedTexOptions
      ensures var w := WriteKey(old(core.Snapshot()), k, value);
        if w.Ok? then err == None && core.Snapshot() == w.value
        else err == Some(w.error) && core.Snapshot() == old(core.Snapshot())
      ensures core.mathml == old(core.mathml)
    {
      match k
      case IndentedKey | TexvcCompatibilityKey =>
        err := SetCoreFlag(k, value);
      case SpacingKey | DisallowPlane1Key | MathmlVersion1FontsKey =>
        err := SetMathmlOption(k, value);
      case MathmlEncodingKey | OtherEncodingKey =>
        err := SetEncodingOption(k, value);
      case UseUcsPackageKey | UseCjkPackageKey | UsePreviewPackageKey =>
        err := SetPackageFlag(k, value);
      case JapaneseFontKey | LatexPreambleKey | LatexBeforeMathKey =>
        err := SetTexText(k, value);
    }

    /** The options stored in the engine `Interface` itself. */
    method SetCoreFlag(k: Key, value: PyValue) returns (err: Option<PyError>)
      requires k == IndentedKey || k == TexvcCompatibilityKey
      modifies core
      ensures var w := WriteCoreFlag(old(core.Snapshot()), k, value);
        if w.Ok? then err == None && core.Snapshot() == w.value
        else err == Some(w.error) && core.Snapshot() == old(core.Snapshot())
      ensures core.mathml == old(core.mathml)
    {
      if !value.BoolV? {
        return Some(TypeError);
      }
      if k == IndentedKey {
        core.indented := value.b;
      } else {
        core.texvcCompatibility := value.b;
      }
      err := None;
    }

    /** The options stored in `MathmlOptions`, and `disallow_plane_1`, which
        is stored in `MathmlOptions` and `EncodingOptions` alike. */
    method SetMathmlOption(k: Key, value: PyValue) returns (err: Option<PyError>)
      requires k == SpacingKey || k == DisallowPlane1Key || k == MathmlVersion1FontsKey
      modifies core.mathmlOptions, core.encodingOptions
      ensures var w := WriteMathmlOption(old(core.Snapshot()), k, value);
        if w.Ok? then err == None && core.Snapshot() == w.value
        else err == Some(w.error) && core.Snapshot() == old(core.Snapshot())
    {
      err := None;
      if k == SpacingKey {
        var v: SpacingControl;
        if value.SpacingV? && value.spacing == STRICT {
          v := StrictSpacing;
        } else if value.SpacingV? && value.spacing == MODERATE {
          v := ModerateSpacing;
        } else if value.SpacingV? && value.spacing == RELAXED {
          v := RelaxedSpacing;
        } else {
          return Some(ValueError(SpacingMessage));
        }
        core.mathmlOptions.spacingControl := v;
      } else if k == DisallowPlane1Key {
        core.mathmlOptions.allowPlane1 := !Truthy(value);
        core.encodingOptions.allowPlane1 := !Truthy(value);
      } else if value.BoolV? {
        core.mathmlOptions.useVersion1FontAttributes := value.b;
      } else {
        err := Some(TypeError);
      }
    }

    /** The two encodings stored in `EncodingOptions`. */
    method SetEncodingOption(k: Key, value: PyValue) returns (err: Option<PyError>)
      requires k == MathmlEncodingKey || k == OtherEncodingKey
      modifies core.encodingOptions
      ensures var w := WriteEncodingOption(old(core.Snapshot()), k, value);
        if w.Ok? then err == None && core.Snapshot() == w.value
        else err == Some(w.error) && core.Snapshot() == old(core.Snapshot())
    {
      err := None;
      if k == MathmlEncodingKey {
        var v: MathmlEncoding;
        if value.EncodingV? && value.encoding == RAW {
          v := RawEncoding;
        } else if value.EncodingV? && value.encoding == NUMERIC {
          v := NumericEncoding;
        } else if value.EncodingV? && value.encoding == LONG {
          v := LongEncoding;
        } else if value.EncodingV? && value.encoding == SHORT {
          v := ShortEncoding;
        } else {
          return Some(ValueError(MathmlEncodingMessage));
        }
        core.encodingOptions.mathmlEncoding := v;
      } else {
        var v: bool;
        if value.EncodingV? && value.encoding == RAW {
          v := true;
        } else if value.EncodingV? && value.encoding == NUMERIC {
          v := false;
        } else {
          return Some(ValueError(OtherEncodingMessage));
        }
        core.encodingOptions.otherEncodingRaw := v;
      }
    }

    /** The package flags stored in `PurifiedTexOptions`. */
    method SetPackageFlag(k: Key, value: PyValue) returns (err: Option<PyError>)
      requires k == UseUcsPackageKey || k == UseCjkPackageKey || k == UsePreviewPackageKey
      modifies core.purifiedTexOptions
      ensures var w := WritePackageFlag(old(core.Snapshot()), k, value);
        if w.Ok? then err == None && core.Snapshot() == w.value
        else err == Some(w.error) && core.Snapshot() == old(core.Snapshot())
    {
      if !value.BoolV? {
        return Some(TypeError);
      }
      if k == UseUcsPackageKey {
        core.purifiedTexOptions.allowUcs := value.b;
      } else if k == UseCjkPackageKey {
        core.purifiedTexOptions.allowCjk := value.b;
      } else {
        core.purifiedTexOptions.allowPreview := value.b;
      }
      err := None;
    }

    /** The strings stored in `PurifiedTexOptions`. */
    method SetTexText(k: Key, value: PyValue) returns (err: Option<PyError>)
      requires k == JapaneseFontKey || k == LatexPreambleKey || k == LatexBeforeMathKey
      modifies core.purifiedTexOptions
      ensures var w := WriteTexText(old(core.Snapshot()), k, value);
        if w.Ok? then err == None && core.Snapshot() == w.value
        else err == Some(w.error) && core.Snapshot() == old(core.Snapshot())
    {
      if !value.StrV? {
        return Some(TypeError);
      }
      if k == JapaneseFontKey {
        core.purifiedTexOptions.japaneseFont := value.s;
      } else if k == LatexPreambleKey {
        core.purifiedTexOptions.latexPreamble := value.s;
      } else {
        core.purifiedTexOptions.latexBeforeMath := value.s;
      }
      err := None;
    }

    /** `__getattr__` on the current engine fields: an unknown name gives
        `None`; a known option's value can be written back and reads back
        the same. */
    function GetAttr(name: string): (v: PyValue)
      reads this, core, core.mathmlOptions, core.encodingOptions, core.purifiedTexOptions
      ensures KeyOf(name).None? ==> v == NoneV
      ensures KeyOf(name).Some? ==> Accepted(name, v) && ReadBack(name, v) == v
    {
      Read(core.Snapshot(), name)
    }

    /** `set_options(*args, **kargs)`: pick the dictionary, then apply its
        items. */
    method SetOptions(args: seq<PyValue>, kwargs: seq<Item>) returns (err: Option<PyError>)
      modifies core, core.mathmlOptions, core.encodingOptions, core.purifiedTexOptions
      ensures var opts := OptionsArgument(args, kwargs);
        if opts.Err? then err == Some(opts.error) && core.Snapshot() == old(core.Snapshot())
        else var a := ApplyAll(old(core.Snapshot()), opts.value);
          core.Snapshot() == a.config && err == a.error
      ensures core.mathml == old(core.mathml)
      ensures old(Valid()) ==> Valid()
    {
      var opts: seq<Item>;
      if |args| > 0 {
        if |args| == 1 && args[0].DictV? {
          opts := args[0].items;
        } else {
          return Some(ValueError(""));
        }
      } else {
        opts := kwargs;
      }
      err := ApplyItems(opts);
    }

    /** `for k, v in opts.items(): setattr(self, k, v)`: the fields after the
        loop, and the error that stopped it, are those `ApplyAll` computes. */
    method ApplyItems(opts: seq<Item>) returns (err: Option<PyError>)
      modifies core, core.mathmlOptions, core.encodingOptions, core.purifiedTexOptions
      ensures var a := ApplyAll(old(core.Snapshot()), opts);
        core.Snapshot() == a.config && err == a.error
      ensures core.mathml == old(core.mathml)
      ensures old(Valid()) ==> Valid()
    {
      var i := 0;
      while i < |opts|
        invariant 0 <= i <= |opts|
        invariant ApplyAll(old(core.Snapshot()), opts) == ApplyAll(core.Snapshot(), opts[i..])
        invariant core.mathml == old(core.mathml)
        invariant old(Valid()) ==> Valid()
      {
        err := SetAttr(opts[i].0, opts[i].1);
        if err.Some? {
          return;
        }
        assert opts[i..][1..] == opts[i + 1..];
        i := i + 1;
      }
      err := None;
    }

    /** `get_options`: each option name, in order, with the value it reads. */
    method GetOptions() returns (result: seq<Item>)
      ensures result == Collect(core.Snapshot(), OptionNames)
    {
      result := ReadAll(OptionNames);
    }

    /** `get_options`' loop over a tuple of names: `result[key] =
        getattr(self, key)` for each in turn. */
    method ReadAll(names: seq<string>) returns (result: seq<Item>)
      ensures result == Collect(core.Snapshot(), names)
    {
      result := [];
      var i := 0;
      while i < |names|
        invariant 0 <= i <= |names|
        invariant |result| == i
        invariant forall j | 0 <= j < i :: result[j] == (names[j], Read(core.Snapshot(), names[j]))
      {
        var key := names[i];
        result := result + [(key, GetAttr(key))];
        i := i + 1;
      }
    }

    /** The first line of `process_input`: the display mode goes into the
        engine's options. */
    method SetDisplayMath(displayMath: bool)
      modifies core.purifiedTexOptions
      ensures core.Snapshot() == old(core.Snapshot()).(displayMath := displayMath)
    {
      core.purifiedTexOptions.displayMath := displayMath;
    }

    /** `process_input`: record the display mode in the engine's options,
        then convert; an engine exception comes back as `BlahtexException`
        with the translator's message. Only the display mode changes among
        the option fields. */
    method ProcessInput(s: string, displayMath: bool, outcome: Outcome) returns (err: Option<PyError>)
      modifies core, core.purifiedTexOptions
      ensures core.Snapshot() == old(core.Snapshot()).(displayMath := displayMath)
      ensures err == if outcome.Raised? then Some(BlahtexException(Translator.MessageOf(outcome.exception))) else None
      ensures outcome.Converted? ==> core.mathml == Some(outcome.mathml)
      ensures old(Valid()) ==> Valid()
    {
      SetDisplayMath(displayMath);
      var thrown := core.ProcessInput(s, displayMath, outcome);
      if thrown.Some? {
        var msg := Translator.Translate(thrown.value);
        err := Some(BlahtexException(msg));
      } else {
        err := None;
      }
    }

    /** `get_mathml`: the engine's MathML in a `<math>` element whose display
        attribute follows the display mode in the engine's options. */
    function GetMathml(): (r: Result<string, PyError>)
      reads this, core, core.purifiedTexOptions
      ensures core.mathml.None? <==> r.Err?
      ensures r.Err? ==> r.error == NoOutput
      ensures r.Ok? ==> ParseMathElement(r.value) == Some((core.purifiedTexOptions.displayMath, core.mathml.value))
    {
      match core.mathml
      case None => Err(NoOutput)
      case Some(content) => Ok(MathElement(core.purifiedTexOptions.displayMath, content))
    }

    /** `convert`: `process_input`, then `get_mathml`. A successful conversion
        returns the engine's MathML in a `<math>` element whose display
        attribute is the requested one; a failed one raises before any output
        is read. After success the engine keeps the new MathML, so a later
        `get_mathml` returns the same element. */
    method Convert(latex: string, displayMath: bool, outcome: Outcome) returns (r: Result<string, PyError>)
      modifies core, core.purifiedTexOptions
      ensures core.Snapshot() == old(core.Snapshot()).(displayMath := displayMath)
      ensures outcome.Converted? ==> r == Ok(MathElement(displayMath, outcome.mathml))
      ensures outcome.Raised? ==> r == Err(BlahtexException(Translator.MessageOf(outcome.exception)))
      ensures outcome.Converted? ==> core.mathml == Some(outcome.mathml) && GetMathml() == r
      ensures old(Valid()) ==> Valid()
    {
      var err := ProcessInput(latex, displayMath, outcome);
      if err.Some? {
        return Err(err.value);
      }
      r := GetMathml();
    }
  }
}
