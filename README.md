# blahtex-py wrapper: a Dafny model

This project models the Python layer of blahtex-py. blahtex-py is a binding of the
blahtex TeX-to-MathML engine. The model covers two pieces.

- The class `Blahtex` in `blahtex/__init__.py`. It turns friendly option names and
  values (`Blahtex.SPACING`, `Blahtex.ENCODING`, booleans, strings) into writes of
  the engine's option fields. It turns the fields back into friendly values. It applies
  and collects whole option dictionaries. It wraps the engine's MathML in a `<math>`
  element.
- The exception translator in `src/blahtex.cpp`. It turns an engine exception into
  the message `code: arg1, arg2, ...`.

The engine itself (tokenizer, macro expansion, layout, MathML output) is not part of
this model. A conversion is a parameter `Outcome`: either MathML content, or an engine
exception with a code and arguments.

Files:

- `values.dfy`: the Python-side values.
  - The `SPACING` and `ENCODING` enumerations.
  - `PyValue`, an option value as a caller may pass it. It includes dictionaries and
    arbitrary objects known only by their truth value.
  - Python truthiness.
  - The errors the wrapper raises.
- `engine.dfy`: the engine as the binding exposes it.
  - The option structs `MathmlOptions`, `EncodingOptions` and `PurifiedTexOptions`,
    as classes with mutable fields.
  - The `Interface` object that holds them, with its flags and its last MathML output.
  - `Config`, a value holding every field the wrapper touches.
- `translator.dfy`: the exception message.
  - `Translate` has the translator's loop and its `firstarg` flag.
  - `MessageOf` is the value it computes, with lemmas about where each argument ends
    up and about the message's length.
- `options.dfy`: the option logic stated on `Config` values.
  - `Read` is `__getattr__`.
  - `Write` is `__setattr__`, with its own-fields frame, its read-back property and its
    error cases.
  - `ApplyAll` is `set_options`' loop.
  - `Collect` is `get_options`.
  - `Update` is the `dict.update` of `__init__`.
  - The lemmas cover the round trips, the frame, the defaults and the agreement of the
    two plane-1 fields.
- `wrapper.dfy`: the class `Blahtex` itself.
  - Its methods write the engine fields in place.
  - Each method is proved against the value-level functions of `options.dfy`.
  - The same file has the `<math>` element with its inverse parser.

The two `allow_plane1` fields, one in `MathmlOptions` and one in `EncodingOptions`,
are written only together, by `disallow_plane_1`. `Blahtex.Valid()` states that they
agree. `__init__` establishes it, because `disallow_plane_1` is the first default
option. Every later call keeps it.

## Model

| member | source | states |
|---|---|---|
| Engine.Interface.constructor | src/blahtex.cpp:28-29 | a fresh engine has fresh option structs and no MathML output yet |
| Engine.Interface.ProcessInput | src/blahtex.cpp:30-32 | a conversion returns the engine's exception or stores the new MathML; it changes no option field |
| Translator.MessageOf | src/blahtex.cpp:15-22 | the message starts with the code followed by `": "`; with no arguments it is exactly `code + ": "` |
| Translator.Translate | src/blahtex.cpp:15-22 | the loop with its `firstarg` flag builds exactly `code + ": " + Join(args)`, with no separator before the first argument |
| Translator.Join | src/blahtex.cpp:16-22 | the arguments joined by `", "`; with n ≥ 1 arguments it is as long as all arguments plus two characters per separator |
| Translator.JoinPieces | src/blahtex.cpp:16-22 | each argument sits at its offset in order, `", "` sits just before every argument but the first, and nothing follows the last |
| Translator.MessageLength | src/blahtex.cpp:15-22 | for n ≥ 1 arguments the length is len(code) + 2 + the sum of len(argᵢ) + 2·(n−1) |
| Translator.MessageArgument | src/blahtex.cpp:15-22 | argument i appears in the message right after the prefix, the earlier arguments and their separators |
| Options.KeyOf | blahtex/__init__.py:33-91 | the name dispatch maps a name only to the key with that name |
| Options.NamesListed | blahtex/__init__.py:155-159 | every option `__setattr__` accepts has its name in `get_options`' list |
| Options.ListedNamesKnown | blahtex/__init__.py:155-159 | every name in `get_options`' list is one `__setattr__` accepts |
| Options.OptionNamesAreTheKeys | blahtex/__init__.py:155-159 | the names `get_options` reads are exactly the names `__setattr__` accepts, each once |
| Options.SpacingControlOf | blahtex/__init__.py:38-43 | each `SPACING` member is stored as the engine constant that `__getattr__` reads back as that member |
| Options.SpacingOf | blahtex/__init__.py:99-105 | `__getattr__`'s spacing chain maps each engine constant to its `SPACING` member; `SpacingControlOf` (write then read) and `SpacingStoredAgain` (read then write) prove it the inverse of the write mapping |
| Options.SpacingStoredAgain | blahtex/__init__.py:98-105 | reading the engine spacing and writing the result back stores the same engine constant |
| Options.MathmlEncodingOf | blahtex/__init__.py:53-60 | each `ENCODING` member is stored as the engine constant that `__getattr__` reads back as that member |
| Options.EncodingOf | blahtex/__init__.py:111-119 | `__getattr__`'s encoding chain maps each engine constant to its `ENCODING` member; `MathmlEncodingOf` (write then read) and `EncodingStoredAgain` (read then write) prove it the inverse of the write mapping |
| Options.EncodingStoredAgain | blahtex/__init__.py:110-119 | reading the engine MathML encoding and writing it back stores the same constant; both directions test LONG before SHORT, the reverse of the `ENCODING` declaration order, and members are matched by identity, so the order is harmless |
| Options.ReadKey | blahtex/__init__.py:94-140 | the value read for each known option is one `__setattr__` accepts for it; `disallow_plane_1` reads as a `bool` |
| Options.Read | blahtex/__init__.py:93-140 | an unknown name reads as `None`; every value read for a known name is accepted by a write and reads back unchanged |
| Options.WriteCoreFlag | blahtex/__init__.py:33-36 | `indented` and `texvc_compatibility` accept exactly a `bool`, which reads back as written; otherwise a `TypeError` |
| Options.WriteMathmlOption | blahtex/__init__.py:37-77 | `spacing` accepts exactly a `SPACING` member, else its `ValueError`; `disallow_plane_1` accepts anything, reads back as its truth value and makes the two plane-1 fields agree; `mathml_version1_fonts` accepts exactly a `bool`, else a `TypeError` |
| Options.WriteEncodingOption | blahtex/__init__.py:52-75 | `mathml_encoding` accepts every `ENCODING` member and `other_encoding` only `RAW` and `NUMERIC`; each refusal raises the option's own `ValueError`; an accepted value reads back as written |
| Options.WritePackageFlag | blahtex/__init__.py:78-83 | the three package flags accept exactly a `bool`, which reads back as written; otherwise a `TypeError` |
| Options.WriteTexText | blahtex/__init__.py:84-89 | the three TeX strings accept exactly a `str`, which reads back as written; otherwise a `TypeError` |
| Options.WriteKey | blahtex/__init__.py:33-89 | a write to a known option succeeds exactly for an admitted value, which then reads back; the plane-1 fields keep agreeing; a refused spacing or encoding raises its own `ValueError`, any other refused value a `TypeError` |
| Options.CoreFlagOwnFields | blahtex/__init__.py:33-36 | `indented` and `texvc_compatibility` change only their own engine field |
| Options.MathmlOptionOwnFields | blahtex/__init__.py:37-77 | `spacing`, `disallow_plane_1` and `mathml_version1_fonts` change only their own fields; `disallow_plane_1` owns both `allow_plane1` fields |
| Options.MathmlEncodingOwnFields | blahtex/__init__.py:52-65 | `mathml_encoding` changes only its own field |
| Options.OtherEncodingOwnFields | blahtex/__init__.py:66-75 | `other_encoding` changes only its own field |
| Options.PackageFlagOwnFields | blahtex/__init__.py:78-83 | the three package flags change only their own field |
| Options.TexTextOwnFields | blahtex/__init__.py:84-89 | the three strings change only their own field |
| Options.WriteKeyOwnFields | blahtex/__init__.py:32-89 | every successful write changes only the fields of its own option, and never the display mode |
| Options.OtherReadsKept | blahtex/__init__.py:93-140 | changing only one option's fields leaves every other option's read unchanged |
| Options.Write | blahtex/__init__.py:32-91 | `__setattr__` succeeds exactly for an accepted value of a known name; the option reads back as written, every other option reads as before, and only its own fields change; a refusal raises `ErrorOf(name)`, which is `ValueError("Unknown attribute '<name>'")` for an unknown name (line 91) and `Refusal(k)` for a known option `k` |
| Options.SpacingRoundTrip | blahtex/__init__.py:37-48 | every `SPACING` member is accepted, stored as the matching engine constant and read back as itself |
| Options.MathmlEncodingRoundTrip | blahtex/__init__.py:52-65 | every `ENCODING` member is accepted for `mathml_encoding`, stored as the matching constant and read back as itself |
| Options.OtherEncodingWrite | blahtex/__init__.py:66-75 | `other_encoding` accepts exactly `RAW` (stored true) and `NUMERIC` (stored false) and reads them back; anything else raises its `ValueError` |
| Options.DisallowPlane1Write | blahtex/__init__.py:49-51 | `disallow_plane_1` accepts any value, sets both `allow_plane1` fields to its negation and reads back as its truth value |
| Options.WriteRejections | blahtex/__init__.py:44-91 | a refused write raises the unknown-attribute, spacing or encoding `ValueError` for its case, otherwise a `TypeError`; this is `ErrorOf(name)`, whose known-option cases are `Refusal(k)` |
| Options.Collect | blahtex/__init__.py:153-161 | the collected dictionary pairs each name, in order, with the value it reads |
| Options.ApplyAll | blahtex/__init__.py:150-151 | `set_options` runs through every item exactly when every item is accepted |
| Options.ApplyAllRefusal | blahtex/__init__.py:150-151 | when `set_options` stops, its error is the one `__setattr__` raises for the first refused item |
| Options.ApplyAllStops | blahtex/__init__.py:150-151 | the first refused item stops the loop with its error; the writes before it stay |
| Options.ApplyAllReads | blahtex/__init__.py:150-151 | after a successful `set_options` every option reads as the last value given for it, or as before |
| Options.ApplyAllKeeps | blahtex/__init__.py:150-151 | `set_options` never changes the display mode and keeps the plane-1 fields agreeing, or makes them agree when `disallow_plane_1` comes first |
| Options.LastValueCollect | blahtex/__init__.py:153-161 | an option's value in `get_options`' dictionary is its current read |
| Options.ReadsDetermine | blahtex/__init__.py:93-140 | the reads of all options, the display mode and plane-1 agreement determine every engine field |
| Options.SetCollected | blahtex/__init__.py:142-161 | writing back the reads of known option names succeeds and changes no read |
| Options.SameReads | blahtex/__init__.py:93-140 | equal reads for every name mean equal reads for every option |
| Options.GetSetRoundTrip | blahtex/__init__.py:142-161 | `set_options(get_options())` succeeds and every option reads as before |
| Options.GetSetRestores | blahtex/__init__.py:142-161 | when the plane-1 fields agree, `set_options(get_options())` leaves every engine field as it was |
| Options.IndexOf | blahtex/__init__.py:29 | the position of a dictionary key, or its absence |
| Options.LastValueAbsent | blahtex/__init__.py:29 | a name has no value in a dictionary exactly when no entry has it |
| Options.LastValueAt | blahtex/__init__.py:29 | in a dictionary with distinct keys, an entry's key has that entry's value |
| Options.SameEntries | blahtex/__init__.py:29 | dictionaries with the same entries for a name give it the same value |
| Options.PutLastValue | blahtex/__init__.py:29 | `d[key] = value` keeps keys distinct, sets that key and leaves the others |
| Options.Put | blahtex/__init__.py:29 | `d[key] = value` keeps every existing key in its place, adds a new key last, and the entry is in the dictionary afterwards |
| Options.Update | blahtex/__init__.py:29 | `d.update(extra)` keeps `d`'s keys in their places |
| Options.UpdateLastValue | blahtex/__init__.py:29 | after `d.update(extra)` a key has its last value in `extra` if there is one, else its value in `d` |
| Options.Initial | blahtex/__init__.py:23-29 | the four default names stay first in `__init__`'s merged options, in their order, so `disallow_plane_1` is applied first |
| Options.InitialOptions | blahtex/__init__.py:23-29 | each option in `__init__`'s merged options has the caller's last value if given, else its default |
| Options.DefaultsAccepted | blahtex/__init__.py:23-28 | each of the four defaults is accepted by `__setattr__`, and `disallow_plane_1` comes first |
| Options.DefaultsApplied | blahtex/__init__.py:21-30 | with no caller options `set_options` succeeds and leaves the plane-1 fields agreeing |
| Options.DefaultPlaneAndSpacing | blahtex/__init__.py:24-25 | after applying the defaults `disallow_plane_1` reads false and `spacing` reads `RELAXED` |
| Options.DefaultEncodings | blahtex/__init__.py:26-27 | after applying the defaults both encodings read `RAW` |
| Options.DefaultOptions | blahtex/__init__.py:21-30 | with no caller options everything is accepted: `disallow_plane_1` is false, `spacing` is `RELAXED`, both encodings are `RAW`, and the plane-1 fields agree |
| Wrapper.MathElement | blahtex/__init__.py:167-174 | the `<math>` element in the MathML namespace with `display="block"` or `"inline"` around the content; parsing it gives back the display mode and the content |
| Wrapper.ParseMathElementInverse | blahtex/__init__.py:172-174 | every string the parser accepts is exactly the element built from what it returns |
| Wrapper.OptionsArgument | blahtex/__init__.py:143-149 | `set_options` takes one `dict` or keyword arguments; anything else raises an empty `ValueError` |
| Wrapper.Blahtex.Bare | blahtex/__init__.py:22 | a fresh engine with no MathML output |
| Wrapper.Blahtex.Create | blahtex/__init__.py:21-30 | construction fails exactly when a merged option is refused, with the error of the first refused one; otherwise each option reads as the caller's last value or its default, and the plane-1 fields agree |
| Wrapper.Blahtex.SetAttr | blahtex/__init__.py:32-91 | the fields after the call are those `Write` computes, unchanged on error; the output is untouched; agreement is kept |
| Wrapper.Blahtex.SetKey | blahtex/__init__.py:33-89 | the write of a known option, as `WriteKey` computes it; unchanged on error |
| Wrapper.Blahtex.SetCoreFlag | blahtex/__init__.py:33-36 | the `Interface` flags, as `WriteCoreFlag` computes them; unchanged on error |
| Wrapper.Blahtex.SetMathmlOption | blahtex/__init__.py:37-77 | spacing, plane-1 and font writes, as `WriteMathmlOption` computes them; unchanged on error |
| Wrapper.Blahtex.SetEncodingOption | blahtex/__init__.py:52-75 | encoding writes, as `WriteEncodingOption` computes them; unchanged on error |
| Wrapper.Blahtex.SetPackageFlag | blahtex/__init__.py:78-83 | package-flag writes, as `WritePackageFlag` computes them; unchanged on error |
| Wrapper.Blahtex.SetTexText | blahtex/__init__.py:84-89 | string-option writes, as `WriteTexText` computes them; unchanged on error |
| Wrapper.Blahtex.GetAttr | blahtex/__init__.py:93-140 | on the engine fields, an unknown name gives `None`, and a known option's value is accepted by a write and reads back the same |
| Wrapper.Blahtex.SetOptions | blahtex/__init__.py:142-151 | the fields after the call are those `ApplyAll` computes for the chosen dictionary, with its error; agreement is kept |
| Wrapper.Blahtex.ApplyItems | blahtex/__init__.py:150-151 | the loop leaves the fields and the error that `ApplyAll` computes, never touches the output and keeps the plane-1 fields agreeing |
| Wrapper.Blahtex.GetOptions | blahtex/__init__.py:153-161 | the loop returns `Collect` of the current fields over the option names |
| Wrapper.Blahtex.ReadAll | blahtex/__init__.py:155-160 | the loop pairs each given name, in order, with its current read |
| Wrapper.Blahtex.SetDisplayMath | blahtex/__init__.py:164 | the display mode is recorded and no other field changes |
| Wrapper.Blahtex.ProcessInput | blahtex/__init__.py:163-165 | the display mode is recorded whatever the outcome, and no other option changes; an engine exception comes back as `BlahtexException` with the translator's message |
| Wrapper.Blahtex.GetMathml | blahtex/__init__.py:167-174 | no output raises; otherwise the result parses as the recorded display mode and the engine's MathML |
| Wrapper.Blahtex.Convert | blahtex/__init__.py:182-184 | a successful conversion returns the `<math>` element for the requested display mode around the new MathML, and the engine keeps that MathML so a later `get_mathml` returns the same string; a failed one raises the translated exception; the display mode is recorded either way; the plane-1 fields keep agreeing |

## Left out

- The conversion engine (tokenizer, macros, layout, MathML output) is not part of this model. Its MathML, its failures and its option defaults are parameters or left unconstrained.
- `get_purified_tex` and `get_purified_tex_only` are not modelled. They only pass the engine's output through.
- Engine.Interface.ProcessInput: after a failed conversion the model promises nothing about the output the engine keeps.
- Options.WriteKey: a non-`bool` value for a boolean field, or a non-`str` value for a string field, is refused with `TypeError`. The binding's looser conversions are not modelled, such as `None` and objects with `__bool__` for booleans.
- The `raise Exception()` branches of `__getattr__` (blahtex/__init__.py:106-107, 120-121) are not modelled. The engine enumerations are closed, so these branches are unreachable.
- Python attribute lookup is not modelled. Class attributes and methods never reach `__getattr__`. The `_core` attribute is set through `object.__setattr__`.
- Options dictionaries have string keys. A `dict` with non-string keys is not modelled.
- Wrapper.Blahtex.GetMathml: the engine's refusal to give MathML before any successful conversion is one error, `NoOutput`. Its message is the engine's business.
- The raising of the translated message through `PyErr_SetObject` is not modelled. The model returns the message inside `BlahtexException`.
- Exceptions other than the engine's own `Exception` are not modelled. The translator passes them on.
- The pybind11 registration of the structs and enums is not modelled. It is represented only by the classes in `engine.dfy`.
- `setup.py` is not part of this model.
- Wrapper.Blahtex.GetMathml: the engine's MathML is taken as fixed when the conversion runs. The engine's `get_mathml` (src/blahtex.cpp:33) belongs to the object that owns the option structs. Whether options written after the conversion change what it returns is engine behaviour this model does not capture.
- The default `display_math=False` of `process_input` and `convert` (blahtex/__init__.py:163, 182) is not modelled. `Wrapper.Blahtex.ProcessInput` and `Wrapper.Blahtex.Convert` always take the display mode as an argument.
