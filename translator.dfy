/** The exception translator registered by the binding: it turns an engine
    exception into the single message carried by the Python `BlahtexException`,
    namely the code, `": "`, and the arguments separated by `", "`. */
module Translator {
  import Engine

  /** The arguments separated by `", "`, with no separator before the first or
      after the last: as long as all arguments plus two characters per
      separator. */
  function Join(args: seq<string>): (r: string)
    ensures |args| > 0 ==> |r| == TotalLength(args) + 2 * (|args| - 1)
    decreases |args|
  {
    if |args| == 0 then ""
    else if |args| == 1 then args[0]
    else Join(args[..|args| - 1]) + ", " + args[|args| - 1]
  }

  /** The sum of the arguments' lengths. */
  function TotalLength(args: seq<string>): nat
    decreases |args|
  {
    if |args| == 0 then 0 else TotalLength(args[..|args| - 1]) + |args[|args| - 1]|
  }

  /** Where argument `i` starts in `Join(args)`: after the arguments before it
      and one two-character separator per argument before it. */
  function Offset(args: seq<string>, i: nat): nat
    requires i <= |args|
  {
    TotalLength(args[..i]) + 2 * i
  }

  /** The message the translator builds. */
  function MessageOf(e: Engine.Exception): (msg: string)
    ensures |msg| >= |e.code| + 2 && msg[..|e.code| + 2] == e.code + ": "
    ensures e.args == [] ==> msg == e.code + ": "
  {
    e.code + ": " + Join(e.args)
  }

  /** The translator's loop: append each argument, preceded by `", "` unless it
      is the first. */
  method Translate(e: Engine.Exception) returns (msg: string)
    ensures msg == MessageOf(e)
  {
    msg := e.code + ": ";
    var firstarg := true;
    var i := 0;
    while i < |e.args|
      invariant 0 <= i <= |e.args|
      invariant firstarg <==> i == 0
      invariant msg == e.code + ": " + Join(e.args[..i])
    {
      var arg := e.args[i];
      if !firstarg {
        msg := msg + ", ";
      }
      msg := msg + arg;
      firstarg := false;
      assert e.args[..i + 1][..i] == e.args[..i];
      i := i + 1;
    }
    assert e.args[..|e.args|] == e.args;
  }

  /** Argument `i` sits at `Offset(args, i)`, a `", "` sits just before it
      unless it is the first, and the string ends right after the last one. */
  lemma {:induction false} JoinPieces(args: seq<string>, i: nat)
    requires i < |args|
    ensures Offset(args, i) + |args[i]| <= |Join(args)|
    ensures Join(args)[Offset(args, i)..Offset(args, i) + |args[i]|] == args[i]
    ensures i > 0 ==> Offset(args, i) >= 2 && Join(args)[Offset(args, i) - 2..Offset(args, i)] == ", "
    ensures i == |args| - 1 ==> |Join(args)| == Offset(args, i) + |args[i]|
    decreases |args|
  {
    var n := |args|;
    if n == 1 {
      assert args[..0] == [];
    } else {
      var init := args[..n - 1];
      var head := Join(init);
      assert Join(args) == head + ", " + args[n - 1];
      if i == n - 1 {
        assert args[..i] == init;
        assert Offset(args, i) == |head| + 2;
      } else {
        JoinPieces(init, i);
        assert args[..i] == init[..i];
        assert Offset(args, i) == Offset(init, i);
        var o := Offset(args, i);
        assert Join(args)[o..o + |args[i]|] == head[o..o + |args[i]|];
        if i > 0 {
          assert Join(args)[o - 2..o] == head[o - 2..o];
        }
      }
    }
  }

  /** With at least one argument, the message has the code, two characters of
      `": "`, every argument, and two characters per separator. */
  lemma MessageLength(e: Engine.Exception)
    requires |e.args| > 0
    ensures |MessageOf(e)| == |e.code| + 2 + TotalLength(e.args) + 2 * (|e.args| - 1)
  {
  }

  /** Argument `i` appears in the message at `|code| + 2 + Offset(args, i)`. */
  lemma MessageArgument(e: Engine.Exception, i: nat)
    requires i < |e.args|
    ensures var start := |e.code| + 2 + Offset(e.args, i);
      start + |e.args[i]| <= |MessageOf(e)| &&
      MessageOf(e)[start..start + |e.args[i]|] == e.args[i]
  {
    JoinPieces(e.args, i);
    var prefix := e.code + ": ";
    var o := Offset(e.args, i);
    assert MessageOf(e)[|prefix| + o..|prefix| + o + |e.args[i]|] == Join(e.args)[o..o + |e.args[i]|];
  }
}
