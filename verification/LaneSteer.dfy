/** Which answers to a steer are taken to mean that native submitted nothing. */
module LaneSteer {
  import opened Prelude

  const NoActiveTurn: string := "no active turn to steer"

  function ExpectedPrefix(turn: string): string {
    "expected active turn id `" + turn + "` but found `"
  }

  /** What native says to a steer. `Broken` is any error that is not a protocol error. */
  datatype Reply = Steered(turn: string) | Refused(code: int, message: string) | Broken

  /** The error texts taken to mean that nothing was submitted. */
  predicate DefinitelyNotSubmitted(reply: Reply, expected: string) {
    reply.Refused? && reply.code == -32600 &&
    (reply.message == NoActiveTurn
     || (ExpectedPrefix(expected) <= reply.message && reply.message != "" && reply.message[|reply.message| - 1] == '`'))
  }

  /** Exactly which texts those are: the fixed one, the prefix for the expected turn followed by any
      turn and a backtick, and the bare prefix, which ends with a backtick itself. */
  lemma SteerTexts(code: int, message: string, expected: string)
    ensures DefinitelyNotSubmitted(Refused(code, message), expected) <==>
              code == -32600 && (message == NoActiveTurn || message == ExpectedPrefix(expected)
                                 || exists found :: message == ExpectedPrefix(expected) + found + "`")
  {
    var p := ExpectedPrefix(expected);
    assert p != "" && p[|p| - 1] == '`';
    if p <= message && message != p && message[|message| - 1] == '`' {
      var found := message[|p|..|message| - 1];
      assert message == p + found + "`";
    }
    if found :| message == p + found + "`" {
      assert message[|message| - 1] == '`' && p <= message;
    }
    hide ExpectedPrefix;
  }
}
