/**
 * How both CLIs print the error app.Run returns: the message is split on
 * single spaces, its first piece is title-cased, and the pieces are joined
 * again with single spaces.
 */
module Display {
  import opened GoStrings

  /** The first space-separated piece of a message: everything before its first space. */
  function FirstWord(message: string): (w: string)
    ensures |w| <= |message| && message[..|w|] == w
    ensures ' ' !in w
    ensures |w| == |message| || message[|w|] == ' '
  {
    FirstPieceIsPrefix(message);
    Split(message, ' ')[0]
  }

  lemma FirstPieceIsPrefix(message: string)
    ensures |Split(message, ' ')[0]| <= |message|
    ensures message[..|Split(message, ' ')[0]|] == Split(message, ' ')[0]
    ensures |Split(message, ' ')[0]| == |message| || message[|Split(message, ' ')[0]|] == ' '
  {
    var parts := Split(message, ' ');
    JoinSplit(message, ' ');
    JoinHead(parts, " ");
  }

  /** A join starts with its first part, followed by the separator when there are more parts. */
  lemma JoinHead(parts: seq<string>, sep: string)
    requires |parts| >= 1
    ensures |parts| == 1 ==> Join(parts, sep) == parts[0]
    ensures |parts| > 1 ==> Join(parts, sep) == parts[0] + sep + Join(parts[1..], sep)
  {
  }

  /** Replacing the first part of a join replaces its leading |parts[0]| characters. */
  lemma JoinReplaceHead(parts: seq<string>, sep: string, head: string)
    requires |parts| >= 1
    ensures Join(parts[0 := head], sep) == head + Join(parts, sep)[|parts[0]|..]
  {
    JoinHead(parts, sep);
    JoinHead(parts[0 := head], sep);
    if |parts| > 1 {
      assert parts[0 := head][1..] == parts[1..];
      assert (parts[0] + sep + Join(parts[1..], sep))[|parts[0]|..] == sep + Join(parts[1..], sep);
    } else {
      assert parts[0][|parts[0]|..] == [];
    }
  }

  /** The text an error is shown as: its first word title-cased, everything after it unchanged. */
  function Shown(message: string): (shown: string)
    ensures |shown| == |message|
    ensures message != [] && message[0] != ' ' ==> shown[0] == UpperAscii(message[0])
  {
    TitleWord(FirstWord(message)) + message[|FirstWord(message)|..]
  }

  /** The error display of both CLIs, up to the print. */
  method FormatError(message: string) returns (shown: string)
    ensures shown == Shown(message)
  {
    var msg := Split(message, ' ');
    JoinSplit(message, ' ');
    JoinReplaceHead(msg, " ", TitleWord(msg[0]));
    msg := msg[0 := TitleWord(msg[0])];
    shown := Join(msg, " ");
  }

  /** Only the first word changes: the shown text has the message's length and its characters from the first space on. */
  lemma ShownKeepsRest(message: string)
    ensures |Shown(message)| == |message|
    ensures forall i :: |FirstWord(message)| <= i < |message| ==> Shown(message)[i] == message[i]
  {
  }

  /** Title-casing changes only the case: the shown text equals the message up to the case of ASCII letters. */
  lemma ShownFoldsToMessage(message: string)
    ensures EqualFold(Shown(message), message)
  {
    var w := FirstWord(message);
    var shown := Shown(message);
    assert forall i :: 0 <= i < |w| ==> shown[i] == TitleWord(w)[i];
    assert forall i :: 0 <= i < |message| ==> LowerAscii(shown[i]) == LowerAscii(message[i]);
    assert Lower(shown) == Lower(message);
  }

  /** A message that starts with a space has an empty first word and is shown unchanged. */
  lemma LeadingSpaceShownUnchanged(message: string)
    requires |message| > 0 && message[0] == ' '
    ensures Shown(message) == message
  {
    assert |FirstWord(message)| == 0;
  }
}
