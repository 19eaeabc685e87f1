/**
 * The Y/N permission prompt of the package-manager helpers. Standard input is
 * the sequence of lines successive reads return, each with its '\n'. When
 * the lines run out without an answer, the source keeps asking forever (a
 * read at end of input returns ""); the model reports that as `None`.
 */
module Permission {
  import opened Wrappers
  import opened Text

  /** Only tab, newline and space are trimmed: a carriage return is kept. */
  const Cutset: set<char> := {'\t', '\n', ' '}

  /**
   * One line of input: yes exactly when it is "Y" or "y" once tab, newline and
   * space are trimmed, no exactly for "N" or "n", and otherwise no answer.
   */
  function Classify(line: string): (r: Option<bool>)
    ensures r == Some(true) <==> Trim(line, Cutset) in ["Y", "y"]
    ensures r == Some(false) <==> Trim(line, Cutset) in ["N", "n"]
  {
    var text := Trim(line, Cutset);
    if text == "Y" || text == "y" then Some(true)
    else if text == "N" || text == "n" then Some(false)
    else None
  }

  /** A line ending in "\r\n", as a Windows terminal sends it, is never recognised. */
  lemma CarriageReturnRejected(line: string)
    requires |line| >= 2 && line[|line| - 2] == '\r' && line[|line| - 1] == '\n'
    ensures Classify(line) == None
  {
    CarriageReturnKept(line);
    var text := Trim(line, Cutset);
    NotAnAnswer(text);
  }

  /** Trimming such a line leaves the carriage return at its end. */
  lemma CarriageReturnKept(line: string)
    requires |line| >= 2 && line[|line| - 2] == '\r' && line[|line| - 1] == '\n'
    ensures Trim(line, Cutset) != [] && Trim(line, Cutset)[|Trim(line, Cutset)| - 1] == '\r'
  {
    var s := line[..|line| - 2];
    assert line == s + ['\r'] + "\n";
    TrimKeepsKeptChar(s, '\r', "\n", Cutset);
  }

  lemma NotAnAnswer(text: string)
    requires text != [] && text[|text| - 1] == '\r'
    ensures text != "Y" && text != "y" && text != "N" && text != "n"
  {
  }

  /** The empty line is no answer: the "[Y/n]" prompt has no default. */
  lemma EmptyLineRejected()
    ensures Classify("\n") == None
  {
    assert TrimStart("\n", Cutset) == "";
  }

  /**
   * `askPermission`: reads lines until one is recognised. `decidedAt` is the
   * number of lines rejected before the answer.
   */
  method AskPermission(lines: seq<string>) returns (answer: Option<bool>, decidedAt: nat)
    ensures decidedAt <= |lines|
    ensures forall k :: 0 <= k < decidedAt ==> Classify(lines[k]).None?
    ensures decidedAt < |lines| ==> answer == Classify(lines[decidedAt]) && answer.Some?
    ensures decidedAt == |lines| ==> answer.None?
  {
    var i := 0;
    while i < |lines|
      invariant 0 <= i <= |lines|
      invariant forall k :: 0 <= k < i ==> Classify(lines[k]).None?
    {
      var text := Trim(lines[i], Cutset);
      if text == "Y" || text == "y" {
        return Some(true), i;
      } else if text == "N" || text == "n" {
        return Some(false), i;
      } else {
        // just ask again
      }
      i := i + 1;
    }
    return None, |lines|;
  }
}
