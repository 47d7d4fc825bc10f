/**
 * Styled console text. Each colour formatter of the reporter (a chalk function) is
 * an abstract Style tag on a segment of text; text written outside any formatter is
 * Plain. A Line is what one console.log call writes.
 */
module Styled {

  datatype Style =
    | Passed        // greenBright: the passed glyph and the "passing" count
    | PassedTitle   // bold green: the ancestor head of a passed test
    | Failed        // redBright: the failed glyph and the "failing" count
    | FailedTitle   // bold red: the ancestor head of a failed test
    | Pending       // yellowBright: the pending glyph, title and "pending" count
    | PendingTitle  // bold yellow: the ancestor head of a pending test
    | Title         // white: the title of a passed or failed test
    | Duration      // gray: the "(Nms)" segment
    | Info          // white: the "Found" and "Ran" lines
    | Plain         // no formatter

  datatype Segment = Segment(style: Style, text: string)

  type Line = seq<Segment>

  /** The characters of a line with the styling taken away. */
  function Text(line: Line): string {
    if line == [] then "" else Text(line[..|line| - 1]) + line[|line| - 1].text
  }

  lemma {:induction false} TextAppend(a: Line, b: Line)
    ensures Text(a + b) == Text(a) + Text(b)
  {
    if b == [] {
      assert a + b == a;
    } else {
      assert (a + b)[..|a + b| - 1] == a + b[..|b| - 1];
      TextAppend(a, b[..|b| - 1]);
    }
  }

  /** The text of the first k segments extends that of the first k - 1 by segment k - 1. */
  lemma TextOfPrefix(line: Line, k: nat)
    requires 0 < k <= |line|
    ensures Text(line[..k]) == Text(line[..k - 1]) + line[k - 1].text
  {
    assert line[..k][..k - 1] == line[..k - 1];
  }

  lemma TextOfFirst(line: Line)
    requires |line| > 0
    ensures Text(line[..1]) == line[0].text
  {
    TextOfPrefix(line, 1);
    assert line[..0] == [];
    assert "" + line[0].text == line[0].text;
  }

  /** The text of a line of two segments. */
  lemma TextOfTwo(line: Line)
    requires |line| == 2
    ensures Text(line) == line[0].text + line[1].text
  {
    TextOfFirst(line);
    TextOfPrefix(line, 2);
    assert line[..2] == line;
  }

  /** The text of a line of eight segments, segment by segment. */
  lemma TextOfEight(line: Line)
    requires |line| == 8
    ensures Text(line) == line[0].text + line[1].text + line[2].text + line[3].text
      + line[4].text + line[5].text + line[6].text + line[7].text
  {
    TextOfFirst(line);
    TextOfPrefix(line, 2);
    TextOfPrefix(line, 3);
    TextOfPrefix(line, 4);
    TextOfPrefix(line, 5);
    TextOfPrefix(line, 6);
    TextOfPrefix(line, 7);
    TextOfPrefix(line, 8);
    assert line[..8] == line;
  }
}
