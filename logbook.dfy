/**
 * The bounded event log kept by both `Game` classes: `add_log` appends a line and,
 * once the log holds more than `Cap` lines, keeps only the newest `Cap`.
 */
module Logbook {

  /** Largest number of lines the log keeps. */
  const Cap: nat := 20

  /**
   * The log after `add_log(text)`: the newest `min(|log| + 1, Cap)` lines of
   * `log + [text]`, so the new line is last and the oldest lines go first.
   */
  function Append(log: seq<string>, text: string): (r: seq<string>)
    ensures |r| == if |log| < Cap then |log| + 1 else Cap
    ensures r[|r| - 1] == text
  {
    var grown := log + [text];
    if |grown| > Cap then grown[|grown| - Cap..] else grown
  }

  /** The log kept is the newest part of the old log followed by the new line. */
  lemma AppendIsNewestSuffix(log: seq<string>, text: string)
    ensures var r := Append(log, text); r == (log + [text])[|log| + 1 - |r|..]
  {
  }

  /** Below the cap nothing is dropped: the log is exactly the old one plus the new line. */
  lemma AppendBelowCap(log: seq<string>, text: string)
    requires |log| < Cap
    ensures Append(log, text) == log + [text]
  {
  }

  /** At the cap exactly one line, the oldest, is dropped. */
  lemma AppendAtCap(log: seq<string>, text: string)
    requires |log| == Cap
    ensures Append(log, text) == log[1..] + [text]
  {
    assert (log + [text])[1..] == log[1..] + [text];
  }
}
