/**
 Python exceptions as values. The guard raises exactly two kinds: `ValueError` when a
 classification type string cannot be parsed, and `RuntimeError` when the declared type
 and the label data disagree. A strategy's own `query` may raise these or any other
 exception; `Other` carries the exception's class name and message.
 */
module Exceptions {

  datatype Error =
    | ValueError(msg: string)
    | RuntimeError(msg: string)
    | Other(kind: string, msg: string)

  /** The outcome of a call that either returns a value or raises. */
  datatype Result<+T> = Ok(value: T) | Err(error: Error)

  /** `part` occurs somewhere in `msg`, as Python's `part in msg`: it is a prefix of a suffix. */
  ghost predicate Mentions(msg: string, part: string) {
    exists i :: 0 <= i <= |msg| && part <= msg[i..]
  }

  /** Whatever is put between two strings is mentioned by their concatenation. */
  lemma {:induction false} MentionsInfix(before: string, part: string, after: string)
    ensures Mentions(before + part + after, part)
  {
    var msg := before + part + after;
    assert msg[|before|..] == part + after;
  }

  /** What a string mentions, it still mentions with more text appended. */
  lemma {:induction false} MentionsExtended(msg: string, part: string, more: string)
    requires Mentions(msg, part)
    ensures Mentions(msg + more, part)
  {
    var i :| 0 <= i <= |msg| && part <= msg[i..];
    assert (msg + more)[i..] == msg[i..] + more;
  }
}
