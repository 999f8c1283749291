/**
 * The error collector of package `errors`: an `ErrorList` is a slice of
 * errors that `Add` grows in place and whose `Error` text lists every
 * message after the prefix "Have errors: ".
 */
module Errors {

  /** A Go `error`, identified by the text its `Error()` method returns. */
  datatype Error = Error(message: string)

  const Prefix: string := "Have errors: "
  const Separator: string := ", "

  /** The messages of `es`, in order, separated by ", " with nothing after the last. */
  function Joined(es: seq<Error>): string
  {
    if |es| == 0 then ""
    else if |es| == 1 then es[0].message
    else Joined(es[..|es| - 1]) + Separator + es[|es| - 1].message
  }

  /** Collected errors can be regrouped: appending two runs in turn is appending them together. */
  lemma AppendAssoc(a: seq<Error>, b: seq<Error>, c: seq<Error>)
    ensures (a + b) + c == a + (b + c)
  {
  }

  /** The text an `ErrorList` holding `es` reports. */
  function Text(es: seq<Error>): string
  {
    if es == [] then "Have errors" else Prefix + Joined(es)
  }

  /** Every message followed by the separator: what the builder holds after the loop. */
  function Terminated(es: seq<Error>): string
  {
    if es == [] then "" else Terminated(es[..|es| - 1]) + es[|es| - 1].message + Separator
  }

  /** A non-empty list's builder text is its joined text plus one trailing separator. */
  lemma {:induction false} TerminatedIsJoinedPlusSeparator(es: seq<Error>)
    requires es != []
    ensures Terminated(es) == Joined(es) + Separator
  {
    if |es| > 1 {
      var init := es[..|es| - 1];
      TerminatedIsJoinedPlusSeparator(init);
    } else {
      assert es[..0] == [];
    }
  }

  /** A joined list ends with its last message and so never with a trailing separator. */
  lemma {:induction false} JoinedEndsWithLast(es: seq<Error>)
    requires es != []
    ensures |Joined(es)| >= |es[|es| - 1].message|
    ensures Joined(es)[|Joined(es)| - |es[|es| - 1].message|..] == es[|es| - 1].message
  {
    var j := Joined(es);
    var last := es[|es| - 1].message;
    if |es| > 1 {
      var head := Joined(es[..|es| - 1]) + Separator;
      assert j == head + last;
      assert j[|head|..] == last;
    }
  }

  class ErrorList {
    /** The collected errors, oldest first. */
    var errors: seq<Error>

    constructor ()
      ensures errors == []
    {
      errors := [];
    }

    /** Appends `es` at the end, in order, and returns this same list. */
    method Add(es: seq<Error>) returns (l: ErrorList)
      modifies this
      ensures errors == old(errors) + es
      ensures es == [] ==> errors == old(errors)
      ensures l == this
    {
      errors := errors + es;
      l := this;
    }

    /** Holds exactly when no error was collected. */
    function Empty(): (b: bool)
      reads this
      ensures b <==> |errors| == 0
    {
      |errors| == 0
    }

    /** Builds the prefix, then each message followed by ", ", and drops the last two characters. */
    method Error() returns (s: string)
      ensures s == Text(errors)
    {
      var buf := Prefix;
      var i := 0;
      while i < |errors|
        invariant 0 <= i <= |errors|
        invariant buf == Prefix + Terminated(errors[..i])
      {
        assert errors[..i + 1][..i] == errors[..i];
        buf := buf + errors[i].message + Separator;
        i := i + 1;
      }
      assert errors[..i] == errors;
      if errors != [] {
        TerminatedIsJoinedPlusSeparator(errors);
        assert buf == (Prefix + Joined(errors)) + Separator;
      }
      s := buf[..|buf| - 2];
    }
  }
}
