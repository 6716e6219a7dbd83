/**
 * The early-access sign-up form: an email field, validated by the pattern
 * `\S+@\S+\.\S+` (matched anywhere in the text, not anchored) before a
 * simulated submission runs.
 */
module Cta {

  /** A character of JavaScript's `\s` class: the ASCII and Unicode white space and line terminators. */
  predicate IsSpace(c: char)
  {
    var n := c as int;
    n == 0x09 || n == 0x0A || n == 0x0B || n == 0x0C || n == 0x0D || n == 0x20 || n == 0xA0 || n == 0x1680
    || (0x2000 <= n <= 0x200A) || n == 0x2028 || n == 0x2029 || n == 0x202F || n == 0x205F || n == 0x3000
    || n == 0xFEFF
  }

  /** No white space in `s[lo..hi]`. */
  predicate NoSpaceIn(s: string, lo: int, hi: int)
    requires 0 <= lo <= hi <= |s|
  {
    forall k :: lo <= k < hi ==> !IsSpace(s[k])
  }

  /**
   * A match of `\S+@\S+\.\S+` ending at `s[dot + 1]`: a non-space character
   * before the `@` at `at`, only non-space characters up to the `.` at `dot`
   * (at least one), and a non-space character after it. Longer `\S+` runs
   * only extend a match, so these witness every match.
   */
  predicate MatchAt(s: string, at: int, dot: int)
  {
    && 0 < at && at + 1 < dot && dot + 1 < |s|
    && s[at] == '@' && s[dot] == '.'
    && !IsSpace(s[at - 1]) && NoSpaceIn(s, at + 1, dot) && !IsSpace(s[dot + 1])
  }

  /** `/\S+@\S+\.\S+/.test(s)`. */
  predicate EmailPattern(s: string)
  {
    exists at, dot :: 0 <= at < dot < |s| && MatchAt(s, at, dot)
  }

  /** The gate of `handleSubmit`: a non-empty email that matches the pattern. */
  predicate Accepts(email: string)
  {
    email != "" && EmailPattern(email)
  }

  /** A match needs an `@` with a character before it and a `.` two characters later. */
  lemma PatternNeedsAt(s: string)
    requires EmailPattern(s)
    ensures |s| >= 5
    ensures exists at :: 0 < at < |s| && s[at] == '@'
  {
  }

  /** The empty string, and so an empty field, never matches. */
  lemma EmptyRejected()
    ensures !Accepts("")
  {
  }

  /** The pattern is not anchored: text around a match keeps it a match. */
  lemma PatternUnanchored(s: string, before: string, after: string)
    requires EmailPattern(s)
    ensures EmailPattern(before + s + after)
  {
    var at, dot :| 0 <= at < dot < |s| && MatchAt(s, at, dot);
    var t := before + s + after;
    var n := |before|;
    assert forall k :: 0 <= k < |s| ==> t[n + k] == s[k];
    assert NoSpaceIn(t, n + at + 1, n + dot) by {
      forall k | n + at + 1 <= k < n + dot
        ensures !IsSpace(t[k])
      {
        assert t[k] == s[k - n];
      }
    }
    assert MatchAt(t, n + at, n + dot);
  }

  lemma ShortestAccepted()
    ensures Accepts("a@b.c")
  {
    assert MatchAt("a@b.c", 1, 3);
  }

  lemma SurroundedAccepted()
    ensures Accepts("mail me at a@b.c now")
  {
    assert MatchAt("mail me at a@b.c now", 12, 14);
  }

  lemma NoDotRejected()
    ensures !Accepts("a@b")
  {
  }

  lemma NothingBeforeAtRejected()
    ensures !Accepts("@b.c")
  {
  }

  /** White space right after every `@` leaves no match: the part between `@` and `.` may hold none. */
  lemma SpaceAfterEveryAtRejected(s: string)
    requires forall k :: 0 <= k < |s| && s[k] == '@' ==> k + 1 < |s| && IsSpace(s[k + 1])
    ensures !EmailPattern(s)
  {
    forall at, dot | 0 <= at < dot < |s|
      ensures !MatchAt(s, at, dot)
    {
      if 0 < at && at + 1 < dot && dot + 1 < |s| && s[at] == '@' {
        assert IsSpace(s[at + 1]);
      }
    }
  }

  lemma SpaceAfterAtRejected()
    ensures !Accepts("a@ b.c")
  {
    var s := "a@ b.c";
    forall at, dot | 0 <= at < dot < |s|
      ensures !MatchAt(s, at, dot)
    {
      if 0 < at && at + 1 < dot && dot + 1 < |s| && s[at] == '@' && s[dot] == '.' {
        assert IsSpace(s[2]);
      }
    }
  }

  /** The form's state. */
  class CtaForm {
    var email: string
    var isSubmitted: bool
    var isSubmitting: bool

    constructor ()
      ensures email == "" && !isSubmitted && !isSubmitting
    {
      email := "";
      isSubmitted := false;
      isSubmitting := false;
    }

    /** The submit button's `disabled`: while a submission runs, or with an empty field. */
    predicate SubmitDisabled()
      reads this
    {
      isSubmitting || email == ""
    }

    /** The field's `onChange`. */
    method SetEmail(value: string)
      modifies this
      ensures email == value
      ensures isSubmitted == old(isSubmitted) && isSubmitting == old(isSubmitting)
    {
      email := value;
    }

    /**
     * `handleSubmit` up to its simulated request: a rejected email changes
     * nothing; an accepted one marks the form as submitting.
     */
    method BeginSubmit() returns (accepted: bool)
      modifies this
      ensures accepted <==> Accepts(old(email))
      ensures !accepted ==> unchanged(this)
      ensures accepted ==> isSubmitting && email == old(email) && isSubmitted == old(isSubmitted)
    {
      if email == "" || !EmailPattern(email) {
        return false;
      }
      isSubmitting := true;
      accepted := true;
    }

    /** The rest of `handleSubmit`, once the simulated request has resolved: done, no longer submitting, field cleared. */
    method FinishSubmit()
      modifies this
      ensures isSubmitted && !isSubmitting && email == ""
      ensures SubmitDisabled()
    {
      isSubmitted := true;
      isSubmitting := false;
      email := "";
    }
  }
}
