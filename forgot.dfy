/**
 * The forgot-password form (forgot/page.tsx): an emptiness check, then the
 * e-mail pattern on the text exactly as typed, then navigation to the
 * code-entry page.
 */
module Forgot {
  import opened Optional
  import opened Text
  import ProfileEditing

  const EmptyAlert := "Please enter your email first."
  const InvalidAlert := "Please enter a valid email."

  class ForgotForm {
    var email: string

    constructor ()
      ensures email == ""
    {
      email := "";
    }

    /**
     * `handleSubmit(e)`: an empty field alerts and stays; text not matching
     * the pattern alerts and stays; otherwise the browser goes to
     * "/entercode".
     */
    method HandleSubmit() returns (alert: Option<string>, navigate: Option<string>)
      ensures email == "" ==> alert == Some(EmptyAlert) && navigate == None
      ensures email != "" && !MatchesEmailPattern(email) ==> alert == Some(InvalidAlert) && navigate == None
      ensures MatchesEmailPattern(email) ==> alert == None && navigate == Some("/entercode")
    {
      if email == "" {
        return Some(EmptyAlert), None;
      }
      var valid := MatchesEmailPattern(email);
      if !valid {
        return Some(InvalidAlert), None;
      }
      return None, Some("/entercode");
    }
  }

  /** Every address this form accepts is also accepted by the profile page, which trims first. */
  lemma ForgotStricterThanProfile(email: string)
    requires MatchesEmailPattern(email)
    ensures ProfileEditing.IsValidEmail(email)
  {
    var k :| 0 < k < |email| && email[k] == '@' && NoSpaceOrAt(email[..k]) && DottedDomain(email[k + 1..]);
    assert email[0] == email[..k][0];
    assert email[|email| - 1] == email[k + 1..][|email| - k - 2];
    TrimUntouched(email);
  }

  /** A string that neither starts nor ends with whitespace is its own trim. */
  lemma TrimUntouched(s: string)
    requires s != [] && !IsWhitespace(s[0]) && !IsWhitespace(s[|s| - 1])
    ensures Trim(s) == s
  {
  }

  /** A leading space is refused here but accepted on the profile page. */
  lemma LeadingSpaceDiffers()
    ensures !MatchesEmailPattern(" a@b.co")
    ensures ProfileEditing.IsValidEmail(" a@b.co")
  {
    var e := " a@b.co";
    assert IsWhitespace(e[0]);
    forall k | 0 < k < |e| && e[k] == '@' ensures !NoSpaceOrAt(e[..k]) {
      assert e[..k][0] == ' ';
    }
    TrimUntouched("a@b.co");
    assert Trim(e) == "a@b.co" by {
      TrimLeading(e);
    }
    var t := "a@b.co";
    assert t[1] == '@' && t[..1] == "a" && t[2..] == "b.co";
    assert NoSpaceOrAt(t[..1]);
    assert "b.co"[1] == '.';
    assert DottedDomain(t[2..]);
  }

  /** Trimming " a@b.co" drops exactly its leading space. */
  lemma TrimLeading(e: string)
    requires e == " a@b.co"
    ensures Trim(e) == "a@b.co"
  {
    assert e[1] == 'a' && e[6] == 'o';
  }
}
