/**
 * The sign-up form (signup/page.tsx): its guard chain over the four
 * fields. No account is created anywhere; success is only an alert.
 */
module Signup {
  import opened Optional

  const FillMessage := "Please fill in all fields."
  const LengthMessage := "Password must be at least 6 characters."
  const CreatedAlert := "Account created successfully!"

  /** The form state; `role` is the value of the select, "" until one is picked. */
  class SignupForm {
    var fullname: string
    var email: string
    var password: string
    var role: string
    var remember: bool
    var errorMessage: string

    constructor ()
      ensures fullname == "" && email == "" && password == "" && role == "" && !remember && errorMessage == ""
    {
      fullname, email, password, role := "", "", "", "";
      remember := false;
      errorMessage := "";
    }

    /**
     * `signup()`: an empty field is reported before the password length is
     * looked at; a password of fewer than six characters is reported next;
     * otherwise the success alert is raised and the message cleared.
     */
    method Signup() returns (alert: Option<string>)
      modifies this`errorMessage
      ensures fullname == "" || email == "" || password == "" || role == "" ==>
        errorMessage == FillMessage && alert == None
      ensures fullname != "" && email != "" && password != "" && role != "" && |password| < 6 ==>
        errorMessage == LengthMessage && alert == None
      ensures fullname != "" && email != "" && password != "" && role != "" && |password| >= 6 ==>
        errorMessage == "" && alert == Some(CreatedAlert)
      ensures errorMessage == LengthMessage ==> 1 <= |password| < 6
      ensures alert.Some? <==> errorMessage == ""
    {
      if fullname == "" || email == "" || password == "" || role == "" {
        errorMessage := FillMessage;
        return None;
      }
      if |password| < 6 {
        errorMessage := LengthMessage;
        return None;
      }
      alert := Some(CreatedAlert);
      errorMessage := "";
    }
  }
}
