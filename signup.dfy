/**
 * The sign-up form: its fields, the two password-visibility toggles, the terms
 * checkbox and the submit handler, which checks the password confirmation first
 * and the terms second.
 */
module SignUp {
  const PasswordMismatch := "Passwords do not match!"
  const TermsRequired := "You must agree to the Terms & Conditions."

  /** The message `handleSubmit` leaves on the form; the empty string means the account was created. */
  function SubmitError(password: string, confirmPassword: string, agree: bool): (e: string)
    ensures e == "" <==> password == confirmPassword && agree
    ensures password != confirmPassword ==> e == PasswordMismatch
    ensures password == confirmPassword && !agree ==> e == TermsRequired
  {
    if password != confirmPassword then PasswordMismatch
    else if !agree then TermsRequired
    else ""
  }

  /** A mismatch is reported whatever the checkbox says: the terms are checked only after the passwords. */
  lemma MismatchComesFirst(password: string, confirmPassword: string)
    requires password != confirmPassword
    ensures SubmitError(password, confirmPassword, true) == SubmitError(password, confirmPassword, false)
  {
  }

  datatype TextField = FullName | Email | Mobile | Password | ConfirmPassword

  class SignUpForm {
    var fullName: string
    var email: string
    var mobile: string
    var password: string
    var confirmPassword: string
    var agree: bool
    var error: string
    var showPassword: bool
    var showConfirmPassword: bool

    /** The form as first shown. */
    constructor ()
      ensures fullName == "" && email == "" && mobile == "" && password == "" && confirmPassword == ""
      ensures !agree && error == "" && !showPassword && !showConfirmPassword
    {
      fullName, email, mobile, password, confirmPassword := "", "", "", "", "";
      agree, error, showPassword, showConfirmPassword := false, "", false, false;
    }

    /** The values that `handleSubmit` must leave alone. */
    function Fields(): (seq<string>, bool, bool, bool)
      reads this
    {
      ([fullName, email, mobile, password, confirmPassword], agree, showPassword, showConfirmPassword)
    }

    /** Typing into one of the text inputs. */
    method SetText(field: TextField, value: string)
      modifies this
      ensures fullName == (if field == FullName then value else old(fullName))
      ensures email == (if field == Email then value else old(email))
      ensures mobile == (if field == Mobile then value else old(mobile))
      ensures password == (if field == Password then value else old(password))
      ensures confirmPassword == (if field == ConfirmPassword then value else old(confirmPassword))
      ensures agree == old(agree) && error == old(error)
      ensures showPassword == old(showPassword) && showConfirmPassword == old(showConfirmPassword)
    {
      match field
      case FullName => fullName := value;
      case Email => email := value;
      case Mobile => mobile := value;
      case Password => password := value;
      case ConfirmPassword => confirmPassword := value;
    }

    /** The terms checkbox flips `agree`. */
    method ToggleAgree()
      modifies this
      ensures agree == !old(agree)
      ensures Fields().0 == old(Fields().0) && error == old(error)
      ensures showPassword == old(showPassword) && showConfirmPassword == old(showConfirmPassword)
    {
      agree := !agree;
    }

    /** The eye button beside the password (`confirm` false) or its confirmation (`confirm` true). */
    method ToggleVisibility(confirm: bool)
      modifies this
      ensures showPassword == (if confirm then old(showPassword) else !old(showPassword))
      ensures showConfirmPassword == (if confirm then !old(showConfirmPassword) else old(showConfirmPassword))
      ensures Fields().0 == old(Fields().0) && agree == old(agree) && error == old(error)
    {
      if confirm {
        showConfirmPassword := !showConfirmPassword;
      } else {
        showPassword := !showPassword;
      }
    }

    /**
     * `handleSubmit`: sets the error message and reports whether the account was
     * created; the entered values stay as they are.
     */
    method HandleSubmit() returns (created: bool)
      modifies this
      ensures error == SubmitError(password, confirmPassword, agree)
      ensures created <==> error == ""
      ensures Fields() == old(Fields())
    {
      if password != confirmPassword {
        error := PasswordMismatch;
        return false;
      }
      if !agree {
        error := TermsRequired;
        return false;
      }
      error := "";
      return true;
    }
  }
}
