/**
 * The client signup form (`SignUpCard.tsx`): the schema the form is
 * validated against, and the submit handler's steps through `isLoading`,
 * `success` and the form-level (root) error. The `signUp` call is abstract;
 * how it ends is an input.
 */
module SignUpForm {
  import opened Wrappers
  import opened Strings

  const MsgNameTooShort: string := "Full name must be at least 2 characters"
  const MsgBadEmail: string := "Please enter a valid email address"
  const MsgPasswordTooShort: string := "Password must be at least 8 characters"
  const MsgMismatch: string := "Passwords don't match"
  const MsgSignUpFailed: string := "Sign up failed"

  datatype FormData = FormData(fullName: string, email: string, password: string, confirmPassword: string)

  datatype Field = FullName | Email | Password | ConfirmPassword

  /** A failed rule of the schema. */
  datatype Issue = NameTooShort | BadEmail | PasswordTooShort | PasswordMismatch {

    /** The field the issue is reported on. */
    function Path(): Field {
      match this
      case NameTooShort => FullName
      case BadEmail => Email
      case PasswordTooShort => Password
      case PasswordMismatch => ConfirmPassword
    }

    function Message(): string {
      match this
      case NameTooShort => MsgNameTooShort
      case BadEmail => MsgBadEmail
      case PasswordTooShort => MsgPasswordTooShort
      case PasswordMismatch => MsgMismatch
    }
  }

  /**
   * `signUpSchema`: the field checks in declaration order, then the
   * password-match refinement, reported on `confirmPassword`. Lengths are
   * UTF-16 code units and the name is not trimmed. `emailValid` is the
   * library's verdict on the address.
   */
  function SchemaIssues(f: FormData, emailValid: bool): (issues: seq<Issue>)
    ensures NameTooShort in issues <==> Utf16Length(f.fullName) < 2
    ensures BadEmail in issues <==> !emailValid
    ensures PasswordTooShort in issues <==> Utf16Length(f.password) < 8
    ensures PasswordMismatch in issues <==> f.password != f.confirmPassword
    ensures forall i, j :: 0 <= i < j < |issues| ==> issues[i].Path() != issues[j].Path()
  {
    (if Utf16Length(f.fullName) < 2 then [NameTooShort] else [])
    + (if !emailValid then [BadEmail] else [])
    + (if Utf16Length(f.password) < 8 then [PasswordTooShort] else [])
    + (if f.password != f.confirmPassword then [PasswordMismatch] else [])
  }

  /** The mismatch is reported on the confirmation field with its own message. */
  lemma MismatchReportedOnConfirm()
    ensures PasswordMismatch.Path() == ConfirmPassword && PasswordMismatch.Message() == "Passwords don't match"
  {
  }

  /** The form is accepted exactly when every rule holds. */
  lemma AcceptedIffRulesHold(f: FormData, emailValid: bool)
    ensures SchemaIssues(f, emailValid) == [] <==>
      Utf16Length(f.fullName) >= 2 && emailValid && Utf16Length(f.password) >= 8 && f.password == f.confirmPassword
  {
    var issues := SchemaIssues(f, emailValid);
    if Utf16Length(f.fullName) < 2 { assert NameTooShort in issues; }
    if !emailValid { assert BadEmail in issues; }
    if Utf16Length(f.password) < 8 { assert PasswordTooShort in issues; }
    if f.password != f.confirmPassword { assert PasswordMismatch in issues; }
  }

  /** Unlike the server, the form counts whitespace: two spaces pass as a name. */
  lemma SpacesPassAsName(email: string, password: string)
    ensures NameTooShort !in SchemaIssues(FormData("  ", email, password, password), true)
  {
  }

  /** How the awaited `signUp` call ended; `Threw(Some(m))` is an `Error` with message `m`. */
  datatype CallResult = Completed | Threw(message: Option<string>)

  /** The message put on the root error for a thrown value. */
  function RootMessage(message: Option<string>): (m: string)
    ensures message.Some? ==> m == message.value
    ensures message.None? ==> m == MsgSignUpFailed
  {
    message.GetOr(MsgSignUpFailed)
  }

  /** The arguments of a `signUp` call. */
  datatype SignUpArgs = SignUpArgs(email: string, password: string, fullName: string)

  /** The card's component state and the call it is waiting for. */
  class SignUpCard {
    var isLoading: bool
    var success: bool
    var rootError: Option<string>
    var pending: Option<SignUpArgs>   // the `signUp` call being awaited

    ghost predicate Valid()
      reads this
    {
      isLoading <==> pending.Some?
    }

    /** The button is disabled while a submission is in flight. */
    predicate SubmitDisabled()
      reads this
    {
      isLoading
    }

    constructor ()
      ensures Valid() && !isLoading && !success && rootError.None? && pending.None?
    {
      isLoading := false;
      success := false;
      rootError := None;
      pending := None;
    }

    /**
     * `handleSubmit(onSubmit)` up to the awaited call: a form with issues is
     * not submitted; a valid one sets `isLoading` and calls `signUp` with the
     * raw field values.
     */
    method Submit(f: FormData, emailValid: bool) returns (issues: seq<Issue>)
      requires Valid() && !SubmitDisabled()
      modifies this
      ensures Valid() && issues == SchemaIssues(f, emailValid)
      ensures issues != [] ==> isLoading == old(isLoading) && pending == old(pending)
      ensures issues == [] ==> isLoading && pending == Some(SignUpArgs(f.email, f.password, f.fullName))
      ensures success == old(success) && rootError == old(rootError)
    {
      issues := SchemaIssues(f, emailValid);
      if issues != [] {
        return;
      }
      isLoading := true;
      pending := Some(SignUpArgs(f.email, f.password, f.fullName));
    }

    /**
     * The awaited call settles: `success` is set only when it completed, a
     * throw sets the root error and leaves `success` alone, and `finally`
     * clears `isLoading` either way.
     */
    method Settle(result: CallResult)
      requires Valid() && isLoading
      modifies this
      ensures Valid() && !isLoading && pending.None?
      ensures result.Completed? ==> success && rootError == old(rootError)
      ensures result.Threw? ==> success == old(success) && rootError == Some(RootMessage(result.message))
    {
      if result.Completed? {
        success := true;
      } else {
        rootError := Some(RootMessage(result.message));
      }
      isLoading := false;
      pending := None;
    }
  }
}
