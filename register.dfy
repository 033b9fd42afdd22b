/** The registration view: client-side validation of the form, and the gate
    that lets only a valid form reach the POST /auth/register request. */
module Register {
  import opened Effects

  /** The three text fields of the form. */
  datatype FormData = FormData(username: string, password: string, confirmPassword: string)

  /** The `name` attribute of the input whose change event arrives. */
  datatype Field = Username | Password | ConfirmPassword

  /** The request body sent to the backend: confirmPassword is not part of it. */
  datatype Credentials = Credentials(username: string, password: string)

  /** Where the router was sent, with the state object passed along. */
  datatype Navigation = Navigation(path: string, from: string)

  /** The five validation checks, named after what each one requires. */
  datatype Check =
    | UsernameRequired
    | UsernameMinLength
    | PasswordRequired
    | PasswordMinLength
    | PasswordsMatch

  datatype Validation = Accepted | Rejected(failed: Check)

  /** Both the username and the password must have at least this many characters. */
  const MinLength: nat := 6

  /** The position of a check in the order in which the validator runs them. */
  function Rank(c: Check): nat {
    match c
    case UsernameRequired => 0
    case UsernameMinLength => 1
    case PasswordRequired => 2
    case PasswordMinLength => 3
    case PasswordsMatch => 4
  }

  /** Whether the form passes check `c`, judged on its own. Lengths are
      lengths of `seq<char>`, standing for JavaScript's `.length`. */
  predicate Holds(c: Check, d: FormData) {
    match c
    case UsernameRequired => d.username != ""
    case UsernameMinLength => |d.username| >= MinLength
    case PasswordRequired => d.password != "" && d.confirmPassword != ""
    case PasswordMinLength => |d.password| >= MinLength
    case PasswordsMatch => d.password == d.confirmPassword
  }

  /** The warning shown when check `c` is the one that rejects the form. */
  function Message(c: Check): (m: string)
    ensures m != ""
  {
    match c
    case UsernameRequired => "Username is a required field"
    case UsernameMinLength => "Username must contain atleast 6 characters"
    case PasswordRequired => "password is a required field"
    case PasswordMinLength => "password must contain atleast 6 characters required field"
    case PasswordsMatch => "Passwords do not match"
  }

  /** Each check has its own warning: the warning names the failed check. */
  lemma MessagesAreDistinct(a: Check, b: Check)
    ensures Message(a) == Message(b) ==> a == b
  {
  }

  /** validateInput: the checks run in Rank order and the first one that fails
      is reported. The form is accepted exactly when every check holds. */
  function ValidateInput(d: FormData): (v: Validation)
    ensures v == Accepted <==> forall c :: Holds(c, d)
    ensures v.Rejected? ==> !Holds(v.failed, d)
    ensures v.Rejected? ==> forall c :: Rank(c) < Rank(v.failed) ==> Holds(c, d)
  {
    if d.username == "" then
      assert !Holds(UsernameRequired, d); Rejected(UsernameRequired)
    else if |d.username| < MinLength then
      assert !Holds(UsernameMinLength, d); Rejected(UsernameMinLength)
    else if d.password == "" || d.confirmPassword == "" then
      assert !Holds(PasswordRequired, d); Rejected(PasswordRequired)
    else if |d.password| < MinLength then
      assert !Holds(PasswordMinLength, d); Rejected(PasswordMinLength)
    else if d.password != d.confirmPassword then
      assert !Holds(PasswordsMatch, d); Rejected(PasswordsMatch)
    else Accepted
  }

  /** The two contract clauses pin the reported check down: at most one check
      fails while all checks before it hold. */
  lemma FirstFailureIsUnique(d: FormData, k: Check)
    requires !Holds(k, d)
    requires forall c :: Rank(c) < Rank(k) ==> Holds(c, d)
    ensures ValidateInput(d) == Rejected(k)
  {
  }

  /** Accepted exactly when the five conditions hold together. */
  lemma AcceptedIffConjunction(d: FormData)
    ensures ValidateInput(d) == Accepted <==>
      && d.username != "" && |d.username| >= MinLength
      && d.password != "" && d.confirmPassword != ""
      && |d.password| >= MinLength
      && d.password == d.confirmPassword
  {
  }

  /** An empty username is reported as missing, not as too short. */
  lemma EmptyUsernameIsRequiredFailure(d: FormData)
    requires d.username == ""
    ensures ValidateInput(d) == Rejected(UsernameRequired)
    ensures Message(ValidateInput(d).failed) == "Username is a required field"
  {
  }

  /** A non-empty username shorter than six characters gets the length message. */
  lemma ShortUsernameIsLengthFailure(d: FormData)
    requires 0 < |d.username| < MinLength
    ensures ValidateInput(d) == Rejected(UsernameMinLength)
  {
  }

  /** An empty confirmPassword fails the "required" check even when the
      password itself would pass its own checks. */
  lemma EmptyConfirmationIsRequiredFailure(d: FormData)
    requires |d.username| >= MinLength && d.confirmPassword == ""
    ensures ValidateInput(d) == Rejected(PasswordRequired)
  {
  }

  /** "Passwords do not match" is reported exactly when the username and the
      password pass their own checks and the two passwords differ. */
  lemma MismatchReportedOnlyAfterEarlierChecks(d: FormData)
    ensures ValidateInput(d) == Rejected(PasswordsMatch) <==>
      && |d.username| >= MinLength
      && d.password != "" && d.confirmPassword != ""
      && |d.password| >= MinLength
      && d.password != d.confirmPassword
  {
  }

  /** An accepted confirmation has the password's length, so at least six. */
  lemma AcceptedConfirmationIsLongEnough(d: FormData)
    requires ValidateInput(d) == Accepted
    ensures |d.confirmPassword| >= MinLength
  {
  }

  const RegisteredMessage := "Registered successfully"
  const BackendDownMessage :=
    "Something went wrong. Check that the backend is running, reachable and returns valid JSON."

  /** The component's state (`formData`, `isLoading`) and a record of what it
      did to the outside world: the request bodies it posted, the snackbars it
      showed and the navigations it asked the router for. */
  class RegisterView {
    var formData: FormData
    var isLoading: bool
    var requests: seq<Credentials>
    var notices: seq<Notice>
    var navigations: seq<Navigation>

    constructor ()
      ensures formData == FormData("", "", "") && !isLoading
      ensures requests == [] && notices == [] && navigations == []
    {
      formData := FormData("", "", "");
      isLoading := false;
      requests, notices, navigations := [], [], [];
    }

    /** handleChange: the named field takes the new value, the other two keep theirs. */
    method HandleChange(name: Field, value: string)
      modifies this
      ensures formData.username == if name == Username then value else old(formData.username)
      ensures formData.password == if name == Password then value else old(formData.password)
      ensures formData.confirmPassword ==
        if name == ConfirmPassword then value else old(formData.confirmPassword)
      ensures isLoading == old(isLoading) && requests == old(requests)
      ensures notices == old(notices) && navigations == old(navigations)
    {
      match name
      case Username => formData := formData.(username := value);
      case Password => formData := formData.(password := value);
      case ConfirmPassword => formData := formData.(confirmPassword := value);
    }

    /** register: a rejected form shows its warning and sends nothing; an
        accepted one goes on to postData. */
    method Register()
      modifies this
      ensures formData == old(formData) && navigations == old(navigations)
      ensures |requests| == |old(requests)| + 1 <==> ValidateInput(formData) == Accepted
      ensures ValidateInput(formData) == Accepted ==>
        && requests == old(requests) + [Credentials(formData.username, formData.password)]
        && isLoading && notices == old(notices)
      ensures ValidateInput(formData).Rejected? ==>
        && requests == old(requests) && isLoading == old(isLoading)
        && notices == old(notices) + [Notice(Message(ValidateInput(formData).failed), Warning)]
    {
      var v := ValidateInput(formData);
      if v.Rejected? {
        notices := notices + [Notice(Message(v.failed), Warning)];
      } else {
        PostData(formData);
      }
    }

    /** postData up to its await: the spinner is on and the body holding only
        the username and the password, unchanged, is posted. */
    method PostData(data: FormData)
      modifies this
      ensures isLoading
      ensures requests == old(requests) + [Credentials(data.username, data.password)]
      ensures formData == old(formData) && notices == old(notices) && navigations == old(navigations)
    {
      isLoading := true;
      requests := requests + [Credentials(data.username, data.password)];
    }

    /** postData after its await. A resolved reply whose `success` is true
        shows the success snackbar and navigates to /login exactly once. A
        rejection with a response shows the server's message when its
        `success` is false, the generic message otherwise. A rejection without
        a response makes the handler throw before `setLoading(false)`, so
        nothing changes. */
    method PostDataCompleted(reply: Reply<bool>)
      modifies this
      ensures formData == old(formData) && requests == old(requests)
      ensures navigations == old(navigations) +
        (if reply == Ok(true) then [Navigation("/login", "Register")] else [])
      ensures reply == Ok(true) ==> notices == old(notices) + [Notice(RegisteredMessage, Success)]
      ensures reply == Ok(false) ==> notices == old(notices)
      ensures reply.Failed? && reply.response.Some? ==>
        notices == old(notices) +
          [if !reply.response.value.success then Notice(reply.response.value.message, Error)
           else Notice(BackendDownMessage, Error)]
      ensures reply == Failed(None) ==> notices == old(notices) && isLoading == old(isLoading)
      ensures reply != Failed(None) ==> !isLoading
    {
      match reply
      case Ok(success) =>
        if success {
          notices := notices + [Notice(RegisteredMessage, Success)];
          navigations := navigations + [Navigation("/login", "Register")];
        }
        isLoading := false;
      case Failed(None) =>
      case Failed(Some(r)) =>
        if !r.success {
          notices := notices + [Notice(r.message, Error)];
        } else {
          notices := notices + [Notice(BackendDownMessage, Error)];
        }
        isLoading := false;
    }
  }
}
