/**
 * The sign-in / sign-up form: field validation while typing (`validateField`)
 * and the final check that decides whether a request is sent, and where
 * (`handleSubmit`).
 */
module HomeForm {
  import opened Wrappers
  import opened JsText
  import opened HomePatterns

  /** The four inputs of the form. */
  datatype FormData = FormData(email: string, password: string, confirmPassword: string, name: string)

  const EmptyForm: FormData := FormData("", "", "", "")

  /** The error map: a key is present (`Some`) or deleted (`None`). */
  datatype Errors = Errors(email: Option<string>, password: Option<string>,
                           confirmPassword: Option<string>, name: Option<string>)
  {
    /** `Object.keys(errors).length === 0` */
    predicate IsEmpty()
    {
      email.None? && password.None? && confirmPassword.None? && name.None?
    }
  }

  const NoErrors: Errors := Errors(None, None, None, None)

  const InvalidEmail := "Invalid email address"
  const PasswordsDiffer := "Passwords do not match"
  const NameRequired := "Name is required"
  const EmailRequired := "Email is required"
  const PasswordRequired := "Password is required"
  const ConfirmRequired := "Confirm password is required"
  const RequirementsUnmet := "Password must meet all requirements"

  const LoginEndpoint := "/login"
  const SignupEndpoint := "/signup"

  /** The error map `validateField(name, value)` commits, given the errors and form it reads. */
  function EditedErrors(errors: Errors, isLogin: bool, form: FormData, name: string, value: string): (r: Errors)
    ensures name == "email" ==> r.email == (if MatchesEmail(value) then None else Some(InvalidEmail))
    ensures name == "password" ==>
      r.confirmPassword == (if form.confirmPassword != "" && value != form.confirmPassword
                            then Some(PasswordsDiffer) else None)
    ensures name == "confirmPassword" ==>
      r.confirmPassword == (if value != form.password then Some(PasswordsDiffer) else None)
    ensures name == "name" && !isLogin ==>
      r.name == (if forall i :: 0 <= i < |value| ==> IsSpace(value[i]) then Some(NameRequired) else None)
    ensures name != "email" ==> r.email == errors.email
    ensures r.password == errors.password
    ensures name != "password" && name != "confirmPassword" ==> r.confirmPassword == errors.confirmPassword
    ensures name != "name" || isLogin ==> r.name == errors.name
  {
    var afterEmail :=
      if name == "email" then errors.(email := if !EmailTest(value) then Some(InvalidEmail) else None)
      else errors;
    var afterPassword :=
      if name == "password" then
        afterEmail.(confirmPassword :=
          if Truthy(form.confirmPassword) && value != form.confirmPassword then Some(PasswordsDiffer) else None)
      else afterEmail;
    var afterConfirm :=
      if name == "confirmPassword" then
        afterPassword.(confirmPassword := if value != form.password then Some(PasswordsDiffer) else None)
      else afterPassword;
    if !isLogin && name == "name" then
      afterConfirm.(name := if Trim(value) == "" then Some(NameRequired) else None)
    else afterConfirm
  }

  /** `{ ...prev, [name]: value }` for the form's own input names. */
  function WithField(form: FormData, name: string, value: string): (r: FormData)
    ensures name == "email" ==> r == form.(email := value)
    ensures name == "password" ==> r == form.(password := value)
    ensures name == "confirmPassword" ==> r == form.(confirmPassword := value)
    ensures name == "name" ==> r == form.(name := value)
    ensures name !in {"email", "password", "confirmPassword", "name"} ==> r == form
  {
    match name
    case "email" => form.(email := value)
    case "password" => form.(password := value)
    case "confirmPassword" => form.(confirmPassword := value)
    case "name" => form.(name := value)
    case _ => form
  }

  /** The error map `handleSubmit` builds from scratch. */
  function SubmitErrors(isLogin: bool, form: FormData, reqs: PasswordRequirements): (r: Errors)
    ensures r.email == (if form.email == "" then Some(EmailRequired) else None)
    ensures r.password ==
      if !isLogin && !reqs.AllMet() then Some(RequirementsUnmet)
      else if form.password == "" then Some(PasswordRequired)
      else None
    ensures r.name == (if !isLogin && form.name == "" then Some(NameRequired) else None)
    ensures r.confirmPassword ==
      (if !isLogin && form.confirmPassword == "" then Some(ConfirmRequired) else None)
  {
    var e := NoErrors;
    var e := if !Truthy(form.email) then e.(email := Some(EmailRequired)) else e;
    var e := if !Truthy(form.password) then e.(password := Some(PasswordRequired)) else e;
    var e := if !isLogin && !Truthy(form.name) then e.(name := Some(NameRequired)) else e;
    var e := if !isLogin && !Truthy(form.confirmPassword) then e.(confirmPassword := Some(ConfirmRequired)) else e;
    if !isLogin && !reqs.AllMet() then e.(password := Some(RequirementsUnmet)) else e
  }

  /** The body `handleSubmit` posts. */
  datatype SignRequest = SignRequest(endpoint: string, email: string, password: string,
                                     name: Option<string>, confirmPassword: Option<string>,
                                     captchaToken: Option<string>)

  /** What `handleSubmit` decides before any request goes out. */
  datatype SubmitDecision =
    | CaptchaMissing
    | Rejected(errors: Errors)
    | Send(request: SignRequest)

  function Decide(isLogin: bool, form: FormData, reqs: PasswordRequirements,
                  captcha: Option<string>): (d: SubmitDecision)
    ensures d.CaptchaMissing? <==> !isLogin && !PresentAndTruthy(captcha)
    ensures d.Rejected? ==> d.errors == SubmitErrors(isLogin, form, reqs) && !d.errors.IsEmpty()
    ensures d.Send? <==> !d.CaptchaMissing? && SubmitErrors(isLogin, form, reqs).IsEmpty()
    ensures d.Send? ==>
      d.request.endpoint == (if isLogin then LoginEndpoint else SignupEndpoint) &&
      d.request.email == form.email && d.request.password == form.password &&
      d.request.name == (if isLogin then None else Some(form.name)) &&
      d.request.confirmPassword == (if isLogin then None else Some(form.confirmPassword)) &&
      d.request.captchaToken == captcha
  {
    var errors := SubmitErrors(isLogin, form, reqs);
    if !isLogin && !PresentAndTruthy(captcha) then CaptchaMissing
    else if !errors.IsEmpty() then Rejected(errors)
    else Send(SignRequest(if isLogin then LoginEndpoint else SignupEndpoint, form.email, form.password,
                          if isLogin then None else Some(form.name),
                          if isLogin then None else Some(form.confirmPassword), captcha))
  }

  /** How the POST ended: the flags of the response body, or a thrown error. */
  datatype PostReply = Answered(userLogged: bool, userCreated: bool) | PostFailed

  /** The success test of `handleSubmit`: the flag that belongs to the mode is set. */
  predicate Accepted(reply: PostReply, isLogin: bool)
  {
    reply.Answered? && (if isLogin then reply.userLogged else reply.userCreated)
  }

  /** The component's state. */
  class HomeState {
    var isLogin: bool
    var captchaToken: Option<string>
    var loading: bool
    var formData: FormData
    var errors: Errors
    var requirements: PasswordRequirements

    /** The initial `useState` values: login mode, empty form, no errors, no requirement met. */
    constructor ()
      ensures isLogin && captchaToken.None? && !loading
      ensures formData == EmptyForm && errors == NoErrors && requirements == NoneMet
    {
      isLogin, captchaToken, loading := true, None, false;
      formData, errors, requirements := EmptyForm, NoErrors, NoneMet;
    }

    /** The mode switch under the form: `setIsLogin((prev) => !prev)`. */
    method ToggleMode()
      modifies this
      ensures isLogin == !old(isLogin)
      ensures captchaToken == old(captchaToken) && loading == old(loading)
      ensures formData == old(formData) && errors == old(errors) && requirements == old(requirements)
    {
      isLogin := !isLogin;
    }

    /** `handleCaptchaChange`: keep the token the widget reports (null when it expires). */
    method HandleCaptchaChange(token: Option<string>)
      modifies this
      ensures captchaToken == token
      ensures isLogin == old(isLogin) && loading == old(loading)
      ensures formData == old(formData) && errors == old(errors) && requirements == old(requirements)
    {
      captchaToken := token;
    }

    /**
     * `validateField`: copy the errors, set or delete the keys the edited field governs,
     * and, for a password in sign-up mode, recompute the requirement flags.
     */
    method ValidateField(name: string, value: string)
      modifies this
      ensures errors == EditedErrors(old(errors), isLogin, formData, name, value)
      ensures requirements ==
        if name == "password" && !isLogin then CheckPassword(value) else old(requirements)
      ensures isLogin == old(isLogin) && captchaToken == old(captchaToken) && loading == old(loading)
      ensures formData == old(formData)
    {
      var newErrors := errors;
      if name == "email" {
        if !EmailTest(value) {
          newErrors := newErrors.(email := Some(InvalidEmail));
        } else {
          newErrors := newErrors.(email := None);
        }
      }
      if name == "password" {
        if !isLogin {
          requirements := CheckPassword(value);
        }
        if formData.confirmPassword != "" && value != formData.confirmPassword {
          newErrors := newErrors.(confirmPassword := Some(PasswordsDiffer));
        } else {
          newErrors := newErrors.(confirmPassword := None);
        }
      }
      if name == "confirmPassword" {
        if value != formData.password {
          newErrors := newErrors.(confirmPassword := Some(PasswordsDiffer));
        } else {
          newErrors := newErrors.(confirmPassword := None);
        }
      }
      if !isLogin && name == "name" {
        if Trim(value) == "" {
          newErrors := newErrors.(name := Some(NameRequired));
        } else {
          newErrors := newErrors.(name := None);
        }
      }
      errors := newErrors;
    }

    /** `handleChange`: store the typed value and validate it against the form as it was. */
    method HandleChange(name: string, value: string)
      modifies this
      ensures formData == WithField(old(formData), name, value)
      ensures errors == EditedErrors(old(errors), isLogin, old(formData), name, value)
      ensures requirements ==
        if name == "password" && !isLogin then CheckPassword(value) else old(requirements)
      ensures isLogin == old(isLogin) && captchaToken == old(captchaToken) && loading == old(loading)
    {
      var prev := formData;
      ValidateField(name, value);
      formData := WithField(prev, name, value);
    }

    /**
     * `handleSubmit`: build the error map; in sign-up mode give up before anything else when
     * there is no captcha token; commit the errors; and post to `/login` or `/signup` only when
     * the map is empty. `reply` is how that request ends. Returns the request posted, and the
     * argument of the `login` action dispatched after a successful login.
     */
    method HandleSubmit(reply: PostReply) returns (posted: Option<SignRequest>, dispatched: Option<string>)
      modifies this
      ensures var d := Decide(old(isLogin), old(formData), old(requirements), old(captchaToken));
        && posted == (if d.Send? then Some(d.request) else None)
        && errors == (match d
                      case CaptchaMissing => old(errors)
                      case Rejected(e) => e
                      case Send(_) => NoErrors)
        && isLogin == (old(isLogin) || (d.Send? && Accepted(reply, false)))
        && dispatched == (if d.Send? && old(isLogin) && Accepted(reply, true) then Some(old(formData).email) else None)
        && loading == (if d.Send? then false else old(loading))
      ensures formData == old(formData) && captchaToken == old(captchaToken) && requirements == old(requirements)
    {
      posted, dispatched := None, None;
      var newErrors := NoErrors;
      if formData.email == "" { newErrors := newErrors.(email := Some(EmailRequired)); }
      if formData.password == "" { newErrors := newErrors.(password := Some(PasswordRequired)); }
      if !isLogin && formData.name == "" { newErrors := newErrors.(name := Some(NameRequired)); }
      if !isLogin && formData.confirmPassword == "" {
        newErrors := newErrors.(confirmPassword := Some(ConfirmRequired));
      }
      if !isLogin && !requirements.AllMet() {
        newErrors := newErrors.(password := Some(RequirementsUnmet));
      }
      if !isLogin && !PresentAndTruthy(captchaToken) {
        return;
      }
      errors := newErrors;
      if newErrors.IsEmpty() {
        loading := true;
        var mode := isLogin;
        var data := SignRequest(if mode then LoginEndpoint else SignupEndpoint,
                                formData.email, formData.password,
                                if mode then None else Some(formData.name),
                                if mode then None else Some(formData.confirmPassword),
                                captchaToken);
        posted := Some(data);
        if Accepted(reply, mode) {
          if !mode { isLogin := true; }
          if mode { dispatched := Some(formData.email); }
        }
        loading := false;
      }
    }
  }

  /** In sign-up mode a request goes out only with a captcha token and every requirement met. */
  lemma SignupSendRequiresAll(form: FormData, reqs: PasswordRequirements, captcha: Option<string>)
    requires Decide(false, form, reqs, captcha).Send?
    ensures PresentAndTruthy(captcha) && reqs.AllMet()
    ensures form.email != "" && form.password != "" && form.name != "" && form.confirmPassword != ""
  {
  }

  /** Any unmet requirement in sign-up mode (with a captcha) shows up as the password error. */
  lemma UnmetRequirementRejected(form: FormData, reqs: PasswordRequirements, captcha: Option<string>)
    requires !reqs.AllMet() && PresentAndTruthy(captcha)
    ensures Decide(false, form, reqs, captcha) == Rejected(SubmitErrors(false, form, reqs))
    ensures SubmitErrors(false, form, reqs).password == Some(RequirementsUnmet)
  {
  }

  /** In login mode the requirement flags and the captcha play no part in whether a request is sent. */
  lemma LoginIgnoresRequirements(form: FormData, reqs: PasswordRequirements, reqs': PasswordRequirements,
                                 captcha: Option<string>, captcha': Option<string>)
    ensures Decide(true, form, reqs, captcha).Send? == Decide(true, form, reqs', captcha').Send?
    ensures Decide(true, form, reqs, captcha).Send? <==> form.email != "" && form.password != ""
  {
  }

  /** Submitting does not compare the two passwords: a mismatching confirmation still gets posted. */
  lemma MismatchNotRechecked(form: FormData, captcha: Option<string>)
    requires form.email != "" && form.password != "" && form.name != "" && form.confirmPassword != ""
    requires form.password != form.confirmPassword
    requires PresentAndTruthy(captcha)
    ensures Decide(false, form, PasswordRequirements(true, true, true, true), captcha).Send?
  {
  }

  /**
   * Typing into a field whose name the form does not know leaves the errors alone; typing a
   * name in login mode does too.
   */
  lemma UnrelatedEditKeepsErrors(errors: Errors, isLogin: bool, form: FormData, name: string, value: string)
    requires name !in {"email", "password", "confirmPassword"}
    requires name != "name" || isLogin
    ensures EditedErrors(errors, isLogin, form, name, value) == errors
  {
  }
}
