/** The phone sign-in screen: a step machine driven by sequential handlers.
    Each handler is specified by a transition function on a snapshot of the
    screen state; the `LoginScreen` class performs the same updates field by field.
    SDK outcomes (code sent, user lookup, sign-in methods, confirmation,
    document read, link and password update) are inputs. */
module Login {
  import opened Common
  import opened Strings
  import opened Ui
  import AuthContext

  datatype Step = Phone | Otp | LoginPassword | SignupPassword | ProfileSetup | ForgotPassword

  datatype Platform = Web | Native

  /** The component state. `confirmation` stands for the web page's
      `window.phoneConfirmationResult`; `toasts` is every toast shown, in order. */
  datatype LoginState = LoginState(
    step: Step,
    formattedPhoneNumber: string,
    phoneNumber: string,
    password: string,
    confirmPassword: string,
    name: string,
    selectedAvatar: string,
    otp: string,
    verificationId: string,
    loading: bool,
    isForgotPass: bool,
    confirmation: Option<string>,
    toasts: seq<Toast>)

  const INITIAL: LoginState :=
    LoginState(Phone, "", "", "", "", "", "avatar_1", "", "", false, false, None, [])

  /** `getFakeEmail()`: the formatted phone at the app's account domain. */
  function FakeEmail(s: LoginState): string {
    AuthContext.FormatEmail(s.formattedPhoneNumber)
  }

  /** For a phone without whitespace, the screen's account e-mail is the one
      `signIn`/`signUp` of the auth provider derive from the same phone. */
  lemma FakeEmailMatchesProvider(s: LoginState, password: string)
    requires s.formattedPhoneNumber != "" && password != ""
    requires forall i :: 0 <= i < |s.formattedPhoneNumber| ==> !IsSpace(s.formattedPhoneNumber[i])
    ensures AuthContext.CredentialsEmail(s.formattedPhoneNumber, password) == Done(FakeEmail(s))
  {
    var p := s.formattedPhoneNumber;
    forall x | x in p ensures !IsSpace(x) {
      var i :| 0 <= i < |p| && p[i] == x;
    }
    FilterAll(p, NotSpace);
  }

  // ---------------------------------------------------------------- sending the code

  const ENTER_PHONE: Toast := Toast("error", "Error", "Please enter your phone number")
  const INVALID_FORMAT: Toast :=
    Toast("error", "Invalid Phone Format", "Please enter a valid phone number with country code")
  const RECAPTCHA_ERROR: Toast := Toast("error", "reCAPTCHA Error", "Please refresh the page and try again")

  /** The E.164 gate of `sendOTP`: a leading "+" and at least 10 characters. */
  predicate PlausibleE164(phone: string) {
    StartsWith(phone, "+") && |phone| >= 10
  }

  /** The toast `sendOTP` shows when a phone fails its gates. */
  function PhoneGate(phone: string): (r: Option<Toast>)
    ensures r.None? <==> phone != "" && PlausibleE164(phone)
    ensures phone == "" ==> r == Some(ENTER_PHONE)
    ensures phone != "" && !PlausibleE164(phone) ==> r == Some(INVALID_FORMAT)
  {
    if phone == "" then Some(ENTER_PHONE)
    else if !PlausibleE164(phone) then Some(INVALID_FORMAT)
    else None
  }

  /** The message `sendOTP` shows for a failed send. */
  function SendErrorMessage(e: SdkError): (msg: string)
    ensures e.code == "auth/too-many-requests" ==> msg == "Too many attempts. Please try again later."
    ensures e.code == "auth/invalid-phone-number" ==> msg == "Invalid phone number format."
    ensures e.code == "auth/quota-exceeded" ==> msg == "SMS quota exceeded. Contact support."
    ensures e.code !in {"auth/too-many-requests", "auth/invalid-phone-number", "auth/quota-exceeded"} ==> msg == e.message
  {
    if e.code == "auth/too-many-requests" then "Too many attempts. Please try again later."
    else if e.code == "auth/invalid-phone-number" then "Invalid phone number format."
    else if e.code == "auth/quota-exceeded" then "SMS quota exceeded. Contact support."
    else e.message
  }

  function CodeSent(phone: string): Toast {
    Toast("success", "Code Sent", "Check your messages at " + phone)
  }

  /** `sendOTP()`. `verifierReady` says whether the reCAPTCHA verifier exists;
      `sent` is the confirmation (web) or verification id (native), or the error. */
  function AfterSendOtp(s: LoginState, platform: Platform, verifierReady: bool, sent: Sdk<string>): (r: LoginState)
    ensures r.step == s.step || r.step == Otp
    ensures r.password == s.password && r.confirmPassword == s.confirmPassword && r.otp == s.otp
    ensures r.isForgotPass == s.isForgotPass && r.name == s.name
    ensures r.formattedPhoneNumber == s.formattedPhoneNumber
    ensures (PhoneGate(s.formattedPhoneNumber).None? && !verifierReady) ==>
      r == s.(loading := false, toasts := if platform == Web then s.toasts + [RECAPTCHA_ERROR] else s.toasts)
    ensures (PhoneGate(s.formattedPhoneNumber).None? && verifierReady) ==> r == AfterSent(s, platform, sent)
  {
    var phone := s.formattedPhoneNumber;
    match PhoneGate(phone)
    case Some(t) => s.(toasts := s.toasts + [t])
    case None =>
      if !verifierReady then
        s.(loading := false, toasts := if platform == Web then s.toasts + [RECAPTCHA_ERROR] else s.toasts)
      else AfterSent(s, platform, sent)
  }

  /** The end of `sendOTP` once the code request was made: the error toast, or the Otp step
      holding the confirmation (web) or the verification id (native). */
  function AfterSent(s: LoginState, platform: Platform, sent: Sdk<string>): (r: LoginState)
    ensures sent.Threw? ==>
      r == s.(loading := false, toasts := s.toasts + [ErrorToast("Error Sending Code", SendErrorMessage(sent.error))])
    ensures (sent.Done? && platform == Web) ==>
      r == s.(step := Otp, confirmation := Some(sent.value), loading := false, toasts := s.toasts + [CodeSent(s.formattedPhoneNumber)])
    ensures (sent.Done? && platform != Web) ==>
      r == s.(step := Otp, verificationId := sent.value, loading := false, toasts := s.toasts + [CodeSent(s.formattedPhoneNumber)])
  {
    match sent
    case Threw(e) => s.(loading := false, toasts := s.toasts + [ErrorToast("Error Sending Code", SendErrorMessage(e))])
    case Done(v) =>
      var t := s.toasts + [CodeSent(s.formattedPhoneNumber)];
      if platform == Web then s.(step := Otp, confirmation := Some(v), loading := false, toasts := t)
      else s.(step := Otp, verificationId := v, loading := false, toasts := t)
  }

  /** A phone that fails the gates changes nothing but the toasts: the step stays. */
  lemma SendOtpRejects(s: LoginState, platform: Platform, verifierReady: bool, sent: Sdk<string>)
    requires !(s.formattedPhoneNumber != "" && PlausibleE164(s.formattedPhoneNumber))
    ensures AfterSendOtp(s, platform, verifierReady, sent) == s.(toasts := s.toasts + [PhoneGate(s.formattedPhoneNumber).value])
  {
  }

  /** The code step is reached exactly when a plausible phone's code was sent. */
  lemma SendOtpReachesOtp(s: LoginState, platform: Platform, verifierReady: bool, sent: Sdk<string>)
    requires s.step != Otp
    ensures AfterSendOtp(s, platform, verifierReady, sent).step == Otp <==>
      s.formattedPhoneNumber != "" && PlausibleE164(s.formattedPhoneNumber) && verifierReady && sent.Done?
  {
  }

  // ---------------------------------------------------------------- checking the user

  /** The state `handleCheckUser` hands to `sendOTP`: loading, and the forgot
      flag cleared unless the lookup threw. */
  function CheckUserSendState(s: LoginState, found: Sdk<bool>, methods: Sdk<nat>): LoginState {
    s.(loading := true, isForgotPass := if found.Threw? || (found.value && methods.Threw?) then s.isForgotPass else false)
  }

  /** `handleCheckUser()`. `found` is whether a user document has this phone;
      `methods` the number of sign-in methods of the account e-mail. A failed
      lookup falls back to sending the code without resetting `isForgotPass`. */
  function AfterCheckUser(s: LoginState, found: Sdk<bool>, methods: Sdk<nat>,
                     platform: Platform, verifierReady: bool, sent: Sdk<string>): (r: LoginState)
  {
    if s.formattedPhoneNumber == "" then s.(toasts := s.toasts + [ENTER_PHONE])
    else
      var busy := s.(loading := true);
      var after :=
        if found.Threw? then AfterSendOtp(busy, platform, verifierReady, sent)
        else if !found.value then AfterSendOtp(busy.(isForgotPass := false), platform, verifierReady, sent)
        else if methods.Threw? then AfterSendOtp(busy, platform, verifierReady, sent)
        else if methods.value > 0 then busy.(step := LoginPassword)
        else AfterSendOtp(busy.(isForgotPass := false), platform, verifierReady, sent);
      after.(loading := false)
  }

  /** The password step is reached only for a known user with a sign-in method;
      every other case, a failed lookup included, goes through `sendOTP`. */
  lemma CheckUserRoutes(s: LoginState, found: Sdk<bool>, methods: Sdk<nat>,
                        platform: Platform, verifierReady: bool, sent: Sdk<string>)
    requires s.step != LoginPassword
    ensures var r := AfterCheckUser(s, found, methods, platform, verifierReady, sent);
      (r.step == LoginPassword <==> s.formattedPhoneNumber != "" && found == Done(true) && methods.Done? && methods.value > 0) &&
      (r.step != LoginPassword && s.formattedPhoneNumber != "" ==>
        r == AfterSendOtp(s.(loading := true, isForgotPass := if found.Threw? || (found.value && methods.Threw?) then s.isForgotPass else false),
          platform, verifierReady, sent).(loading := false))
  {
  }

  // ---------------------------------------------------------------- verifying the code

  const ENTER_OTP: Toast := Toast("error", "Error", "Enter OTP")
  const REQUEST_NEW_CODE: Toast := Toast("error", "Error", "Please request a new code")

  /** Whether a stored document counts as a completed profile (a non-empty name). */
  predicate HasProfile(d: Option<AuthContext.UserDoc>) {
    d.Some? && Truthy(d.value.name)
  }

  /** `verifyOTP()`. `confirmed` is the signed-in uid or the error;
      `readDoc(uid)` the `getDoc` of that user's document. */
  function AfterVerifyOtp(s: LoginState, platform: Platform, confirmed: Sdk<string>,
                     readDoc: string -> Sdk<Option<AuthContext.UserDoc>>): (r: LoginState)
    ensures r.step == s.step || r.step == SignupPassword
    ensures s.otp == "" ==> r == s.(toasts := s.toasts + [ENTER_OTP])
    ensures s.otp != "" && platform == Web && s.confirmation.None? ==>
      r == s.(loading := false, toasts := s.toasts + [REQUEST_NEW_CODE])
    ensures s.otp != "" && (platform == Native || s.confirmation.Some?) && confirmed.Threw? ==>
      r == s.(loading := false, toasts := s.toasts + [ErrorToast("Verification Failed", confirmed.error.message)])
    ensures (s.otp != "" && (platform == Native || s.confirmation.Some?) && confirmed.Done? &&
      readDoc(confirmed.value).Threw?) ==>
      r == s.(loading := false, toasts := s.toasts + [ErrorToast("Verification Failed", readDoc(confirmed.value).error.message)])
    ensures (s.otp != "" && (platform == Native || s.confirmation.Some?) && confirmed.Done? &&
      readDoc(confirmed.value).Done?) ==>
      r == if HasProfile(readDoc(confirmed.value).value) && !s.isForgotPass then s.(loading := false)
        else s.(step := SignupPassword, loading := false)
  {
    if s.otp == "" then s.(toasts := s.toasts + [ENTER_OTP])
    else if platform == Web && s.confirmation.None? then s.(loading := false, toasts := s.toasts + [REQUEST_NEW_CODE])
    else
      match confirmed
      case Threw(e) => s.(loading := false, toasts := s.toasts + [ErrorToast("Verification Failed", e.message)])
      case Done(uid) =>
        match readDoc(uid)
        case Threw(e) => s.(loading := false, toasts := s.toasts + [ErrorToast("Verification Failed", e.message)])
        case Done(d) =>
          if HasProfile(d) && !s.isForgotPass then s.(loading := false)
          else s.(step := SignupPassword, loading := false)
  }

  /** After a confirmed code, the password step follows unless the user has a
      profile and this is not the forgot-password flow. */
  lemma VerifyOtpRoutes(s: LoginState, platform: Platform, uid: string,
                        readDoc: string -> Sdk<Option<AuthContext.UserDoc>>)
    requires s.otp != "" && (platform == Native || s.confirmation.Some?)
    requires readDoc(uid).Done?
    ensures AfterVerifyOtp(s, platform, Done(uid), readDoc).step ==
      if HasProfile(readDoc(uid).value) && !s.isForgotPass then s.step else SignupPassword
  {
  }

  // ---------------------------------------------------------------- password

  const ENTER_PASSWORD: Toast := Toast("error", "Error", "Enter Password")

  /** `handleLogin()`; `signedIn` is the outcome of signing in with the account e-mail. */
  function AfterLogin(s: LoginState, signedIn: Sdk<()>): (r: LoginState)
    ensures r.step == s.step
    ensures s.password == "" ==> r == s.(toasts := s.toasts + [ENTER_PASSWORD])
    ensures s.password != "" ==> !r.loading
    ensures s.password != "" && signedIn.Done? ==> r == s.(loading := false)
    ensures s.password != "" && signedIn.Threw? ==>
      r == s.(loading := false, toasts := s.toasts + [ErrorToast("Login Failed", signedIn.error.message)])
  {
    if s.password == "" then s.(toasts := s.toasts + [ENTER_PASSWORD])
    else
      match signedIn
      case Done(_) => s.(loading := false)
      case Threw(e) => s.(loading := false, toasts := s.toasts + [ErrorToast("Login Failed", e.message)])
  }

  const SHORT_PASSWORD: Toast := Toast("error", "Error", "Password must be at least 6 characters")
  const PASSWORD_MISMATCH: Toast := Toast("error", "Error", "Passwords do not match")
  const NO_USER: Toast := Toast("error", "Error", "No user signed in")
  const PASSWORD_UPDATED: Toast := Toast("success", "Success", "Password updated")

  /** The outcome of linking the e-mail credential to the phone account:
      an existing credential falls back to the password update, an e-mail
      collision counts as linked, any other error stands. */
  function LinkOutcome(link: Sdk<()>, update: Sdk<()>): (r: Sdk<()>)
    ensures link.Done? ==> r.Done?
    ensures link.Threw? && link.error.code == "auth/credential-already-in-use" ==> r == update
    ensures link.Threw? && link.error.code == "auth/email-already-in-use" ==> r.Done?
    ensures link.Threw? && link.error.code !in {"auth/credential-already-in-use", "auth/email-already-in-use"} ==> r == link
  {
    match link
    case Done(_) => Done(())
    case Threw(e) =>
      if e.code == "auth/credential-already-in-use" then update
      else if e.code == "auth/email-already-in-use" then Done(())
      else Threw(e)
  }

  /** `handleSetPassword()`. `signedIn` says whether `auth.currentUser` is set;
      `link` is the outcome of linking the e-mail credential and `update` that
      of `updatePassword`. */
  function AfterSetPassword(s: LoginState, signedIn: bool, link: Sdk<()>, update: Sdk<()>): (r: LoginState)
    ensures |s.password| < 6 ==> r == s.(toasts := s.toasts + [SHORT_PASSWORD])
    ensures |s.password| >= 6 && s.password != s.confirmPassword ==> r == s.(toasts := s.toasts + [PASSWORD_MISMATCH])
    ensures r.step == s.step || r.step == ProfileSetup
    ensures |s.password| >= 6 && s.password == s.confirmPassword && !signedIn ==>
      r == s.(loading := false, toasts := s.toasts + [NO_USER])
    ensures |s.password| >= 6 && s.password == s.confirmPassword && signedIn && s.isForgotPass ==>
      (update.Done? ==> r == s.(loading := false, toasts := s.toasts + [PASSWORD_UPDATED])) &&
      (update.Threw? ==> r == s.(loading := false, toasts := s.toasts + [ErrorToast("Error", update.error.message)]))
    ensures |s.password| >= 6 && s.password == s.confirmPassword && signedIn && !s.isForgotPass ==>
      (LinkOutcome(link, update).Done? ==> r == s.(step := ProfileSetup, loading := false)) &&
      (LinkOutcome(link, update).Threw? ==>
        r == s.(loading := false, toasts := s.toasts + [ErrorToast("Error", LinkOutcome(link, update).error.message)]))
  {
    if |s.password| < 6 then s.(toasts := s.toasts + [SHORT_PASSWORD])
    else if s.password != s.confirmPassword then s.(toasts := s.toasts + [PASSWORD_MISMATCH])
    else if !signedIn then s.(loading := false, toasts := s.toasts + [NO_USER])
    else if s.isForgotPass then
      match update
      case Done(_) => s.(loading := false, toasts := s.toasts + [PASSWORD_UPDATED])
      case Threw(e) => s.(loading := false, toasts := s.toasts + [ErrorToast("Error", e.message)])
    else
      match LinkOutcome(link, update)
      case Done(_) => s.(step := ProfileSetup, loading := false)
      case Threw(e) => s.(loading := false, toasts := s.toasts + [ErrorToast("Error", e.message)])
  }

  /** Link errors: an existing credential falls back to a password update, an
      e-mail collision is ignored, anything else is shown. The forgot-password
      flow never moves the step. */
  lemma SetPasswordRoutes(s: LoginState, link: Sdk<()>, update: Sdk<()>)
    requires |s.password| >= 6 && s.password == s.confirmPassword
    requires s.step != ProfileSetup
    ensures s.isForgotPass ==> AfterSetPassword(s, true, link, update).step == s.step
    ensures !s.isForgotPass ==>
      (AfterSetPassword(s, true, link, update).step == ProfileSetup <==>
        link.Done? || link.error.code == "auth/email-already-in-use" ||
        (link.error.code == "auth/credential-already-in-use" && update.Done?))
    ensures (!s.isForgotPass && link.Threw? &&
      link.error.code !in {"auth/credential-already-in-use", "auth/email-already-in-use"}) ==>
      AfterSetPassword(s, true, link, update).toasts == s.toasts + [ErrorToast("Error", link.error.message)]
  {
  }

  // ---------------------------------------------------------------- profile and reset

  const ENTER_NAME: Toast := Toast("error", "Error", "Please enter your name")
  const PROFILE_NOT_SAVED: Toast := Toast("error", "Error", "Failed to save profile")

  /** The document `handleProfileSetup` writes (it replaces the whole document). */
  function ProfileDoc(s: LoginState, createdAt: string): (d: AuthContext.UserDoc)
    ensures d.name.Some? && d.name.value == Trim(s.name)
    ensures d.isGuest == Some(false) && d.myList == Some([]) && d.surname.None?
    ensures d.phoneNumber == Some(s.formattedPhoneNumber) && d.avatar == Some(s.selectedAvatar)
    ensures d.createdAt == Some(createdAt)
  {
    AuthContext.UserDoc(Some(s.formattedPhoneNumber), Some(Trim(s.name)), None, Some(s.selectedAvatar),
      Some([]), Some(false), Some(createdAt))
  }

  /** The write `handleProfileSetup()` makes: `uid` is `auth.currentUser`'s
      uid and `saved` the outcome of the write. A blank name writes nothing. */
  function ProfileSetupWrite(s: LoginState, uid: Option<string>, saved: Sdk<()>, createdAt: string)
    : (w: Option<(string, AuthContext.UserDoc)>)
    ensures w.Some? <==> !IsBlank(s.name) && uid.Some? && saved.Done?
    ensures w.Some? ==> w.value.0 == uid.value && w.value.1.name.Some? && !IsBlank(w.value.1.name.value)
    ensures w.Some? ==> w.value == (uid.value, ProfileDoc(s, createdAt))
  {
    TrimEmptyIffBlank(s.name);
    TrimHasNoOuterSpace(s.name);
    if Trim(s.name) == "" || uid.None? || saved.Threw? then None else Some((uid.value, ProfileDoc(s, createdAt)))
  }

  /** `handleProfileSetup()` on the screen: a blank name is refused, a
      missing user or a failed write is reported, and the step stays. */
  function AfterProfileSetup(s: LoginState, uid: Option<string>, saved: Sdk<()>): (r: LoginState)
    ensures r.step == s.step
    ensures IsBlank(s.name) ==> r == s.(toasts := s.toasts + [ENTER_NAME])
    ensures !IsBlank(s.name) && (uid.None? || saved.Threw?) ==>
      r == s.(loading := false, toasts := s.toasts + [PROFILE_NOT_SAVED])
    ensures !IsBlank(s.name) && uid.Some? && saved.Done? ==> r == s.(loading := false)
  {
    TrimEmptyIffBlank(s.name);
    if Trim(s.name) == "" then s.(toasts := s.toasts + [ENTER_NAME])
    else if uid.None? || saved.Threw? then s.(loading := false, toasts := s.toasts + [PROFILE_NOT_SAVED])
    else s.(loading := false)
  }

  /** `resetStep()`: back to the phone step with the secrets and the name
      cleared; the phone fields and `verificationId` are kept. */
  function AfterResetStep(s: LoginState): (r: LoginState)
    ensures r.step == Phone && r.password == "" && r.confirmPassword == "" && r.otp == "" && r.name == ""
    ensures !r.isForgotPass
    ensures r.formattedPhoneNumber == s.formattedPhoneNumber && r.phoneNumber == s.phoneNumber
    ensures r.verificationId == s.verificationId && r.toasts == s.toasts
    ensures r.selectedAvatar == s.selectedAvatar && r.loading == s.loading && r.confirmation == s.confirmation
  {
    s.(step := Phone, password := "", confirmPassword := "", otp := "", name := "", isForgotPass := false)
  }

  /** The screen component, updated field by field as its handlers run. */
  class LoginScreen {
    var step: Step
    var formattedPhoneNumber: string
    var phoneNumber: string
    var password: string
    var confirmPassword: string
    var name: string
    var selectedAvatar: string
    var otp: string
    var verificationId: string
    var loading: bool
    var isForgotPass: bool
    var confirmation: Option<string>
    var toasts: seq<Toast>

    function State(): LoginState
      reads this
    {
      LoginState(step, formattedPhoneNumber, phoneNumber, password, confirmPassword, name, selectedAvatar,
        otp, verificationId, loading, isForgotPass, confirmation, toasts)
    }

    constructor ()
      ensures State() == INITIAL
    {
      step := Phone;
      formattedPhoneNumber, phoneNumber := "", "";
      password, confirmPassword, name := "", "", "";
      selectedAvatar := "avatar_1";
      otp, verificationId := "", "";
      loading, isForgotPass := false, false;
      confirmation := None;
      toasts := [];
    }

    method Show(t: Toast)
      modifies this`toasts
      ensures toasts == old(toasts) + [t]
    {
      toasts := toasts + [t];
    }

    method SendOtp(platform: Platform, verifierReady: bool, sent: Sdk<string>)
      modifies this`toasts, this`loading, this`step, this`confirmation, this`verificationId
      ensures State() == AfterSendOtp(old(State()), platform, verifierReady, sent)
    {
      var s0 := State();
      var phone := formattedPhoneNumber;
      var gate := PhoneGate(phone);
      if gate.Some? {
        // "Please enter your phone number", or the E.164 format error.
        Show(gate.value);
        assert State() == s0.(toasts := s0.toasts + [gate.value]);
        return;
      }
      loading := true;
      if !verifierReady {
        if platform == Web {
          Show(RECAPTCHA_ERROR);
        }
        loading := false;
        assert State() == s0.(loading := false, toasts := if platform == Web then s0.toasts + [RECAPTCHA_ERROR] else s0.toasts);
        return;
      }
      Deliver(platform, sent);
    }

    /** The code request's outcome reaching the screen. */
    method Deliver(platform: Platform, sent: Sdk<string>)
      modifies this`toasts, this`loading, this`step, this`confirmation, this`verificationId
      ensures State() == AfterSent(old(State()), platform, sent)
    {
      var s0 := State();
      match sent {
        case Threw(e) =>
          Show(ErrorToast("Error Sending Code", SendErrorMessage(e)));
          loading := false;
          assert State() == s0.(loading := false, toasts := s0.toasts + [ErrorToast("Error Sending Code", SendErrorMessage(e))]);
        case Done(v) =>
          step := Otp;
          Show(CodeSent(formattedPhoneNumber));
          loading := false;
          if platform == Web {
            confirmation := Some(v);
            assert State() == s0.(step := Otp, confirmation := Some(v), loading := false, toasts := s0.toasts + [CodeSent(s0.formattedPhoneNumber)]);
          } else {
            verificationId := v;
            assert State() == s0.(step := Otp, verificationId := v, loading := false, toasts := s0.toasts + [CodeSent(s0.formattedPhoneNumber)]);
          }
      }
    }

    method HandleCheckUser(found: Sdk<bool>, methods: Sdk<nat>, platform: Platform, verifierReady: bool, sent: Sdk<string>)
      modifies this`toasts, this`loading, this`step, this`confirmation, this`verificationId, this`isForgotPass
      ensures State() == AfterCheckUser(old(State()), found, methods, platform, verifierReady, sent)
    {
      var s0 := State();
      if formattedPhoneNumber == "" {
        Show(ENTER_PHONE);
        assert State() == s0.(toasts := s0.toasts + [ENTER_PHONE]);
        return;
      }
      loading := true;
      if found.Done? && found.value && methods.Done? && methods.value > 0 {
        step := LoginPassword;
        loading := false;
        assert State() == s0.(step := LoginPassword, loading := false);
      } else {
        SendAfterCheck(found, methods, platform, verifierReady, sent);
      }
    }

    /** The `sendOTP` fallback of `handleCheckUser`, shared by an unknown user and a failed lookup. */
    method SendAfterCheck(found: Sdk<bool>, methods: Sdk<nat>, platform: Platform, verifierReady: bool, sent: Sdk<string>)
      modifies this`toasts, this`loading, this`step, this`confirmation, this`verificationId, this`isForgotPass
      ensures State() == AfterSendOtp(CheckUserSendState(old(State()), found, methods), platform, verifierReady, sent).(loading := false)
    {
      loading := true;
      // A lookup that threw reaches `sendOTP` from the catch, keeping `isForgotPass`.
      if found.Done? && (!found.value || methods.Done?) {
        isForgotPass := false;
      }
      SendOtp(platform, verifierReady, sent);
      loading := false;
    }

    method VerifyOtp(platform: Platform, confirmed: Sdk<string>, readDoc: string -> Sdk<Option<AuthContext.UserDoc>>)
      modifies this`toasts, this`loading, this`step
      ensures State() == AfterVerifyOtp(old(State()), platform, confirmed, readDoc)
    {
      if otp == "" {
        Show(ENTER_OTP);
        return;
      }
      loading := true;
      if platform == Web && confirmation.None? {
        Show(REQUEST_NEW_CODE);
        loading := false;
        return;
      }
      var outcome := if confirmed.Done? then readDoc(confirmed.value) else Threw(confirmed.error);
      match outcome {
        case Threw(e) =>
          Show(ErrorToast("Verification Failed", e.message));
        case Done(d) =>
          if !(HasProfile(d) && !isForgotPass) {
            step := SignupPassword;
          }
      }
      loading := false;
    }

    method HandleLogin(signedIn: Sdk<()>)
      modifies this`toasts, this`loading
      ensures State() == AfterLogin(old(State()), signedIn)
    {
      if password == "" {
        Show(ENTER_PASSWORD);
        return;
      }
      loading := true;
      if signedIn.Threw? {
        Show(ErrorToast("Login Failed", signedIn.error.message));
      }
      loading := false;
    }

    method HandleSetPassword(signedIn: bool, link: Sdk<()>, update: Sdk<()>)
      modifies this`toasts, this`loading, this`step
      ensures State() == AfterSetPassword(old(State()), signedIn, link, update)
    {
      if |password| < 6 {
        Show(SHORT_PASSWORD);
        return;
      }
      if password != confirmPassword {
        Show(PASSWORD_MISMATCH);
        return;
      }
      loading := true;
      if !signedIn {
        Show(NO_USER);
      } else if isForgotPass {
        if update.Done? {
          Show(PASSWORD_UPDATED);
        } else {
          Show(ErrorToast("Error", update.error.message));
        }
      } else {
        var failure: Option<SdkError> := None;
        if link.Threw? {
          if link.error.code == "auth/credential-already-in-use" {
            if update.Threw? {
              failure := Some(update.error);
            }
          } else if link.error.code != "auth/email-already-in-use" {
            failure := Some(link.error);
          }
        }
        if failure.None? {
          step := ProfileSetup;
        } else {
          Show(ErrorToast("Error", failure.value.message));
        }
      }
      loading := false;
    }

    method HandleForgotPassword(platform: Platform, verifierReady: bool, sent: Sdk<string>)
      modifies this`toasts, this`loading, this`step, this`confirmation, this`verificationId, this`isForgotPass
      ensures State() == AfterSendOtp(old(State()).(isForgotPass := true), platform, verifierReady, sent)
    {
      isForgotPass := true;
      SendOtp(platform, verifierReady, sent);
    }

    /** `handleProfileSetup()`; returns the document it writes, if any. */
    method HandleProfileSetup(uid: Option<string>, saved: Sdk<()>, createdAt: string)
      returns (written: Option<(string, AuthContext.UserDoc)>)
      modifies this`loading, this`toasts
      ensures written == ProfileSetupWrite(old(State()), uid, saved, createdAt)
      ensures State() == AfterProfileSetup(old(State()), uid, saved)
    {
      written := None;
      var s0 := State();
      if Trim(name) == "" {
        Show(ENTER_NAME);
        assert State() == s0.(toasts := s0.toasts + [ENTER_NAME]);
        return;
      }
      loading := true;
      if uid.None? || saved.Threw? {
        Show(PROFILE_NOT_SAVED);
        loading := false;
        assert State() == s0.(loading := false, toasts := s0.toasts + [PROFILE_NOT_SAVED]);
      } else {
        written := Some((uid.value, ProfileDoc(s0, createdAt)));
        loading := false;
        assert State() == s0.(loading := false);
      }
    }

    method ResetStep()
      modifies this`step, this`password, this`confirmPassword, this`otp, this`name, this`isForgotPass
      ensures State() == AfterResetStep(old(State()))
    {
      ghost var s0 := State();
      step := Phone;
      password := "";
      confirmPassword := "";
      otp := "";
      name := "";
      isForgotPass := false;
      assert State() == AfterResetStep(s0);
    }
  }
}
