/** The login screen: one form shared by a sign-in view and a sign-up view,
    with the checks each button runs before moving on. */
module Login {
  import opened Common
  import opened Text

  /** `currentScreen`: the two views the screen can show. */
  datatype View = LoginView | SignUpView

  /** The names of the form's fields. */
  datatype AccountField =
    | FirstName | Surname | Gender | Dob | Phone | Password | ConfirmPassword
    | State | District | Block | Village

  /** `formData`: the text held for each field. */
  datatype AccountForm = AccountForm(
    firstName: string, surname: string, gender: string, dob: string, phone: string,
    password: string, confirmPassword: string, state: string, district: string,
    block: string, village: string)
  {
    /** `formData[field]`. */
    function Get(field: AccountField): string {
      match field
      case FirstName => firstName
      case Surname => surname
      case Gender => gender
      case Dob => dob
      case Phone => phone
      case Password => password
      case ConfirmPassword => confirmPassword
      case State => state
      case District => district
      case Block => block
      case Village => village
    }

    /** `{ ...prev, [field]: value }`: the named field takes the new text and
        every other field keeps its own. */
    function Set(field: AccountField, value: string): (r: AccountForm)
      ensures r.Get(field) == value
      ensures forall other :: other != field ==> r.Get(other) == Get(other)
    {
      match field
      case FirstName => this.(firstName := value)
      case Surname => this.(surname := value)
      case Gender => this.(gender := value)
      case Dob => this.(dob := value)
      case Phone => this.(phone := value)
      case Password => this.(password := value)
      case ConfirmPassword => this.(confirmPassword := value)
      case State => this.(state := value)
      case District => this.(district := value)
      case Block => this.(block := value)
      case Village => this.(village := value)
    }
  }

  /** The form as the screen first shows it: every field empty. */
  const EmptyAccountForm := AccountForm("", "", "", "", "", "", "", "", "", "", "")

  /** How `handleSignUp` ends. */
  datatype SignUpResult = MissingRequired | PasswordMismatch | AccountCreated

  /** How `handleLogin` ends. */
  datatype LoginResult = MissingCredentials | LoggedIn

  /** The checks of `handleSignUp`, in order: the three required fields are
      tested first (an empty string is the only missing value; nothing is
      trimmed), the password match second. */
  function CheckSignUp(form: AccountForm): (result: SignUpResult)
    ensures result == AccountCreated <==>
              form.firstName != "" && form.phone != "" && form.password != "" && form.password == form.confirmPassword
    ensures result == MissingRequired <==> form.firstName == "" || form.phone == "" || form.password == ""
  {
    if form.firstName == "" || form.phone == "" || form.password == "" then MissingRequired
    else if form.password != form.confirmPassword then PasswordMismatch
    else AccountCreated
  }

  /** The check of `handleLogin`: phone and password present. */
  function CheckLogin(form: AccountForm): (result: LoginResult)
    ensures result == LoggedIn <==> form.phone != "" && form.password != ""
  {
    if form.phone == "" || form.password == "" then MissingCredentials else LoggedIn
  }

  /** A mismatch is only ever reported once every required field is present:
      with a required field empty the mismatch is not looked at. */
  lemma RequiredCheckedBeforeMismatch(form: AccountForm)
    ensures CheckSignUp(form) == PasswordMismatch ==>
              form.firstName != "" && form.phone != "" && form.password != "" && form.password != form.confirmPassword
    ensures form.firstName == "" ==> CheckSignUp(form) == MissingRequired
  {
  }

  /** Signing in looks at the phone and the password only: two forms that
      agree on those two fields sign in alike. */
  lemma LoginReadsOnlyCredentials(a: AccountForm, b: AccountForm)
    requires a.phone == b.phone && a.password == b.password
    ensures CheckLogin(a) == CheckLogin(b)
  {
  }

  /** Changing a field other than the four sign-up reads leaves the sign-up
      verdict as it was. */
  lemma SignUpIgnoresOtherFields(form: AccountForm, field: AccountField, value: string)
    requires field !in {FirstName, Phone, Password, ConfirmPassword}
    ensures CheckSignUp(form.Set(field, value)) == CheckSignUp(form)
  {
    var f := form.Set(field, value);
    assert f.firstName == f.Get(FirstName) == form.Get(FirstName);
    assert f.phone == f.Get(Phone) == form.Get(Phone);
    assert f.password == f.Get(Password) == form.Get(Password);
    assert f.confirmPassword == f.Get(ConfirmPassword) == form.Get(ConfirmPassword);
  }

  /** Neither check trims. Text made of whitespace only, which `trim` would
      reduce to nothing, still counts as present: such a phone and password
      sign in, and such a first name, phone and password pass the required
      check of sign-up, which then depends on the match alone. */
  lemma WhitespaceOnlyValuesPass(form: AccountForm)
    requires form.firstName != "" && form.phone != "" && form.password != ""
    requires AllWhitespace(form.firstName) && AllWhitespace(form.phone) && AllWhitespace(form.password)
    ensures Trim(form.firstName) == [] && Trim(form.phone) == [] && Trim(form.password) == []
    ensures CheckLogin(form) == LoggedIn
    ensures CheckSignUp(form) == AccountCreated <==> form.password == form.confirmPassword
    ensures CheckSignUp(form) != MissingRequired
  {
    TrimEmptyIffAllWhitespace(form.firstName);
    TrimEmptyIffAllWhitespace(form.phone);
    TrimEmptyIffAllWhitespace(form.password);
  }

  const MissingFieldsAlert := Alert("Error", "Please fill all required fields.")
  const MismatchAlert := Alert("Error", "Passwords do not match.")
  const CreatedAlert := Alert("Success", "Account created successfully! Please log in.")
  const MissingCredentialsAlert := Alert("Error", "Please enter phone and password.")
  const LoggedInAlert := Alert("Success", "Login successful!")

  class LoginScreen {
    var currentScreen: View
    var formData: AccountForm

    constructor ()
      ensures currentScreen == LoginView && formData == EmptyAccountForm
    {
      currentScreen := LoginView;
      formData := EmptyAccountForm;
    }

    /** `handleInputChange`: set one field, keep the rest and the view. */
    method HandleInputChange(field: AccountField, value: string)
      modifies this
      ensures formData == old(formData).Set(field, value)
      ensures forall other :: other != field ==> formData.Get(other) == old(formData).Get(other)
      ensures currentScreen == old(currentScreen)
    {
      formData := formData.Set(field, value);
    }

    /** `handleSignUp`: only a passing sign-up switches to the login view; a
        failing one changes neither the view nor the form. */
    method HandleSignUp() returns (result: SignUpResult, alert: Alert)
      modifies this
      ensures result == CheckSignUp(old(formData))
      ensures currentScreen == if result == AccountCreated then LoginView else old(currentScreen)
      ensures formData == old(formData)
      ensures alert == match result
                       case MissingRequired => MissingFieldsAlert
                       case PasswordMismatch => MismatchAlert
                       case AccountCreated => CreatedAlert
    {
      if formData.firstName == "" || formData.phone == "" || formData.password == "" {
        return MissingRequired, MissingFieldsAlert;
      }
      if formData.password != formData.confirmPassword {
        return PasswordMismatch, MismatchAlert;
      }
      currentScreen := LoginView;
      result, alert := AccountCreated, CreatedAlert;
    }

    /** `handleLogin`: navigates to the home screen exactly when phone and
        password are both present; it changes no state of this screen. */
    method HandleLogin() returns (result: LoginResult, alert: Alert)
      ensures result == CheckLogin(formData)
      ensures result == LoggedIn <==> formData.phone != "" && formData.password != ""
      ensures alert == if result == LoggedIn then LoggedInAlert else MissingCredentialsAlert
    {
      if formData.phone == "" || formData.password == "" {
        return MissingCredentials, MissingCredentialsAlert;
      }
      result, alert := LoggedIn, LoggedInAlert;
    }

    /** The "Sign Up" footer link of the login view. */
    method ShowSignUp()
      modifies this
      ensures currentScreen == SignUpView && formData == old(formData)
    {
      currentScreen := SignUpView;
    }

    /** The "Sign In" footer link of the sign-up view. */
    method ShowLogin()
      modifies this
      ensures currentScreen == LoginView && formData == old(formData)
    {
      currentScreen := LoginView;
    }
  }
}
