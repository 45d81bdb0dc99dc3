/** The sign-in form of src/components/LoginForm.jsx: the two fields, the
    `loading` flag and the error line, and the submit handler split at its
    call to the provider's `login` (BeginSubmit / SettleSubmit). */
module LoginForm {
  import opened JsCore
  import Api
  import MusicService
  import Auth

  const EmptyFieldsText := "Por favor, preencha todos os campos"
  const LoginFailedText := "Erro ao fazer login"

  /** How the awaited `login(formData)` settled. */
  datatype Attempt = Resolved(result: Auth.LoginResult) | Threw(message: string)

  /** `formData.email` and `formData.password` are both truthy. */
  predicate Filled(formData: map<string, string>) {
    TruthyText(Api.Lookup(formData, "email")) && TruthyText(Api.Lookup(formData, "password"))
  }

  /** The error line after a settled attempt that did not succeed. */
  function AttemptError(attempt: Attempt): (e: string)
    requires !(attempt.Resolved? && attempt.result.success)
    ensures e != "" || attempt.Threw?
    ensures attempt.Resolved? && TruthyText(attempt.result.message) ==> e == attempt.result.message.value
    ensures attempt.Resolved? && !TruthyText(attempt.result.message) ==> e == LoginFailedText
    ensures attempt.Threw? ==> e == attempt.message
  {
    match attempt
    case Resolved(result) => if TruthyText(result.message) then result.message.value else LoginFailedText
    case Threw(message) => message
  }

  class LoginFormState {
    var formData: map<string, string>
    var loading: bool
    var error: string
    /** Whether an `onLoginSuccess` prop was passed. */
    const hasOnLoginSuccess: bool

    constructor(hasOnLoginSuccess: bool)
      ensures formData == map["email" := "", "password" := ""] && !loading && error == ""
      ensures this.hasOnLoginSuccess == hasOnLoginSuccess
    {
      formData := map["email" := "", "password" := ""];
      loading := false;
      error := "";
      this.hasOnLoginSuccess := hasOnLoginSuccess;
    }

    /** `handleInputChange`: one field takes the typed value; the inputs are disabled while loading. */
    method HandleInputChange(name: string, value: string)
      requires !loading
      modifies this
      ensures formData == old(formData)[name := value]
      ensures loading == old(loading) && error == old(error)
    {
      formData := formData[name := value];
    }

    /** `handleSubmit` up to `login`: empty fields are refused with a message
        and nothing starts; otherwise the form data is sent as credentials. */
    method BeginSubmit() returns (credentials: Option<Auth.Credentials>)
      requires !loading
      modifies this
      ensures formData == old(formData)
      ensures !Filled(formData) ==> credentials == None && !loading && error == EmptyFieldsText
      ensures Filled(formData) ==> credentials == Some(formData) && loading && error == ""
    {
      var email := Api.Lookup(formData, "email");
      var password := Api.Lookup(formData, "password");
      if !TruthyText(email) || !TruthyText(password) {
        error := EmptyFieldsText;
        return None;
      }
      loading := true;
      error := "";
      credentials := Some(formData);
    }

    /** The rest of `handleSubmit`; `notified` says whether `onLoginSuccess` ran. */
    method SettleSubmit(attempt: Attempt) returns (notified: bool)
      requires loading
      modifies this
      ensures !loading && formData == old(formData)
      ensures attempt.Resolved? && attempt.result.success ==> notified == hasOnLoginSuccess && error == old(error)
      ensures !(attempt.Resolved? && attempt.result.success) ==> !notified && error == AttemptError(attempt)
    {
      notified := false;
      match attempt {
        case Resolved(result) =>
          if result.success {
            notified := hasOnLoginSuccess;
          } else {
            error := if TruthyText(result.message) then result.message.value else LoginFailedText;
          }
        case Threw(message) =>
          error := message;
      }
      loading := false;
    }
  }

  /** The guard tests truthiness, not `trim()`: fields of spaces are sent. */
  lemma WhitespaceFieldsAreSent()
    ensures Filled(map["email" := " ", "password" := " "])
  {
  }

  /** A submit wired to the provider: since `login` never throws, the catch
      branch is dead; on success the form is cleared of errors and the provider
      holds the user, and otherwise the error line shows the server's message,
      the wrapped transport error, or the default, and the provider's user is unchanged. */
  method SubmitWithProvider(form: LoginFormState, auth: Auth.AuthProvider,
                            reply: Api.Reply<MusicService.Envelope<Auth.LoginData>>)
    returns (notified: bool)
    requires !form.loading && Filled(form.formData)
    modifies form, auth, auth.storage
    ensures !form.loading
    ensures Auth.Confirms(reply) ==> notified == form.hasOnLoginSuccess && form.error == ""
    ensures Auth.Confirms(reply) ==> auth.user == Some(reply.data.data.user)
    ensures !Auth.Confirms(reply) ==> !notified && auth.user == old(auth.user)
    ensures reply.Response? && !reply.data.success ==>
      form.error == (if TruthyText(reply.data.message) then reply.data.message.value else LoginFailedText)
    ensures reply.Failure? ==>
      form.error == MusicService.ErrorPrefix(MusicService.Login(old(form.formData))) + ": " + reply.error.message
  {
    var credentials := form.BeginSubmit();
    var result := auth.Login(credentials.value, reply);
    notified := form.SettleSubmit(Resolved(result));
  }
}
