/**
  The sign-in screen (app/Login.jsx): the ordered checks of `handleSubmit`, the token and
  remembered e-mail it writes to device storage, the record it stores in the session, the
  mapping of a failed request to a message, loading the remembered e-mail, and the handlers
  that clear the error while the user types. Device storage is a field holding the stored keys;
  every write to it is taken to succeed. The awaited request is a parameter.
*/
module Login {
  import opened Wrappers
  import opened Text
  import opened JsObject
  import opened Validators
  import opened Checks
  import AuthReducer

  const EmailInvalid := "Por favor, ingrese un email válido"
  const PasswordRequired := "Por favor, ingrese su contraseña"
  const BadCredentials := "Combinación de email/password errónea"
  const NoServer := "No es posible conectarse con el servidor"

  const AccessTokenKey := "accessToken"
  const RememberedEmailKey := "rememberedEmail"

  /** The checks of `handleSubmit`, in order: the e-mail's format, then a password that is not
      blank once trimmed. */
  function LoginChecks(email: string, password: string): (cs: seq<Check>)
    ensures forall j :: 0 <= j < |cs| && !cs[j].ok ==> cs[j].message != ""
  {
    [Check(ValidateEmail(email), EmailInvalid), Check(!IsBlank(password), PasswordRequired)]
  }

  /** The message the validation part of `handleSubmit` leaves in the error; '' lets the
      request go out. */
  function LoginError(email: string, password: string): (r: string)
    ensures r == "" <==> EmailPattern(email) && exists i :: 0 <= i < |password| && !IsSpace(password[i])
    ensures !EmailPattern(email) ==> r == EmailInvalid
    ensures EmailPattern(email) && r != "" ==> r == PasswordRequired
  {
    BlankIffAllSpace(password);
    if !ValidateEmail(email) then EmailInvalid
    else if IsBlank(password) then PasswordRequired
    else ""
  }

  /** The e-mail is checked before the password, and the error is the first failing check. */
  lemma LoginErrorIsFirstFailure(email: string, password: string)
    ensures LoginError(email, password) == FirstFailure(LoginChecks(email, password))
  {
    var cs := LoginChecks(email, password);
    assert cs == [cs[0]] + [cs[1]];
    assert FirstFailure([]) == "";
    FirstFailureCons(cs[1], []);
    assert [cs[1]] + [] == [cs[1]];
    FirstFailureCons(cs[0], [cs[1]]);
  }

  /** The `catch` block: credentials the server refused, or anything else. */
  function ErrorMessage(m: string): (r: string)
    ensures r == BadCredentials <==> Contains(m, "Error en la petici")
    ensures r == BadCredentials || r == NoServer
  {
    if Contains(m, "Error en la petici") then BadCredentials else NoServer
  }

  /** The body posted to `/auth/login`: e-mail and password as typed. */
  datatype Credentials = Credentials(email: string, password: string)

  /** `AsyncStorage.setItem('accessToken', token)`, when the response carries a token. */
  function SaveToken(storage: Entries<string>, data: AuthReducer.User): (r: Entries<string>)
    ensures Get(r, AccessTokenKey) == if Has(data, "token") then Get(data, "token") else Get(storage, AccessTokenKey)
    ensures forall k :: k != AccessTokenKey ==> Get(r, k) == Get(storage, k)
  {
    match Get(data, "token")
    case Some(t) => Set(storage, AccessTokenKey, t)
    case None => storage
  }

  /** The remember-me decision after a successful sign-in: store the e-mail, or remove it. */
  function Remember(storage: Entries<string>, email: string, rememberMe: bool): (r: Entries<string>)
    ensures Get(r, RememberedEmailKey) == if rememberMe then Some(email) else None
    ensures forall k :: k != RememberedEmailKey ==> Get(r, k) == Get(storage, k)
  {
    if rememberMe then Set(storage, RememberedEmailKey, email) else Delete(storage, RememberedEmailKey)
  }

  /** What `loadRememberedEmail` takes from storage: the remembered e-mail when it is truthy. */
  function Remembered(storage: Entries<string>): (r: Option<string>)
    ensures r.Some? ==> Get(storage, RememberedEmailKey) == r && r.value != ""
    ensures r.None? ==> Get(storage, RememberedEmailKey) in {None, Some("")}
  {
    match Get(storage, RememberedEmailKey)
    case Some(e) => if e != "" then Some(e) else None
    case None => None
  }

  /** The remember-me round trip: the next load finds the e-mail exactly when the switch was on
      at sign-in (a well-formed e-mail is never empty), and the stored token is left alone. */
  lemma RememberRoundTrip(storage: Entries<string>, email: string, rememberMe: bool)
    requires EmailPattern(email)
    ensures Remembered(Remember(storage, email, rememberMe)) == if rememberMe then Some(email) else None
    ensures Get(Remember(storage, email, rememberMe), AccessTokenKey) == Get(storage, AccessTokenKey)
  {
    var i, j :| 0 < i && i + 1 < j && j + 1 < |email| && email[i] == '@' && email[j] == '.'
                && PlainRange(email, 0, i) && PlainRange(email, i + 1, j) && PlainRange(email, j + 1, |email|);
    assert email != "";
  }

  class Screen {
    var email: string
    var password: string
    var rememberMe: bool
    var error: string
    /** The keys the screen has written to device storage. */
    var storage: Entries<string>
    /** The bodies posted to `/auth/login`, oldest first. */
    var requests: seq<Credentials>
    /** The record dispatched with `loginSuccess`. */
    var session: Option<AuthReducer.User>

    /** The screen mounts with empty fields over whatever storage already holds. */
    constructor(stored: Entries<string>)
      ensures email == "" && password == "" && !rememberMe && error == ""
      ensures storage == stored && requests == [] && session == None
    {
      email, password, rememberMe, error := "", "", false, "";
      storage, requests, session := stored, [], None;
    }

    /** `handleSubmit`, given how the request to `/auth/login` ends. */
    method HandleSubmit(response: Outcome<AuthReducer.User>)
      modifies this
      ensures email == old(email) && password == old(password) && rememberMe == old(rememberMe)
      ensures LoginError(email, password) != "" ==>
                && error == LoginError(email, password) && requests == old(requests)
                && storage == old(storage) && session == old(session)
      ensures LoginError(email, password) == "" ==>
                requests == old(requests) + [Credentials(email, password)]
      ensures LoginError(email, password) == "" && response.Done? ==>
                && error == ""
                && storage == Remember(SaveToken(old(storage), response.value), email, rememberMe)
                && session == Some(MoveLast(response.value, "token"))
      ensures LoginError(email, password) == "" && response.Threw? ==>
                && error == ErrorMessage(response.message)
                && storage == old(storage) && session == old(session)
    {
      error := "";
      var problem := LoginError(email, password);
      if problem != "" {
        error := problem;
        return;
      }
      requests := requests + [Credentials(email, password)];
      if response.Done? {
        var data := response.value;
        storage := SaveToken(storage, data);
        storage := Remember(storage, email, rememberMe);
        session := Some(MoveLast(data, "token"));
      } else {
        error := ErrorMessage(response.message);
      }
    }

    /** `loadRememberedEmail`: a truthy remembered e-mail fills the field and turns the switch
        on; otherwise nothing changes. */
    method LoadRememberedEmail()
      modifies this
      ensures Remembered(storage).Some? ==> email == Remembered(storage).value && rememberMe
      ensures Remembered(storage).None? ==> email == old(email) && rememberMe == old(rememberMe)
      ensures storage == old(storage) && password == old(password) && error == old(error)
      ensures requests == old(requests) && session == old(session)
    {
      var r := Remembered(storage);
      if r.Some? {
        email := r.value;
        rememberMe := true;
      }
    }

    /** `handleEmailChange`: clears only the e-mail format message. */
    method HandleEmailChange(text: string)
      modifies this
      ensures email == text && error == if old(error) == EmailInvalid then "" else old(error)
      ensures password == old(password) && rememberMe == old(rememberMe) && storage == old(storage)
      ensures requests == old(requests) && session == old(session)
    {
      email := text;
      if error == EmailInvalid {
        error := "";
      }
    }

    /** `handlePasswordChange`: clears only the missing-password message. */
    method HandlePasswordChange(text: string)
      modifies this
      ensures password == text && error == if old(error) == PasswordRequired then "" else old(error)
      ensures email == old(email) && rememberMe == old(rememberMe) && storage == old(storage)
      ensures requests == old(requests) && session == old(session)
    {
      password := text;
      if error == PasswordRequired {
        error := "";
      }
    }

    /** `handleRememberMeChange`: turning the switch off forgets the remembered e-mail at once. */
    method HandleRememberMeChange(value: bool)
      modifies this
      ensures rememberMe == value
      ensures storage == if value then old(storage) else Delete(old(storage), RememberedEmailKey)
      ensures email == old(email) && password == old(password) && error == old(error)
      ensures requests == old(requests) && session == old(session)
    {
      rememberMe := value;
      if !value {
        storage := Delete(storage, RememberedEmailKey);
      }
    }
  }
}
