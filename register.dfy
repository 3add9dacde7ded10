/**
  The registration screen (app/Register.jsx): the form's state, the ordered checks of
  `handleSubmit`, the request body it sends, the user record it stores on success, the
  mapping of a failed request to a message, and the handlers that clear the error while the
  user types. The e-mail availability check, its 500 ms debounce, and the copies written to
  device storage are not part of this model.
*/
module Register {
  import opened Wrappers
  import opened Text
  import opened JsObject
  import opened Validators
  import opened Checks
  import AuthReducer

  const EmailInvalid := "Por favor, ingrese un email válido"
  const NameRequired := "Por favor, ingrese su nombre"
  const SurnameRequired := "Por favor, ingrese su apellido"
  const AddressRequired := "Por favor, ingrese su dirección"
  const PhoneRequired := "Por favor, ingrese su teléfono"

  const NetworkFailed := "Network request failed"
  const ConnectionHelp :=
    "No se pudo conectar con el servidor.\n\nVerifica que:\n• El servidor esté corriendo\n"
    + "• Tengas conexión a internet\n• La configuración de la API sea correcta"
  const AlreadyRegistered := "El email ya está registrado"
  const TookTooLong := "La petición tardó demasiado tiempo. Intenta nuevamente."

  /** The six text fields of the form. */
  datatype Form = Form(
    email: string, password: string, name: string, surname: string, address: string, phoneNumber: string)

  /** The checks of `handleSubmit`, in the order it runs them. */
  function FormChecks(f: Form): (cs: seq<Check>)
    ensures forall j :: 0 <= j < |cs| && !cs[j].ok ==> cs[j].message != ""
  {
    var pe := GetPasswordError(f.password);
    [ Check(ValidateEmail(f.email), EmailInvalid),
      Check(pe == "", pe),
      Check(!IsBlank(f.name), NameRequired),
      Check(!IsBlank(f.surname), SurnameRequired),
      Check(!IsBlank(f.address), AddressRequired),
      Check(!IsBlank(f.phoneNumber), PhoneRequired) ]
  }

  /** The validation part of `handleSubmit`: the message it puts in the error, '' when every
      check passes and the request goes out. */
  function FormError(f: Form): string {
    if !ValidateEmail(f.email) then EmailInvalid
    else if GetPasswordError(f.password) != "" then GetPasswordError(f.password)
    else if IsBlank(f.name) then NameRequired
    else if IsBlank(f.surname) then SurnameRequired
    else if IsBlank(f.address) then AddressRequired
    else if IsBlank(f.phoneNumber) then PhoneRequired
    else ""
  }

  /** The handler reports the first failing check in the order e-mail, password, name, surname,
      address, phone, and reports nothing exactly when all pass. */
  lemma FormErrorIsFirstFailure(f: Form)
    ensures FormError(f) == FirstFailure(FormChecks(f))
    ensures FormError(f) == "" <==> forall j :: 0 <= j < |FormChecks(f)| ==> FormChecks(f)[j].ok
  {
    var cs := FormChecks(f);
    assert cs == [cs[0]] + ([cs[1]] + ([cs[2]] + ([cs[3]] + ([cs[4]] + [cs[5]]))));
    assert FirstFailure([]) == "";
    FirstFailureCons(cs[5], []);
    assert [cs[5]] + [] == [cs[5]];
    FirstFailureCons(cs[4], [cs[5]]);
    FirstFailureCons(cs[3], [cs[4]] + [cs[5]]);
    FirstFailureCons(cs[2], [cs[3]] + ([cs[4]] + [cs[5]]));
    FirstFailureCons(cs[1], [cs[2]] + ([cs[3]] + ([cs[4]] + [cs[5]])));
    FirstFailureCons(cs[0], [cs[1]] + ([cs[2]] + ([cs[3]] + ([cs[4]] + [cs[5]]))));
  }

  /** The body posted to `/auth/register`. */
  datatype RegistrationData = RegistrationData(
    email: string, password: string, nombre: string, apellido: string, telefono: string, direccion: string)

  /** `registrationData`: the password as typed, every other field trimmed. */
  function MakeRegistrationData(f: Form): (d: RegistrationData)
    ensures d.password == f.password
    ensures d.email == Trim(f.email) && d.nombre == Trim(f.name) && d.apellido == Trim(f.surname)
    ensures d.telefono == Trim(f.phoneNumber) && d.direccion == Trim(f.address)
    ensures IsTrimmed(d.email) && IsTrimmed(d.nombre) && IsTrimmed(d.apellido)
    ensures IsTrimmed(d.telefono) && IsTrimmed(d.direccion)
    ensures IsBlank(f.name) <==> d.nombre == ""
  {
    RegistrationData(Trim(f.email), f.password, Trim(f.name), Trim(f.surname),
                     Trim(f.phoneNumber), Trim(f.address))
  }

  /** `completeUserData`: the response without its token, the token, then the trimmed form
      fields (not the password), assigned in that order. */
  function CompleteUserData(response: AuthReducer.User, d: RegistrationData): AuthReducer.User {
    var u0 := MoveLast(response, "token");
    var u1 := Set(u0, "email", d.email);
    var u2 := Set(u1, "nombre", d.nombre);
    var u3 := Set(u2, "apellido", d.apellido);
    var u4 := Set(u3, "telefono", d.telefono);
    Set(u4, "direccion", d.direccion)
  }

  /** The keys `completeUserData` assigns from the form. */
  predicate FormKey(k: string) {
    k == "email" || k == "nombre" || k == "apellido" || k == "telefono" || k == "direccion"
  }

  /** In the stored record the form's values win over same-named response fields... */
  lemma CompleteUserDataPrefersForm(response: AuthReducer.User, d: RegistrationData)
    ensures var u := CompleteUserData(response, d);
            && Get(u, "email") == Some(d.email) && Get(u, "nombre") == Some(d.nombre)
            && Get(u, "apellido") == Some(d.apellido) && Get(u, "telefono") == Some(d.telefono)
            && Get(u, "direccion") == Some(d.direccion)
  {
    var u0 := MoveLast(response, "token");
    var u1 := Set(u0, "email", d.email);
    var u2 := Set(u1, "nombre", d.nombre);
    var u3 := Set(u2, "apellido", d.apellido);
    var u4 := Set(u3, "telefono", d.telefono);
    var u5 := Set(u4, "direccion", d.direccion);
    assert "email" != "nombre" && "email" != "apellido" && "email" != "telefono" && "email" != "direccion";
    assert "nombre" != "apellido" && "nombre" != "telefono" && "nombre" != "direccion";
    assert "apellido" != "telefono" && "apellido" != "direccion" && "telefono" != "direccion";
    assert Get(u5, "email") == Get(u1, "email");
    assert Get(u5, "nombre") == Get(u2, "nombre");
    assert Get(u5, "apellido") == Get(u3, "apellido");
    assert Get(u5, "telefono") == Get(u4, "telefono");
  }

  /** ...and every other field, the token and any password the server sent included, is the
      response's. */
  lemma CompleteUserDataKeepsResponse(response: AuthReducer.User, d: RegistrationData, k: string)
    requires !FormKey(k)
    ensures Get(CompleteUserData(response, d), k) == Get(response, k)
  {
    var u0 := MoveLast(response, "token");
    var u1 := Set(u0, "email", d.email);
    var u2 := Set(u1, "nombre", d.nombre);
    var u3 := Set(u2, "apellido", d.apellido);
    var u4 := Set(u3, "telefono", d.telefono);
    assert Get(u4, k) == Get(u0, k);
  }

  /** The `catch` block: the message shown for a failed registration request. */
  function ErrorMessage(m: string): (r: string)
    ensures m == NetworkFailed ==> r == ConnectionHelp
    ensures m != NetworkFailed && Contains(m, "Error en la petici") ==> r == AlreadyRegistered
    ensures m != NetworkFailed && !Contains(m, "Error en la petici") && Contains(m, "timeout") ==> r == TookTooLong
    ensures m != NetworkFailed && !Contains(m, "Error en la petici") && !Contains(m, "timeout") ==> r == "Error: " + m
  {
    if m == NetworkFailed then ConnectionHelp
    else if Contains(m, "Error en la petici") then AlreadyRegistered
    else if Contains(m, "timeout") then TookTooLong
    else "Error: " + m
  }

  /** Typing a password clears the two password messages that mention 'contraseña' (empty, too
      short)... */
  lemma PasswordEditClearsLengthMessages()
    ensures Contains(Message(Required), PasswordWord) && Contains(Message(MinLength), PasswordWord)
  {
    ContainsInfix("La ", PasswordWord, " es requerida");
    ContainsInfix("La ", PasswordWord, " debe tener al menos 8 caracteres");
  }

  /** ...but none of the four character-class messages and no other message of the form. */
  lemma PasswordEditKeepsOtherMessages()
    ensures !Contains(Message(Uppercase), PasswordWord) && !Contains(Message(Lowercase), PasswordWord)
    ensures !Contains(Message(Digit), PasswordWord) && !Contains(Message(Symbol), PasswordWord)
    ensures !Contains(EmailInvalid, PasswordWord) && !Contains(NameRequired, PasswordWord)
  {
    var msgs := [Message(Uppercase), Message(Lowercase), Message(Digit), Message(Symbol), EmailInvalid, NameRequired];
    assert msgs == ["Debe contener al menos una letra mayúscula", "Debe contener al menos una letra minúscula",
                    "Debe contener al menos un número", "Debe contener al menos un carácter especial (@$!%*?&)",
                    "Por favor, ingrese un email válido", "Por favor, ingrese su nombre"];
    forall i | 0 <= i < |msgs| ensures !Contains(msgs[i], PasswordWord) {
      NotContainsWithoutChar(msgs[i], PasswordWord, 'ñ');
    }
    assert !Contains(msgs[0], PasswordWord) && !Contains(msgs[1], PasswordWord);
    assert !Contains(msgs[2], PasswordWord) && !Contains(msgs[3], PasswordWord);
    assert !Contains(msgs[4], PasswordWord) && !Contains(msgs[5], PasswordWord);
  }

  class Screen {
    var email: string
    var password: string
    var name: string
    var surname: string
    var address: string
    var phoneNumber: string
    var error: string
    /** Bodies posted to `/auth/register`, oldest first. */
    var requests: seq<RegistrationData>
    /** The record dispatched with `loginSuccess` after a successful registration. */
    var session: Option<AuthReducer.User>

    constructor()
      ensures email == "" && password == "" && name == "" && surname == "" && address == ""
      ensures phoneNumber == "" && error == "" && requests == [] && session == None
    {
      email, password, name, surname, address, phoneNumber := "", "", "", "", "", "";
      error, requests, session := "", [], None;
    }

    function CurrentForm(): Form
      reads this
    {
      Form(email, password, name, surname, address, phoneNumber)
    }

    /** `handleSubmit`, given how the request to `/auth/register` ends. */
    method HandleSubmit(response: Outcome<AuthReducer.User>)
      modifies this
      ensures CurrentForm() == old(CurrentForm())
      ensures var f := old(CurrentForm());
              && (FormError(f) != "" ==> error == FormError(f) && requests == old(requests) && session == old(session))
              && (FormError(f) == "" ==> requests == old(requests) + [MakeRegistrationData(f)])
              && (FormError(f) == "" && response.Done? ==>
                    error == "" && session == Some(CompleteUserData(response.value, MakeRegistrationData(f))))
              && (FormError(f) == "" && response.Threw? ==>
                    error == ErrorMessage(response.message) && session == old(session))
    {
      var f := CurrentForm();
      error := "";
      var problem := FormError(f);
      if problem != "" {
        error := problem;
        return;
      }
      var body := MakeRegistrationData(f);
      requests := requests + [body];
      if response.Done? {
        session := Some(CompleteUserData(response.value, body));
      } else {
        error := ErrorMessage(response.message);
      }
    }

    /** `handleEmailChange`: the new text, and the error cleared. */
    method HandleEmailChange(text: string)
      modifies this
      ensures email == text && error == ""
      ensures password == old(password) && name == old(name) && surname == old(surname)
      ensures address == old(address) && phoneNumber == old(phoneNumber)
      ensures requests == old(requests) && session == old(session)
    {
      email := text;
      error := "";
    }

    /** `handlePasswordChange`: clears the error only when it mentions 'contraseña'. */
    method HandlePasswordChange(text: string)
      modifies this
      ensures password == text
      ensures error == if Contains(old(error), PasswordWord) then "" else old(error)
      ensures email == old(email) && name == old(name) && surname == old(surname)
      ensures address == old(address) && phoneNumber == old(phoneNumber)
      ensures requests == old(requests) && session == old(session)
    {
      password := text;
      if error != "" && Contains(error, PasswordWord) {
        error := "";
      }
    }

    /** `handleNameChange`: clears only the missing-name message. */
    method HandleNameChange(text: string)
      modifies this
      ensures name == text && error == if old(error) == NameRequired then "" else old(error)
      ensures email == old(email) && password == old(password) && surname == old(surname)
      ensures address == old(address) && phoneNumber == old(phoneNumber)
      ensures requests == old(requests) && session == old(session)
    {
      name := text;
      if error == NameRequired {
        error := "";
      }
    }

    /** `handleSurnameChange`: clears only the missing-surname message. */
    method HandleSurnameChange(text: string)
      modifies this
      ensures surname == text && error == if old(error) == SurnameRequired then "" else old(error)
      ensures email == old(email) && password == old(password) && name == old(name)
      ensures address == old(address) && phoneNumber == old(phoneNumber)
      ensures requests == old(requests) && session == old(session)
    {
      surname := text;
      if error == SurnameRequired {
        error := "";
      }
    }

    /** `handleAddressChange`: clears only the missing-address message. */
    method HandleAddressChange(text: string)
      modifies this
      ensures address == text && error == if old(error) == AddressRequired then "" else old(error)
      ensures email == old(email) && password == old(password) && name == old(name)
      ensures surname == old(surname) && phoneNumber == old(phoneNumber)
      ensures requests == old(requests) && session == old(session)
    {
      address := text;
      if error == AddressRequired {
        error := "";
      }
    }

    /** `handlePhoneChange`: clears only the missing-phone message. */
    method HandlePhoneChange(text: string)
      modifies this
      ensures phoneNumber == text && error == if old(error) == PhoneRequired then "" else old(error)
      ensures email == old(email) && password == old(password) && name == old(name)
      ensures surname == old(surname) && address == old(address)
      ensures requests == old(requests) && session == old(session)
    {
      phoneNumber := text;
      if error == PhoneRequired {
        error := "";
      }
    }
  }
}
