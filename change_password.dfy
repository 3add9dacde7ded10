/**
  The password-reset screen (app/ChangePassword.jsx), a two-phase flow: first a reset token is
  requested for an e-mail address, then the token and a new password are confirmed. Its
  `getPasswordError` and `validatePassword` are the ones of the registration screen, modelled
  once in Validators. The request to the server is an awaited call whose ending is a parameter.
*/
module ChangePassword {
  import opened Wrappers
  import opened Text
  import opened Validators
  import opened Checks

  const EmailRequired := "Por favor, ingrese su email"
  const TokenRequired := "Por favor, ingrese el token recibido"
  const RequestFailed := "No se pudo enviar el token. Por favor, intente nuevamente."
  const ResetFailed := "No se pudo cambiar la contraseña. Por favor, intente nuevamente."
  const TokenSentAlert :=
    Alert("Éxito", "Se ha enviado un email con las instrucciones para restablecer la contraseña")

  /** The one check of `handleRequestToken`: the e-mail, once trimmed, is not empty. */
  function RequestTokenError(email: string): (r: string)
    ensures r == "" <==> exists i :: 0 <= i < |email| && !IsSpace(email[i])
    ensures r != "" ==> r == EmailRequired
  {
    BlankIffAllSpace(email);
    if IsBlank(email) then EmailRequired else ""
  }

  /** The checks of `handleResetPassword`, in the order it runs them: the token first, then the
      strength of the new password. */
  function ResetChecks(token: string, newPassword: string): (cs: seq<Check>)
    ensures forall j :: 0 <= j < |cs| && !cs[j].ok ==> cs[j].message != ""
  {
    var pe := GetPasswordError(newPassword);
    [Check(!IsBlank(token), TokenRequired), Check(pe == "", pe)]
  }

  /** The message the validation part of `handleResetPassword` leaves in the error. */
  function ResetError(token: string, newPassword: string): (r: string)
    ensures r == "" <==> !IsBlank(token) && forall rule :: Holds(rule, newPassword)
    ensures IsBlank(token) ==> r == TokenRequired
  {
    if IsBlank(token) then TokenRequired else GetPasswordError(newPassword)
  }

  /** A blank token is reported before a weak password, and the error is the first failing
      check of the two. */
  lemma ResetErrorIsFirstFailure(token: string, newPassword: string)
    ensures ResetError(token, newPassword) == FirstFailure(ResetChecks(token, newPassword))
  {
    var cs := ResetChecks(token, newPassword);
    assert cs == [cs[0]] + [cs[1]];
    assert FirstFailure([]) == "";
    FirstFailureCons(cs[1], []);
    assert [cs[1]] + [] == [cs[1]];
    FirstFailureCons(cs[0], [cs[1]]);
  }

  /** The body posted to `/auth/password/reset-confirm`. */
  datatype ResetConfirm = ResetConfirm(token: string, newPassword: string)

  class Screen {
    var email: string
    var token: string
    var newPassword: string
    var isTokenSent: bool
    var error: string
    var isLoading: bool
    var showSuccessModal: bool
    /** The dialog on screen, if any. */
    var alert: Option<Alert>
    /** The `email` bodies posted to `/auth/password/reset-request`, oldest first. */
    var tokenRequests: seq<string>
    /** The bodies posted to `/auth/password/reset-confirm`, oldest first. */
    var resetRequests: seq<ResetConfirm>

    constructor()
      ensures email == "" && token == "" && newPassword == "" && error == ""
      ensures !isTokenSent && !isLoading && !showSuccessModal && alert == None
      ensures tokenRequests == [] && resetRequests == []
    {
      email, token, newPassword, error := "", "", "", "";
      isTokenSent, isLoading, showSuccessModal, alert := false, false, false, None;
      tokenRequests, resetRequests := [], [];
    }

    /** `handleRequestToken`, given how the request ends. The e-mail is posted as typed, not
        trimmed; the token counts as sent only once the request succeeds; `finally` clears the
        loading flag on every path, the early return included. */
    method HandleRequestToken(response: Outcome<()>)
      modifies this
      ensures email == old(email) && token == old(token) && newPassword == old(newPassword)
      ensures showSuccessModal == old(showSuccessModal) && resetRequests == old(resetRequests)
      ensures !isLoading
      ensures RequestTokenError(email) != "" ==>
                && error == RequestTokenError(email) && tokenRequests == old(tokenRequests)
                && isTokenSent == old(isTokenSent) && alert == old(alert)
      ensures RequestTokenError(email) == "" ==> tokenRequests == old(tokenRequests) + [email]
      ensures RequestTokenError(email) == "" && response.Done? ==>
                isTokenSent && error == "" && alert == Some(TokenSentAlert)
      ensures RequestTokenError(email) == "" && response.Threw? ==>
                isTokenSent == old(isTokenSent) && error == RequestFailed && alert == old(alert)
    {
      error := "";
      var problem := RequestTokenError(email);
      if problem != "" {
        error := problem;
      } else {
        isLoading := true;
        tokenRequests := tokenRequests + [email];
        if response.Done? {
          isTokenSent := true;
          alert := Some(TokenSentAlert);
        } else {
          error := RequestFailed;
        }
      }
      isLoading := false;
    }

    /** `handleResetPassword`, given how the request ends. Nothing is posted unless the token
        is filled in and the new password keeps every rule; the success dialog opens only once
        the request succeeds; the loading flag ends cleared. */
    method HandleResetPassword(response: Outcome<()>)
      modifies this
      ensures email == old(email) && token == old(token) && newPassword == old(newPassword)
      ensures isTokenSent == old(isTokenSent) && tokenRequests == old(tokenRequests)
      ensures alert == old(alert) && !isLoading
      ensures ResetError(token, newPassword) != "" ==>
                && error == ResetError(token, newPassword) && resetRequests == old(resetRequests)
                && showSuccessModal == old(showSuccessModal)
      ensures ResetError(token, newPassword) == "" ==>
                resetRequests == old(resetRequests) + [ResetConfirm(token, newPassword)]
      ensures ResetError(token, newPassword) == "" && response.Done? ==> showSuccessModal && error == ""
      ensures ResetError(token, newPassword) == "" && response.Threw? ==>
                showSuccessModal == old(showSuccessModal) && error == ResetFailed
    {
      error := "";
      var problem := ResetError(token, newPassword);
      if problem != "" {
        error := problem;
      } else {
        isLoading := true;
        resetRequests := resetRequests + [ResetConfirm(token, newPassword)];
        if response.Done? {
          showSuccessModal := true;
        } else {
          error := ResetFailed;
        }
      }
      isLoading := false;
    }

    /** `handleSuccessModalClose`: the dialog closes (and the screen navigates back). */
    method HandleSuccessModalClose()
      modifies this
      ensures !showSuccessModal
      ensures email == old(email) && token == old(token) && newPassword == old(newPassword)
      ensures isTokenSent == old(isTokenSent) && error == old(error) && isLoading == old(isLoading)
      ensures alert == old(alert) && tokenRequests == old(tokenRequests) && resetRequests == old(resetRequests)
    {
      showSuccessModal := false;
    }

    /** The three text inputs: each stores the new text and clears the error. */
    method HandleEmailChange(text: string)
      modifies this
      ensures email == text && error == ""
      ensures token == old(token) && newPassword == old(newPassword) && isTokenSent == old(isTokenSent)
      ensures isLoading == old(isLoading) && showSuccessModal == old(showSuccessModal) && alert == old(alert)
      ensures tokenRequests == old(tokenRequests) && resetRequests == old(resetRequests)
    {
      email, error := text, "";
    }

    method HandleTokenChange(text: string)
      modifies this
      ensures token == text && error == ""
      ensures email == old(email) && newPassword == old(newPassword) && isTokenSent == old(isTokenSent)
      ensures isLoading == old(isLoading) && showSuccessModal == old(showSuccessModal) && alert == old(alert)
      ensures tokenRequests == old(tokenRequests) && resetRequests == old(resetRequests)
    {
      token, error := text, "";
    }

    method HandleNewPasswordChange(text: string)
      modifies this
      ensures newPassword == text && error == ""
      ensures email == old(email) && token == old(token) && isTokenSent == old(isTokenSent)
      ensures isLoading == old(isLoading) && showSuccessModal == old(showSuccessModal) && alert == old(alert)
      ensures tokenRequests == old(tokenRequests) && resetRequests == old(resetRequests)
    {
      newPassword, error := text, "";
    }
  }
}
