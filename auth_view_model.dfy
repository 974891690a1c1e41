/** `AuthViewModel`: the login form and the registration form, each with its
    own fields and status; a completed login or registration hands control
    back to the screen through a callback, modelled as a returned value. */
module AuthViewModel {
  import opened Common

  datatype AuthUiState = AuthUiState(
    nombre: string, contrasena: string, loading: bool, error: Option<string>,
    idUsuario: Option<int>, esAdmin: bool)

  datatype RegisterUiState = RegisterUiState(
    nombre: string, correo: string, contrasena: string, loading: bool, error: Option<string>, success: bool)

  /** The backend's answer to a login. */
  datatype LoginResponse = LoginResponse(idUsuario: int, esAdmin: bool)

  /** The credentials a login sends. */
  datatype LoginRequest = LoginRequest(nombre: string, contrasena: string)

  /** The data a registration sends. */
  datatype RegisterRequest = RegisterRequest(nombre: string, correo: string, contrasena: string)

  const DefaultLogin: AuthUiState := AuthUiState("", "", false, None, None, false)
  const DefaultRegister: RegisterUiState := RegisterUiState("", "", "", false, None, false)
  const UnknownError: string := "Error desconocido"

  /** What `login` sends from a login form: nothing while a login is running,
      otherwise the credentials as typed. */
  function LoginRequestFor(st: AuthUiState): (r: Option<LoginRequest>)
    ensures r.None? <==> st.loading
    ensures r.Some? ==> r.value.nombre == st.nombre && r.value.contrasena == st.contrasena
  {
    if st.loading then None else Some(LoginRequest(st.nombre, st.contrasena))
  }

  /** What `register` sends from a registration form: nothing while a
      registration is running, otherwise the three fields as typed. */
  function RegisterRequestFor(st: RegisterUiState): (r: Option<RegisterRequest>)
    ensures r.None? <==> st.loading
    ensures r.Some? ==> r.value.nombre == st.nombre && r.value.correo == st.correo
                        && r.value.contrasena == st.contrasena
  {
    if st.loading then None else Some(RegisterRequest(st.nombre, st.correo, st.contrasena))
  }

  /** One request at a time: once a login or a registration has started, a
      second tap sends nothing until the first one completes, and editing a
      field in between does not change that. */
  lemma OneRequestAtATime(l: AuthUiState, g: RegisterUiState, nombre: string)
    ensures LoginRequestFor(l.(loading := true, error := None)).None?
    ensures LoginRequestFor(l.(loading := true, error := None).(nombre := nombre, error := None)).None?
    ensures RegisterRequestFor(g.(loading := true, error := None)).None?
    ensures RegisterRequestFor(g.(loading := true, error := None).(nombre := nombre, error := None)).None?
  {
  }

  class AuthViewModel {
    var loginState: AuthUiState
    var registerState: RegisterUiState

    constructor ()
      ensures loginState == DefaultLogin && registerState == DefaultRegister
    {
      loginState := DefaultLogin;
      registerState := DefaultRegister;
    }

    /** `onLoginNombreChange`: the login error is cleared. */
    method OnLoginNombreChange(value: string)
      modifies this`loginState
      ensures loginState == old(loginState).(nombre := value, error := None)
    {
      loginState := loginState.(nombre := value, error := None);
    }

    /** `onLoginContrasenaChange`. */
    method OnLoginContrasenaChange(value: string)
      modifies this`loginState
      ensures loginState == old(loginState).(contrasena := value, error := None)
    {
      loginState := loginState.(contrasena := value, error := None);
    }

    /** The start of `login`: ignored while a login is running; otherwise the
        typed credentials go out. */
    method Login() returns (sent: Option<LoginRequest>)
      modifies this`loginState
      ensures sent == LoginRequestFor(old(loginState))
      ensures old(loginState).loading ==> loginState == old(loginState)
      ensures !old(loginState).loading ==> loginState == old(loginState).(loading := true, error := None)
    {
      if loginState.loading {
        sent := None;
      } else {
        loginState := loginState.(loading := true, error := None);
        sent := Some(LoginRequest(loginState.nombre, loginState.contrasena));
      }
    }

    /** The end of `login`: the user's id and role are kept and the callback
        is called with the role (`onSuccess` is Some(esAdmin)); a failure
        shows its message and calls nothing. */
    method CompleteLogin(r: Result<LoginResponse>) returns (onSuccess: Option<bool>)
      modifies this`loginState
      ensures r.Ok? ==> loginState == old(loginState).(loading := false, idUsuario := Some(r.value.idUsuario),
                                                        esAdmin := r.value.esAdmin)
                        && onSuccess == Some(r.value.esAdmin)
      ensures r.Err? ==> loginState == old(loginState).(loading := false, error := Some(r.message.GetOr(UnknownError)))
                         && onSuccess.None?
      ensures onSuccess.Some? ==> onSuccess.value == loginState.esAdmin && !loginState.loading
    {
      if r.Ok? {
        loginState := loginState.(loading := false, idUsuario := Some(r.value.idUsuario), esAdmin := r.value.esAdmin);
        onSuccess := Some(r.value.esAdmin);
      } else {
        loginState := loginState.(loading := false, error := Some(r.message.GetOr(UnknownError)));
        onSuccess := None;
      }
    }

    /** `onRegisterNombreChange`: the registration error is cleared. */
    method OnRegisterNombreChange(value: string)
      modifies this`registerState
      ensures registerState == old(registerState).(nombre := value, error := None)
    {
      registerState := registerState.(nombre := value, error := None);
    }

    /** `onRegisterCorreoChange`. */
    method OnRegisterCorreoChange(value: string)
      modifies this`registerState
      ensures registerState == old(registerState).(correo := value, error := None)
    {
      registerState := registerState.(correo := value, error := None);
    }

    /** `onRegisterContrasenaChange`. */
    method OnRegisterContrasenaChange(value: string)
      modifies this`registerState
      ensures registerState == old(registerState).(contrasena := value, error := None)
    {
      registerState := registerState.(contrasena := value, error := None);
    }

    /** The start of `register`: ignored while a registration is running. */
    method Register() returns (sent: Option<RegisterRequest>)
      modifies this`registerState
      ensures sent == RegisterRequestFor(old(registerState))
      ensures old(registerState).loading ==> registerState == old(registerState)
      ensures !old(registerState).loading ==> registerState == old(registerState).(loading := true, error := None)
    {
      if registerState.loading {
        sent := None;
      } else {
        registerState := registerState.(loading := true, error := None);
        sent := Some(RegisterRequest(registerState.nombre, registerState.correo, registerState.contrasena));
      }
    }

    /** The end of `register`: success is flagged before the callback runs
        (`onSuccess`); a failure shows its message and calls nothing. */
    method CompleteRegister(r: Result<()>) returns (onSuccess: bool)
      modifies this`registerState
      ensures r.Ok? ==> registerState == old(registerState).(loading := false, success := true) && onSuccess
      ensures r.Err? ==> registerState == old(registerState).(loading := false, error := Some(r.message.GetOr(UnknownError)))
                         && !onSuccess
    {
      if r.Ok? {
        registerState := registerState.(loading := false, success := true);
        onSuccess := true;
      } else {
        registerState := registerState.(loading := false, error := Some(r.message.GetOr(UnknownError)));
        onSuccess := false;
      }
    }
  }
}
