/** `AdminProfileViewModel`: the administrator's profile form. It calls the
    backend directly, not through `AdminProfileRepository`, so a failed call
    reaches it as the HTTP client's own exception (`Errors.Uncaught` of the
    call's outcome) and the error-body parsing of the repository is not
    applied here. */
module AdminProfileViewModel {
  import opened Common
  import opened Errors
  import opened AdminProfileRepository

  datatype AdminProfileUiState = AdminProfileUiState(
    idUsuario: Option<int>, nombre: string, correo: string, contrasena: string,
    loading: bool, saving: bool, error: Option<string>, success: Option<string>)

  const DefaultState: AdminProfileUiState := AdminProfileUiState(None, "", "", "", false, false, None, None)

  const LoadFailed: string := "Error al cargar perfil de administrador"
  const SaveFailed: string := "Error al actualizar perfil"
  const SaveDone: string := "Datos actualizados correctamente."

  /** The body `saveProfile` sends: the loaded id with the fields as they
      stand, or nothing while no profile has been loaded. */
  function SaveBody(st: AdminProfileUiState): (b: Option<AdminProfileDto>)
    ensures b.None? <==> st.idUsuario.None?
    ensures b.Some? ==> b.value.idUsuario == st.idUsuario.value && b.value.nombre == st.nombre
                        && b.value.correo == st.correo && b.value.contrasena == st.contrasena
  {
    if st.idUsuario.None? then None
    else Some(AdminProfileDto(st.idUsuario.value, st.nombre, st.correo, st.contrasena))
  }

  /** A failed save shows the HTTP client's text ("HTTP <code> <status>"),
      whatever JSON message the server put in its body. */
  lemma ServerBodyNotShown(code: int, statusText: string, body: Option<ErrorBody>)
    ensures Uncaught<AdminProfileDto>(Http(code, statusText, body)).message == Some(HttpExceptionMessage(code, statusText))
  {
  }

  class AdminProfileViewModel {
    var uiState: AdminProfileUiState

    constructor ()
      ensures uiState == DefaultState
    {
      uiState := DefaultState;
    }

    /** The start of `loadProfile(id)`: ignored while a load is running;
        otherwise loading with error and confirmation cleared. */
    method LoadProfile(idUsuario: int) returns (requested: Option<int>)
      modifies this
      ensures old(uiState).loading ==> uiState == old(uiState) && requested.None?
      ensures !old(uiState).loading ==> uiState == old(uiState).(loading := true, error := None, success := None)
                                        && requested == Some(idUsuario)
    {
      if uiState.loading {
        requested := None;
      } else {
        uiState := uiState.(loading := true, error := None, success := None);
        requested := Some(idUsuario);
      }
    }

    /** The end of `loadProfile`: every field from the server, its id
        included; a failure only shows the message. */
    method CompleteLoadProfile(r: Result<AdminProfileDto>)
      modifies this
      ensures r.Ok? ==> uiState == old(uiState).(loading := false, idUsuario := Some(r.value.idUsuario),
                                                  nombre := r.value.nombre, correo := r.value.correo,
                                                  contrasena := r.value.contrasena)
      ensures r.Err? ==> uiState == old(uiState).(loading := false, error := Some(r.message.GetOr(LoadFailed)))
    {
      if r.Ok? {
        uiState := uiState.(loading := false, idUsuario := Some(r.value.idUsuario), nombre := r.value.nombre,
                            correo := r.value.correo, contrasena := r.value.contrasena);
      } else {
        uiState := uiState.(loading := false, error := Some(r.message.GetOr(LoadFailed)));
      }
    }

    /** `onNombreChange`: error and confirmation cleared. */
    method OnNombreChange(value: string)
      modifies this
      ensures uiState == old(uiState).(nombre := value, error := None, success := None)
    {
      uiState := uiState.(nombre := value, error := None, success := None);
    }

    /** `onCorreoChange`. */
    method OnCorreoChange(value: string)
      modifies this
      ensures uiState == old(uiState).(correo := value, error := None, success := None)
    {
      uiState := uiState.(correo := value, error := None, success := None);
    }

    /** `onContrasenaChange`. */
    method OnContrasenaChange(value: string)
      modifies this
      ensures uiState == old(uiState).(contrasena := value, error := None, success := None)
    {
      uiState := uiState.(contrasena := value, error := None, success := None);
    }

    /** The start of `saveProfile`: nothing before a profile is loaded or
        while a save is running; otherwise the form goes out. */
    method SaveProfile() returns (body: Option<AdminProfileDto>)
      modifies this
      ensures old(uiState).idUsuario.None? || old(uiState).saving ==> uiState == old(uiState) && body.None?
      ensures old(uiState).idUsuario.Some? && !old(uiState).saving
              ==> uiState == old(uiState).(saving := true, error := None, success := None)
                  && body == SaveBody(old(uiState)) && body.Some?
    {
      if uiState.idUsuario.None? || uiState.saving {
        body := None;
      } else {
        body := SaveBody(uiState);
        uiState := uiState.(saving := true, error := None, success := None);
      }
    }

    /** The end of `saveProfile`: name, e-mail and password replaced by the
        server's reply (the id is kept) and confirmed; a failure keeps what
        was typed. */
    method CompleteSaveProfile(r: Result<AdminProfileDto>)
      modifies this
      ensures r.Ok? ==> uiState == old(uiState).(saving := false, nombre := r.value.nombre, correo := r.value.correo,
                                                  contrasena := r.value.contrasena, success := Some(SaveDone))
      ensures r.Err? ==> uiState == old(uiState).(saving := false, error := Some(r.message.GetOr(SaveFailed)))
    {
      if r.Ok? {
        uiState := uiState.(saving := false, nombre := r.value.nombre, correo := r.value.correo,
                            contrasena := r.value.contrasena, success := Some(SaveDone));
      } else {
        uiState := uiState.(saving := false, error := Some(r.message.GetOr(SaveFailed)));
      }
    }
  }
}
