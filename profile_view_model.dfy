/** `ProfileViewModel`: the client's profile form (loaded profile, editable
    name, e-mail and new password, save status) and the purchase history,
    two separate pieces of screen state. */
module ProfileViewModel {
  import opened Common
  import opened Text
  import opened ProfileRepository

  datatype ProfileUiState = ProfileUiState(
    loading: bool, error: Option<string>, perfil: Option<PerfilCliente>,
    nombre: string, correo: string, contrasena: string,
    saving: bool, saveError: Option<string>, saveSuccess: bool)

  datatype ProfileComprasState = ProfileComprasState(
    items: seq<CompraPerfil>, page: int, totalPages: int, loading: bool, error: Option<string>)

  const DefaultState: ProfileUiState := ProfileUiState(false, None, None, "", "", "", false, None, false)
  const DefaultCompras: ProfileComprasState := ProfileComprasState([], 1, 1, false, None)

  const UnknownError: string := "Error desconocido"
  const SaveFailed: string := "Error al actualizar el perfil."

  /** What `guardarCambios` asks to save: name and e-mail as they stand, and
      the password only when something was typed (a blank one keeps the old
      password). */
  function SaveRequest(st: ProfileUiState): (b: ActualizarPerfilRequestDto)
    ensures b.nombreUsuario == st.nombre && b.correo == st.correo
    ensures b.contrasena.None? <==> IsBlank(st.contrasena)
    ensures b.contrasena.Some? ==> b.contrasena.value == st.contrasena
  {
    UpdateProfileBody(st.nombre, st.correo, NullIfBlank(st.contrasena))
  }

  /** The form after a profile arrives (from a load or a save): name and
      e-mail from the server, the password field emptied. */
  function WithPerfil(st: ProfileUiState, p: PerfilCliente): (r: ProfileUiState)
    ensures r.perfil == Some(p) && r.nombre == p.nombreUsuario && r.correo == p.correo && r.contrasena == ""
    ensures r.loading == st.loading && r.error == st.error
    ensures r.saving == st.saving && r.saveError == st.saveError && r.saveSuccess == st.saveSuccess
  {
    st.(perfil := Some(p), nombre := p.nombreUsuario, correo := p.correo, contrasena := "")
  }

  /** Saving a freshly shown profile sends it back unchanged and never a
      password. */
  lemma SaveAfterLoadKeepsPassword(st: ProfileUiState, p: PerfilCliente)
    ensures SaveRequest(WithPerfil(st, p)) == ActualizarPerfilRequestDto(p.nombreUsuario, p.correo, None)
  {
  }

  class ProfileViewModel {
    var uiState: ProfileUiState
    var comprasState: ProfileComprasState

    /** Nothing is loaded until `loadInitial`. */
    constructor ()
      ensures uiState == DefaultState && comprasState == DefaultCompras
    {
      uiState := DefaultState;
      comprasState := DefaultCompras;
    }

    /** The start of `loadPerfil`: loading, with the load error and an earlier
        save confirmation cleared. */
    method LoadPerfil()
      modifies this`uiState
      ensures uiState == old(uiState).(loading := true, error := None, saveSuccess := false)
    {
      uiState := uiState.(loading := true, error := None, saveSuccess := false);
    }

    /** The end of `loadPerfil`: the profile fills the form; a failure only
        shows its message. */
    method CompleteLoadPerfil(r: Result<PerfilCliente>)
      modifies this`uiState
      ensures r.Ok? ==> uiState == WithPerfil(old(uiState), r.value).(loading := false)
      ensures r.Ok? ==> uiState.contrasena == "" && uiState.nombre == r.value.nombreUsuario
      ensures r.Err? ==> uiState == old(uiState).(loading := false, error := Some(r.message.GetOr(UnknownError)))
    {
      if r.Ok? {
        uiState := WithPerfil(uiState, r.value).(loading := false);
      } else {
        uiState := uiState.(loading := false, error := Some(r.message.GetOr(UnknownError)));
      }
    }

    /** The start of `loadCompras(page)`. */
    method LoadCompras(page: int) returns (requested: int)
      modifies this`comprasState
      ensures comprasState == old(comprasState).(loading := true, error := None)
      ensures requested == page
    {
      comprasState := comprasState.(loading := true, error := None);
      requested := page;
    }

    /** The end of `loadCompras`: a page replaces items, page and count; a
        failure keeps them and shows its message. */
    method CompleteLoadCompras(r: Result<Page<CompraPerfil>>)
      modifies this`comprasState
      ensures r.Ok? ==> comprasState == old(comprasState).(items := r.value.items, page := r.value.page,
                                                          totalPages := r.value.totalPages, loading := false)
      ensures r.Err? ==> comprasState == old(comprasState).(loading := false, error := Some(r.message.GetOr(UnknownError)))
    {
      if r.Ok? {
        comprasState := comprasState.(items := r.value.items, page := r.value.page, totalPages := r.value.totalPages, loading := false);
      } else {
        comprasState := comprasState.(loading := false, error := Some(r.message.GetOr(UnknownError)));
      }
    }

    /** `loadInitial`: the profile and the first page of purchases, both
        started at once. */
    method LoadInitial() returns (comprasPage: int)
      modifies this`uiState, this`comprasState
      ensures uiState == old(uiState).(loading := true, error := None, saveSuccess := false)
      ensures comprasState == old(comprasState).(loading := true, error := None)
      ensures comprasPage == 1
    {
      LoadPerfil();
      comprasPage := LoadCompras(1);
    }

    /** `onNombreChange`: the save error and confirmation are cleared. */
    method OnNombreChange(value: string)
      modifies this`uiState
      ensures uiState == old(uiState).(nombre := value, saveError := None, saveSuccess := false)
    {
      uiState := uiState.(nombre := value, saveError := None, saveSuccess := false);
    }

    /** `onCorreoChange`. */
    method OnCorreoChange(value: string)
      modifies this`uiState
      ensures uiState == old(uiState).(correo := value, saveError := None, saveSuccess := false)
    {
      uiState := uiState.(correo := value, saveError := None, saveSuccess := false);
    }

    /** `onContrasenaChange`. */
    method OnContrasenaChange(value: string)
      modifies this`uiState
      ensures uiState == old(uiState).(contrasena := value, saveError := None, saveSuccess := false)
    {
      uiState := uiState.(contrasena := value, saveError := None, saveSuccess := false);
    }

    /** The start of `guardarCambios` (no guard: a save may start while one is
        in flight). */
    method GuardarCambios() returns (body: ActualizarPerfilRequestDto)
      modifies this`uiState
      ensures uiState == old(uiState).(saving := true, saveError := None, saveSuccess := false)
      ensures body == SaveRequest(old(uiState))
    {
      body := SaveRequest(uiState);
      uiState := uiState.(saving := true, saveError := None, saveSuccess := false);
    }

    /** The end of `guardarCambios`: the server's profile fills the form with
        the password emptied and success is flagged; a failure keeps what was
        typed and shows its message. */
    method CompleteGuardarCambios(r: Result<PerfilCliente>)
      modifies this`uiState
      ensures r.Ok? ==> uiState == WithPerfil(old(uiState), r.value).(saving := false, saveSuccess := true)
      ensures r.Err? ==> uiState == old(uiState).(saving := false, saveError := Some(r.message.GetOr(SaveFailed)),
                                                   saveSuccess := false)
    {
      if r.Ok? {
        uiState := WithPerfil(uiState, r.value).(saving := false, saveSuccess := true);
      } else {
        uiState := uiState.(saving := false, saveError := Some(r.message.GetOr(SaveFailed)), saveSuccess := false);
      }
    }
  }
}
