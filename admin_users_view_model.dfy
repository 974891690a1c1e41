/** `AdminUsersViewModel`: the administrator's user list with its filters and
    paging, the balance editor and the delete confirmation. */
module AdminUsersViewModel {
  import opened Common
  import opened Text
  import opened AdminUsersRepository

  datatype AdminUsersUiState = AdminUsersUiState(
    loading: bool, error: Option<string>, items: seq<AdminUserItem>,
    id: string, nombre: string, saldo: string,
    page: int, totalPages: int,
    showEditDialog: bool, formId: Option<int>,
    formNombre: string, formCorreo: string, formFecha: string, formSaldo: string,
    showDeleteDialog: bool)

  /** `AdminUsersUiState()` with its default values. */
  const DefaultState: AdminUsersUiState :=
    AdminUsersUiState(false, None, [], "", "", "", 1, 1, false, None, "", "", "", "", false)

  const LoadFailed: string := "Error al cargar usuarios"
  const DetailFailed: string := "Error al obtener detalle del usuario"
  const SaveFailed: string := "Error al guardar el usuario"
  const DeleteFailed: string := "Error al eliminar el usuario"
  const SaldoRequired: string := "El saldo es obligatorio."

  /** What the form shows for a user without a registration date (an em dash). */
  const NoDate: string := "\U{2014}"
  const DateLength: nat := 19

  /** `replace("T", " ")`: every `T` becomes a space, nothing else moves. */
  function ReplaceT(s: string): (r: string)
    ensures |r| == |s|
    ensures forall i :: 0 <= i < |s| ==> r[i] == (if s[i] == 'T' then ' ' else s[i])
  {
    if s == [] then [] else [if s[0] == 'T' then ' ' else s[0]] + ReplaceT(s[1..])
  }

  /** The registration date as the form shows it: `T` turned into a space and
      cut to 19 characters (date and time to the second); an absent date is a
      dash, while an empty one stays empty. */
  function PrettyDate(fecha: Option<string>): (r: string)
    ensures fecha.None? ==> r == NoDate
    ensures fecha.Some? ==> |r| == if |fecha.value| < DateLength then |fecha.value| else DateLength
    ensures fecha.Some? ==> forall i :: 0 <= i < |r| ==> r[i] == (if fecha.value[i] == 'T' then ' ' else fecha.value[i])
    ensures fecha.Some? ==> 'T' !in r
  {
    if fecha.None? then NoDate
    else
      var t := ReplaceT(fecha.value);
      if |t| <= DateLength then t else t[..DateLength]
  }

  /** An ISO-8601 timestamp `<date>T<time>` shows as `<date> <hh:mm:ss>`:
      fractions of a second and the zone are cut off. */
  lemma IsoTimestampShown(date: string, time: string)
    requires |date| == 10 && |time| >= 8
    requires 'T' !in date && 'T' !in time[..8]
    ensures PrettyDate(Some(date + "T" + time)) == date + " " + time[..8]
  {
    var f := date + "T" + time;
    var r := PrettyDate(Some(f));
    var e := date + " " + time[..8];
    assert |r| == |e| == DateLength;
    forall i | 0 <= i < DateLength ensures r[i] == e[i] {
      if i < 10 {
        assert f[i] == date[i] && date[i] != 'T';
      } else if i > 10 {
        assert f[i] == time[i - 11] && time[..8][i - 11] != 'T';
      }
    }
  }

  /** The request a load of `page` sends: the id filter parsed as a Long (left
      out when it is not one), blank `nombre` and `saldo` filters left out. */
  function QueryFor(st: AdminUsersUiState, page: int): (q: AdminUsersQuery)
    ensures q.page == page
    ensures q.id.None? <==> ToLongOrNull(st.id).None?
    ensures q.nombre.None? <==> IsBlank(st.nombre)
    ensures q.saldo.None? <==> IsBlank(st.saldo)
    ensures q.nombre.Some? ==> q.nombre.value == st.nombre
    ensures q.saldo.Some? ==> q.saldo.value == st.saldo
  {
    AdminUsersQueryFor(page, ToLongOrNull(st.id), TakeIfNotBlank(Some(st.nombre)), TakeIfNotBlank(Some(st.saldo)))
  }

  /** The form `onEditClick` fills from a user's detail: absent e-mail and
      balance become empty text, the date is prettified. */
  function EditForm(st: AdminUsersUiState, d: AdminUserDetail): (r: AdminUsersUiState)
    ensures !r.loading && r.showEditDialog && r.formId == Some(d.id) && r.formNombre == d.nombre
    ensures d.correo.Some? ==> r.formCorreo == d.correo.value
    ensures d.correo.None? ==> r.formCorreo == ""
    ensures d.saldo.Some? ==> r.formSaldo == d.saldo.value
    ensures d.saldo.None? ==> r.formSaldo == ""
    ensures r.formFecha == PrettyDate(d.fecha)
    ensures r.items == st.items && r.page == st.page && r.totalPages == st.totalPages && r.error == st.error
    ensures r.id == st.id && r.nombre == st.nombre && r.saldo == st.saldo && r.showDeleteDialog == st.showDeleteDialog
  {
    st.(loading := false, showEditDialog := true, formId := Some(d.id), formNombre := d.nombre,
        formCorreo := d.correo.GetOr(""), formFecha := PrettyDate(d.fecha), formSaldo := d.saldo.GetOr(""))
  }

  /** What `onSubmitForm` does: nothing without a user in the form (None);
      otherwise the trimmed balance for that user, or the message for a blank
      one. */
  function SubmitRequest(st: AdminUsersUiState): (r: Option<Result<SaveUserSaldoRequestDto>>)
    ensures r.None? <==> st.formId.None?
    ensures r.Some? ==> (r.value.Err? <==> IsBlank(st.formSaldo))
    ensures r.Some? && r.value.Err? ==> r.value == Err(Some(SaldoRequired))
    ensures r.Some? && r.value.Ok? ==> r.value.value.id == st.formId.value
                                       && r.value.value.saldo == Trim(st.formSaldo)
                                       && !IsBlank(r.value.value.saldo)
  {
    if st.formId.None? then None
    else
      var saldo := Trim(st.formSaldo);
      TrimBlankIffBlank(st.formSaldo);
      if IsBlank(saldo) then Some(Err(Some(SaldoRequired)))
      else Some(Ok(SaveUserSaldoBody(st.formId.value, saldo)))
  }

  /** Opening a user and saving at once sends back the balance the server
      gave, for that user; a user the server gave no balance cannot be saved
      until one is typed. */
  lemma EditThenSubmit(st: AdminUsersUiState, d: AdminUserDetail)
    requires d.saldo.Some? ==> Trim(d.saldo.value) == d.saldo.value
    ensures d.saldo.Some? && !IsBlank(d.saldo.value)
            ==> SubmitRequest(EditForm(st, d)) == Some(Ok(SaveUserSaldoBody(d.id, d.saldo.value)))
    ensures d.saldo.None? ==> SubmitRequest(EditForm(st, d)) == Some(Err(Some(SaldoRequired)))
  {
  }

  class AdminUsersViewModel {
    var uiState: AdminUsersUiState

    /** `init`: `buscarPrimeraPagina`, whose start is applied at once. */
    constructor ()
      ensures uiState == DefaultState.(loading := true)
    {
      uiState := DefaultState.(loading := true, error := None);
    }

    /** `onIdChange`: as typed. */
    method OnIdChange(value: string)
      modifies this
      ensures uiState == old(uiState).(id := value)
    {
      uiState := uiState.(id := value);
    }

    /** `onNombreChange`. */
    method OnNombreChange(value: string)
      modifies this
      ensures uiState == old(uiState).(nombre := value)
    {
      uiState := uiState.(nombre := value);
    }

    /** `onSaldoChange`. */
    method OnSaldoChange(value: string)
      modifies this
      ensures uiState == old(uiState).(saldo := value)
    {
      uiState := uiState.(saldo := value);
    }

    /** The start of `irPagina(page)`: the page as requested, unclamped. */
    method IrPagina(page: int) returns (q: AdminUsersQuery)
      modifies this
      ensures uiState == old(uiState).(loading := true, error := None)
      ensures q == QueryFor(old(uiState), page) && q.page == page
    {
      uiState := uiState.(loading := true, error := None);
      q := QueryFor(uiState, page);
    }

    /** `buscarPrimeraPagina`: `irPagina(1)`. */
    method BuscarPrimeraPagina() returns (q: AdminUsersQuery)
      modifies this
      ensures uiState == old(uiState).(loading := true, error := None)
      ensures q == QueryFor(old(uiState), 1)
    {
      q := IrPagina(1);
    }

    /** The end of `irPagina`: a page replaces items, page and count; a
        failure keeps them and shows its message or the fixed one. */
    method CompleteIrPagina(r: Result<Page<AdminUserItem>>)
      modifies this
      ensures r.Ok? ==> uiState == old(uiState).(loading := false, items := r.value.items,
                                                  page := r.value.page, totalPages := r.value.totalPages)
      ensures r.Err? ==> uiState == old(uiState).(loading := false, error := Some(r.message.GetOr(LoadFailed)))
    {
      if r.Ok? {
        uiState := uiState.(loading := false, items := r.value.items, page := r.value.page, totalPages := r.value.totalPages);
      } else {
        uiState := uiState.(loading := false, error := Some(r.message.GetOr(LoadFailed)));
      }
    }

    /** The start of `onEditClick(item)`: the detail of the row's user is
        asked for. */
    method StartEditClick(item: AdminUserItem) returns (idUsuario: int)
      modifies this
      ensures uiState == old(uiState).(loading := true, error := None)
      ensures idUsuario == item.id
    {
      uiState := uiState.(loading := true, error := None);
      idUsuario := item.id;
    }

    /** The end of `onEditClick`: the form shows the user. */
    method CompleteEditClick(r: Result<AdminUserDetail>)
      modifies this
      ensures r.Ok? ==> uiState == EditForm(old(uiState), r.value)
      ensures r.Ok? ==> uiState.formFecha == PrettyDate(r.value.fecha)
                        && (r.value.correo.None? ==> uiState.formCorreo == "")
                        && (r.value.saldo.None? ==> uiState.formSaldo == "")
      ensures r.Err? ==> uiState == old(uiState).(loading := false, error := Some(r.message.GetOr(DetailFailed)))
    {
      if r.Ok? {
        uiState := EditForm(uiState, r.value);
      } else {
        uiState := uiState.(loading := false, error := Some(r.message.GetOr(DetailFailed)));
      }
    }

    /** `onDismissEditDialog`. */
    method OnDismissEditDialog()
      modifies this
      ensures uiState == old(uiState).(showEditDialog := false)
    {
      uiState := uiState.(showEditDialog := false);
    }

    /** `onFormSaldoChange`. */
    method OnFormSaldoChange(value: string)
      modifies this
      ensures uiState == old(uiState).(formSaldo := value)
    {
      uiState := uiState.(formSaldo := value);
    }

    /** `onSubmitForm` up to the save call. */
    method SubmitForm() returns (sent: Option<SaveUserSaldoRequestDto>)
      modifies this
      ensures SubmitRequest(old(uiState)).None? ==> uiState == old(uiState) && sent.None?
      ensures SubmitRequest(old(uiState)) == Some(Err(Some(SaldoRequired)))
              ==> uiState == old(uiState).(error := Some(SaldoRequired)) && sent.None?
      ensures SubmitRequest(old(uiState)).Some? && SubmitRequest(old(uiState)).value.Ok?
              ==> uiState == old(uiState).(loading := true, error := None)
                  && sent == Some(SubmitRequest(old(uiState)).value.value)
    {
      var v := SubmitRequest(uiState);
      if v.None? {
        sent := None;
      } else if v.value.Err? {
        uiState := uiState.(error := Some(SaldoRequired));
        sent := None;
      } else {
        uiState := uiState.(loading := true, error := None);
        sent := Some(v.value.value);
      }
    }

    /** The end of the save: success closes the editor and reloads the page
        shown; failure keeps it open with the message. */
    method CompleteSubmit(r: Result<int>) returns (reload: Option<AdminUsersQuery>)
      modifies this
      ensures r.Ok? ==> uiState == old(uiState).(showEditDialog := false, loading := true, error := None)
                        && reload == Some(QueryFor(old(uiState), old(uiState).page))
      ensures r.Err? ==> uiState == old(uiState).(loading := false, error := Some(r.message.GetOr(SaveFailed)))
                         && reload.None?
    {
      if r.Ok? {
        uiState := uiState.(loading := false, showEditDialog := false);
        var q := IrPagina(uiState.page);
        reload := Some(q);
      } else {
        uiState := uiState.(loading := false, error := Some(r.message.GetOr(SaveFailed)));
        reload := None;
      }
    }

    /** `onDeleteClickFromDialog`. */
    method OnDeleteClickFromDialog()
      modifies this
      ensures uiState == old(uiState).(showDeleteDialog := true)
    {
      uiState := uiState.(showDeleteDialog := true);
    }

    /** `onDismissDeleteDialog`. */
    method OnDismissDeleteDialog()
      modifies this
      ensures uiState == old(uiState).(showDeleteDialog := false)
    {
      uiState := uiState.(showDeleteDialog := false);
    }

    /** The start of `onConfirmDelete`: nothing without a user in the form;
        otherwise that user is deleted. */
    method OnConfirmDelete() returns (idUsuario: Option<int>)
      modifies this
      ensures old(uiState).formId.None? ==> uiState == old(uiState) && idUsuario.None?
      ensures old(uiState).formId.Some? ==> uiState == old(uiState).(loading := true, error := None)
                                            && idUsuario == old(uiState).formId
    {
      if uiState.formId.None? {
        idUsuario := None;
      } else {
        uiState := uiState.(loading := true, error := None);
        idUsuario := uiState.formId;
      }
    }

    /** The end of the deletion: success closes both dialogs and reloads the
        page shown; failure keeps them with the message. */
    method CompleteDelete(r: Result<()>) returns (reload: Option<AdminUsersQuery>)
      modifies this
      ensures r.Ok? ==> uiState == old(uiState).(showDeleteDialog := false, showEditDialog := false,
                                                  loading := true, error := None)
                        && reload == Some(QueryFor(old(uiState), old(uiState).page))
      ensures r.Err? ==> uiState == old(uiState).(loading := false, error := Some(r.message.GetOr(DeleteFailed)))
                         && reload.None?
    {
      if r.Ok? {
        uiState := uiState.(loading := false, showDeleteDialog := false, showEditDialog := false);
        var q := IrPagina(uiState.page);
        reload := Some(q);
      } else {
        uiState := uiState.(loading := false, error := Some(r.message.GetOr(DeleteFailed)));
        reload := None;
      }
    }
  }
}
