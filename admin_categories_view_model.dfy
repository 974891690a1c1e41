/** `AdminCategoriesViewModel`: the administrator's category list with its
    filters and paging, the add/edit form and the delete confirmation. */
module AdminCategoriesViewModel {
  import opened Common
  import opened Text
  import opened AdminCategoriesRepository

  datatype AdminCategoriesUiState = AdminCategoriesUiState(
    loading: bool, error: Option<string>, items: seq<AdminCategoryItem>,
    id: string, nombre: string, descripcion: string,
    page: int, totalPages: int,
    showEditDialog: bool, isEdit: bool, formId: Option<int>,
    formNombre: string, formDescripcion: string,
    showDeleteDialog: bool, deleteTarget: Option<AdminCategoryItem>)

  /** `AdminCategoriesUiState()` with its default values. */
  const DefaultState: AdminCategoriesUiState :=
    AdminCategoriesUiState(false, None, [], "", "", "", 1, 1, false, false, None, "", "", false, None)

  const LoadFailed: string := "Error al cargar categorías"
  const SaveFailed: string := "Error al guardar la categoría"
  const DeleteFailed: string := "Error al eliminar la categoría"
  const NameRequired: string := "El nombre de la categoría es obligatorio."

  /** The request a load of `page` sends: the id filter parsed as a Long
      (left out when it is not one), blank text filters left out. */
  function QueryFor(st: AdminCategoriesUiState, page: int): (q: AdminCategoriesQuery)
    ensures q.page == page
    ensures q.id.None? <==> ToLongOrNull(st.id).None?
    ensures q.nombre.None? <==> IsBlank(st.nombre)
    ensures q.descripcion.None? <==> IsBlank(st.descripcion)
    ensures q.nombre.Some? ==> q.nombre.value == st.nombre
    ensures q.descripcion.Some? ==> q.descripcion.value == st.descripcion
  {
    AdminCategoriesQueryFor(page, ToLongOrNull(st.id), TakeIfNotBlank(Some(st.nombre)), TakeIfNotBlank(Some(st.descripcion)))
  }

  /** The id the server receives reads as the number typed: leading zeros or
      a `+` sign may be normalised away, the value never changes. */
  lemma IdFilterFaithful(st: AdminCategoriesUiState, page: int)
    ensures QueryFor(st, page).id.Some? ==> ToLongOrNull(QueryFor(st, page).id.value) == ToLongOrNull(st.id)
  {
    var v := ToLongOrNull(st.id);
    if v.Some? {
      LongTextRoundTrip(v.value);
    }
  }

  /** What `onSubmitForm` saves, or the message that stops it: name and
      description trimmed, a blank name refused, the form's id kept (absent
      for a new category). */
  function FormRequest(st: AdminCategoriesUiState): (r: Result<SaveCategoryRequestDto>)
    ensures r.Ok? <==> !IsBlank(st.formNombre)
    ensures r.Err? ==> r == Err(Some(NameRequired))
    ensures r.Ok? ==> r.value.id == st.formId && r.value.nombre == Trim(st.formNombre)
                      && r.value.descripcion == Trim(st.formDescripcion) && !IsBlank(r.value.nombre)
  {
    var nombre := Trim(st.formNombre);
    var descripcion := Trim(st.formDescripcion);
    TrimBlankIffBlank(st.formNombre);
    if IsBlank(nombre) then Err(Some(NameRequired))
    else Ok(SaveCategoryBody(st.formId, nombre, descripcion))
  }

  /** The form `onEditClick` opens for a row. */
  function EditForm(st: AdminCategoriesUiState, item: AdminCategoryItem): (r: AdminCategoriesUiState)
    ensures r.showEditDialog && r.isEdit && r.formId == Some(item.id) && r.error.None?
    ensures r.formNombre == item.nombre && r.formDescripcion == item.descripcion
    ensures r.items == st.items && r.page == st.page && r.totalPages == st.totalPages && r.loading == st.loading
    ensures r.id == st.id && r.nombre == st.nombre && r.descripcion == st.descripcion
    ensures r.showDeleteDialog == st.showDeleteDialog && r.deleteTarget == st.deleteTarget
  {
    st.(showEditDialog := true, isEdit := true, formId := Some(item.id),
        formNombre := item.nombre, formDescripcion := item.descripcion, error := None)
  }

  /** Editing a row and submitting it untouched updates that same category
      with the same texts, when the row's texts carry no surrounding
      whitespace. */
  lemma EditThenSubmitRoundTrip(st: AdminCategoriesUiState, item: AdminCategoryItem)
    requires Trim(item.nombre) == item.nombre && Trim(item.descripcion) == item.descripcion
    requires !IsBlank(item.nombre)
    ensures FormRequest(EditForm(st, item)) == Ok(SaveCategoryBody(Some(item.id), item.nombre, item.descripcion))
  {
  }

  class AdminCategoriesViewModel {
    var uiState: AdminCategoriesUiState

    /** The edit form is in edit mode exactly when it holds an id, and the
        delete dialog is shown exactly when there is a row to delete. */
    predicate Valid()
      reads this
    {
      (uiState.isEdit <==> uiState.formId.Some?)
      && (uiState.showDeleteDialog <==> uiState.deleteTarget.Some?)
    }

    /** `init`: `buscarPrimeraPagina`, whose start is applied at once. */
    constructor ()
      ensures uiState == DefaultState.(loading := true)
      ensures Valid()
    {
      uiState := DefaultState.(loading := true, error := None);
    }

    /** `onIdChange`: the id filter as typed (not restricted to digits). */
    method OnIdChange(value: string)
      requires Valid()
      modifies this
      ensures uiState == old(uiState).(id := value)
      ensures Valid()
    {
      uiState := uiState.(id := value);
    }

    /** `onNombreChange`. */
    method OnNombreChange(value: string)
      requires Valid()
      modifies this
      ensures uiState == old(uiState).(nombre := value)
      ensures Valid()
    {
      uiState := uiState.(nombre := value);
    }

    /** `onDescripcionChange`. */
    method OnDescripcionChange(value: string)
      requires Valid()
      modifies this
      ensures uiState == old(uiState).(descripcion := value)
      ensures Valid()
    {
      uiState := uiState.(descripcion := value);
    }

    /** The start of `irPagina(page)`: the page goes out as requested, with no
        clamping to the known page count. */
    method IrPagina(page: int) returns (q: AdminCategoriesQuery)
      requires Valid()
      modifies this
      ensures uiState == old(uiState).(loading := true, error := None)
      ensures q == QueryFor(old(uiState), page) && q.page == page
      ensures Valid()
    {
      uiState := uiState.(loading := true, error := None);
      q := QueryFor(uiState, page);
    }

    /** `buscarPrimeraPagina`: `irPagina(1)`. */
    method BuscarPrimeraPagina() returns (q: AdminCategoriesQuery)
      requires Valid()
      modifies this
      ensures uiState == old(uiState).(loading := true, error := None)
      ensures q == QueryFor(old(uiState), 1)
      ensures Valid()
    {
      q := IrPagina(1);
    }

    /** The end of `irPagina`: a page replaces items, page and count; a
        failure keeps them and shows its message or the fixed one. */
    method CompleteIrPagina(r: Result<Page<AdminCategoryItem>>)
      requires Valid()
      modifies this
      ensures r.Ok? ==> uiState == old(uiState).(loading := false, items := r.value.items,
                                                  page := r.value.page, totalPages := r.value.totalPages)
      ensures r.Err? ==> uiState == old(uiState).(loading := false, error := Some(r.message.GetOr(LoadFailed)))
      ensures Valid()
    {
      if r.Ok? {
        uiState := uiState.(loading := false, items := r.value.items, page := r.value.page, totalPages := r.value.totalPages);
      } else {
        uiState := uiState.(loading := false, error := Some(r.message.GetOr(LoadFailed)));
      }
    }

    /** `onAddClick`: an empty form for a new category. */
    method OnAddClick()
      requires Valid()
      modifies this
      ensures uiState == old(uiState).(showEditDialog := true, isEdit := false, formId := None,
                                       formNombre := "", formDescripcion := "", error := None)
      ensures FormRequest(uiState) == Err(Some(NameRequired))
      ensures Valid()
    {
      uiState := uiState.(showEditDialog := true, isEdit := false, formId := None,
                          formNombre := "", formDescripcion := "", error := None);
    }

    /** `onEditClick(item)`: the form filled from the row itself (no call). */
    method OnEditClick(item: AdminCategoryItem)
      requires Valid()
      modifies this
      ensures uiState == EditForm(old(uiState), item)
      ensures uiState.isEdit && uiState.formId == Some(item.id)
      ensures Valid()
    {
      uiState := EditForm(uiState, item);
    }

    /** `onDismissDialog`. */
    method OnDismissDialog()
      requires Valid()
      modifies this
      ensures uiState == old(uiState).(showEditDialog := false)
      ensures Valid()
    {
      uiState := uiState.(showEditDialog := false);
    }

    /** `onFormNombreChange`. */
    method OnFormNombreChange(value: string)
      requires Valid()
      modifies this
      ensures uiState == old(uiState).(formNombre := value)
      ensures Valid()
    {
      uiState := uiState.(formNombre := value);
    }

    /** `onFormDescripcionChange`. */
    method OnFormDescripcionChange(value: string)
      requires Valid()
      modifies this
      ensures uiState == old(uiState).(formDescripcion := value)
      ensures Valid()
    {
      uiState := uiState.(formDescripcion := value);
    }

    /** `onSubmitForm` up to the save call. */
    method SubmitForm() returns (sent: Option<SaveCategoryRequestDto>)
      requires Valid()
      modifies this
      ensures FormRequest(old(uiState)).Err? ==> sent.None? && uiState == old(uiState).(error := Some(NameRequired))
      ensures FormRequest(old(uiState)).Ok? ==> sent == Some(FormRequest(old(uiState)).value)
                                                && uiState == old(uiState).(loading := true, error := None)
      ensures Valid()
    {
      var v := FormRequest(uiState);
      if v.Err? {
        uiState := uiState.(error := Some(NameRequired));
        sent := None;
      } else {
        uiState := uiState.(loading := true, error := None);
        sent := Some(v.value);
      }
    }

    /** The end of the save: success closes the dialog and reloads the page
        shown; failure keeps the dialog and shows the message. */
    method CompleteSubmit(r: Result<int>) returns (reload: Option<AdminCategoriesQuery>)
      requires Valid()
      modifies this
      ensures r.Ok? ==> uiState == old(uiState).(showEditDialog := false, loading := true, error := None)
                        && reload == Some(QueryFor(old(uiState), old(uiState).page))
      ensures r.Err? ==> uiState == old(uiState).(loading := false, error := Some(r.message.GetOr(SaveFailed)))
                         && reload.None?
      ensures Valid()
    {
      if r.Ok? {
        uiState := uiState.(loading := false, showEditDialog := false);
        var q := IrPagina(uiState.page);
        reload := Some(q);
      } else {
        uiState := uiState.(loading := false, error := Some(r.message.GetOr(SaveFailed)));
        reload := None;
      }
    }

    /** `onDeleteClick(item)`: the confirmation opens for that row. */
    method OnDeleteClick(item: AdminCategoryItem)
      requires Valid()
      modifies this
      ensures uiState == old(uiState).(showDeleteDialog := true, deleteTarget := Some(item), error := None)
      ensures Valid()
    {
      uiState := uiState.(showDeleteDialog := true, deleteTarget := Some(item), error := None);
    }

    /** `onDismissDeleteDialog`: the confirmation closes and forgets its row. */
    method OnDismissDeleteDialog()
      requires Valid()
      modifies this
      ensures uiState == old(uiState).(showDeleteDialog := false, deleteTarget := None)
      ensures Valid()
    {
      uiState := uiState.(showDeleteDialog := false, deleteTarget := None);
    }

    /** The start of `onConfirmDelete`: without a row nothing happens;
        otherwise that row's id is deleted. */
    method OnConfirmDelete() returns (idCategoria: Option<int>)
      requires Valid()
      modifies this
      ensures old(uiState).deleteTarget.None? ==> uiState == old(uiState) && idCategoria.None?
      ensures old(uiState).deleteTarget.Some? ==> uiState == old(uiState).(loading := true, error := None)
                                                  && idCategoria == Some(old(uiState).deleteTarget.value.id)
      ensures Valid()
    {
      if uiState.deleteTarget.None? {
        idCategoria := None;
      } else {
        var target := uiState.deleteTarget.value;
        uiState := uiState.(loading := true, error := None);
        idCategoria := Some(target.id);
      }
    }

    /** The end of the deletion: success closes the confirmation and reloads
        the same page (even if it is now empty); failure keeps the
        confirmation open with the message. */
    method CompleteDelete(r: Result<()>) returns (reload: Option<AdminCategoriesQuery>)
      requires Valid()
      modifies this
      ensures r.Ok? ==> uiState == old(uiState).(showDeleteDialog := false, deleteTarget := None,
                                                  loading := true, error := None)
                        && reload == Some(QueryFor(old(uiState), old(uiState).page))
      ensures r.Err? ==> uiState == old(uiState).(loading := false, error := Some(r.message.GetOr(DeleteFailed)))
                         && reload.None?
      ensures Valid()
    {
      if r.Ok? {
        uiState := uiState.(loading := false, showDeleteDialog := false, deleteTarget := None);
        var q := IrPagina(uiState.page);
        reload := Some(q);
      } else {
        uiState := uiState.(loading := false, error := Some(r.message.GetOr(DeleteFailed)));
        reload := None;
      }
    }
  }
}
