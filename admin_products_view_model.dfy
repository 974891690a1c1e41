/** `AdminProductsViewModel`: the administrator's product list (filters,
    paging, load status) and the product form with its file and images. */
module AdminProductsViewModel {
  import opened Common
  import opened Text
  import opened AdminProductsRepository

  datatype AdminProductsUiState = AdminProductsUiState(
    id: string, nombre: string, autor: string, categoria: string,
    page: int, totalPages: int,
    loading: bool, error: Option<string>, items: seq<AdminProductItem>,
    showEditDialog: bool, isEdit: bool, formId: Option<int>,
    formNombre: string, formDescripcion: string, formVersion: string, formPrecio: string,
    formAutorId: string, formCategoriaId: string, formActivo: bool,
    formTieneArchivo: bool, formImagenes: seq<AdminProductImage>)

  /** `AdminProductsUiState()` with its default values. */
  const DefaultState: AdminProductsUiState :=
    AdminProductsUiState("", "", "", "", 1, 1, false, None, [],
      false, false, None, "", "", "", "", "", "", true, false, [])

  const LoadFailed: string := "Error al cargar los productos"
  const DetailFailed: string := "Error al cargar detalle del producto"
  const SaveFailed: string := "Error al guardar el producto"
  const UploadFailed: string := "Error al subir archivo"
  const AddImageFailed: string := "Error al agregar imagen"
  const ReorderFailed: string := "Error al reordenar imagen"
  const DeleteImageFailed: string := "Error al eliminar imagen"
  const NameRequired: string := "El nombre no puede estar vacío"
  const PriceRequired: string := "El precio no puede estar vacío"

  /** The new position sent for an image. */
  datatype ReorderRequest = ReorderRequest(idImagen: int, orden: int)

  // ------------------------------------------------ images sorted by position

  predicate SortedByOrden(s: seq<AdminProductImage>) {
    forall i, j :: 0 <= i < j < |s| ==> s[i].orden <= s[j].orden
  }

  /** The images of `s` at position `k`, in the order `s` has them. */
  function WithOrden(s: seq<AdminProductImage>, k: int): seq<AdminProductImage> {
    if s == [] then [] else (if s[0].orden == k then [s[0]] else []) + WithOrden(s[1..], k)
  }

  lemma {:induction false} WithOrdenAppend(a: seq<AdminProductImage>, b: seq<AdminProductImage>, k: int)
    ensures WithOrden(a + b, k) == WithOrden(a, k) + WithOrden(b, k)
  {
    if a == [] {
      assert a + b == b;
    } else {
      var h: seq<AdminProductImage> := if a[0].orden == k then [a[0]] else [];
      assert (a + b)[0] == a[0];
      assert (a + b)[1..] == a[1..] + b;
      assert WithOrden(a + b, k) == h + WithOrden(a[1..] + b, k);
      WithOrdenAppend(a[1..], b, k);
      assert WithOrden(a, k) == h + WithOrden(a[1..], k);
    }
  }

  lemma {:induction false} WithOrdenNone(s: seq<AdminProductImage>, k: int)
    requires forall i :: 0 <= i < |s| ==> s[i].orden != k
    ensures WithOrden(s, k) == []
  {
    if s != [] {
      WithOrdenNone(s[1..], k);
    }
  }

  /** Inserts `x` before the first image whose position is not smaller. */
  function InsertByOrden(x: AdminProductImage, s: seq<AdminProductImage>): (r: seq<AdminProductImage>)
    requires SortedByOrden(s)
    ensures SortedByOrden(r)
    ensures multiset(r) == multiset(s) + multiset{x}
    ensures |r| == |s| + 1 && (r[0] == x || (s != [] && r[0] == s[0]))
  {
    if s == [] || x.orden <= s[0].orden then [x] + s
    else
      var t := InsertByOrden(x, s[1..]);
      assert s == [s[0]] + s[1..];
      [s[0]] + t
  }

  /** `sortedBy { it.orden }`: the images by position. */
  function SortByOrden(s: seq<AdminProductImage>): (r: seq<AdminProductImage>)
    ensures SortedByOrden(r)
    ensures multiset(r) == multiset(s)
  {
    if s == [] then []
    else
      assert s == [s[0]] + s[1..];
      InsertByOrden(s[0], SortByOrden(s[1..]))
  }

  lemma {:induction false} InsertKeepsOrder(x: AdminProductImage, s: seq<AdminProductImage>, k: int)
    requires SortedByOrden(s)
    ensures WithOrden(InsertByOrden(x, s), k) == (if x.orden == k then [x] else []) + WithOrden(s, k)
  {
    var hx: seq<AdminProductImage> := if x.orden == k then [x] else [];
    if s == [] || x.orden <= s[0].orden {
      assert WithOrden([x] + s, k) == hx + WithOrden(s, k) by {
        assert ([x] + s)[0] == x;
        assert ([x] + s)[1..] == s;
      }
    } else {
      var t := InsertByOrden(x, s[1..]);
      var h0: seq<AdminProductImage> := if s[0].orden == k then [s[0]] else [];
      assert WithOrden(InsertByOrden(x, s), k) == h0 + WithOrden(t, k) by {
        assert InsertByOrden(x, s) == [s[0]] + t;
        assert ([s[0]] + t)[0] == s[0];
        assert ([s[0]] + t)[1..] == t;
      }
      assert WithOrden(t, k) == hx + WithOrden(s[1..], k) by {
        InsertKeepsOrder(x, s[1..], k);
      }
      assert WithOrden(s, k) == h0 + WithOrden(s[1..], k);
      assert hx == [] || h0 == [];
    }
  }

  /** `sortedBy` is stable: the images sharing a position keep the order the
      server sent them in. */
  lemma {:induction false} SortIsStable(s: seq<AdminProductImage>, k: int)
    ensures WithOrden(SortByOrden(s), k) == WithOrden(s, k)
  {
    if s != [] {
      SortIsStable(s[1..], k);
      InsertKeepsOrder(s[0], SortByOrden(s[1..]), k);
    }
  }

  /** The first image of a list is at the head of its own position's
      images, and a sorted list has none at an earlier position. */
  lemma HeadFacts(s: seq<AdminProductImage>)
    ensures s != [] ==> WithOrden(s, s[0].orden) != [] && WithOrden(s, s[0].orden)[0] == s[0]
    ensures s != [] && SortedByOrden(s) ==> forall k :: k < s[0].orden ==> WithOrden(s, k) == []
  {
    if s != [] && SortedByOrden(s) {
      forall k | k < s[0].orden ensures WithOrden(s, k) == [] {
        WithOrdenNone(s, k);
      }
    }
  }

  /** Sorted with the same images at every position, in the same order: that
      determines the list, so `SortByOrden` is the one stable sort by position. */
  lemma {:induction false} StableSortUnique(a: seq<AdminProductImage>, b: seq<AdminProductImage>)
    requires SortedByOrden(a) && SortedByOrden(b)
    requires forall k :: WithOrden(a, k) == WithOrden(b, k)
    ensures a == b
  {
    HeadFacts(a);
    HeadFacts(b);
    if a != [] && b != [] {
      var x, y := a[0], b[0];
      assert WithOrden(a, x.orden) == WithOrden(b, x.orden);
      assert WithOrden(a, y.orden) == WithOrden(b, y.orden);
      assert x == y;
      forall k ensures WithOrden(a[1..], k) == WithOrden(b[1..], k) {
        var p: seq<AdminProductImage> := if x.orden == k then [x] else [];
        assert WithOrden(a, k) == p + WithOrden(a[1..], k);
        assert WithOrden(b, k) == p + WithOrden(b[1..], k);
        assert WithOrden(a[1..], k) == (p + WithOrden(a[1..], k))[|p|..];
        assert WithOrden(b[1..], k) == (p + WithOrden(b[1..], k))[|p|..];
      }
      StableSortUnique(a[1..], b[1..]);
      assert a == [x] + a[1..] && b == [y] + b[1..];
    }
  }

  /** The form's images after a load: exactly the stable sort of the images
      received. */
  lemma FormImagesAreSortedBy(s: seq<AdminProductImage>, r: seq<AdminProductImage>)
    requires SortedByOrden(r) && forall k :: WithOrden(r, k) == WithOrden(s, k)
    ensures r == SortByOrden(s)
  {
    forall k ensures WithOrden(r, k) == WithOrden(SortByOrden(s), k) {
      SortIsStable(s, k);
    }
    StableSortUnique(r, SortByOrden(s));
  }

  // ------------------------------------------------------ moving an image

  /** `moveImageUp`'s target: one position earlier, never before 1, in 32-bit
      `Int` arithmetic. */
  function MoveUpOrden(orden: int): (n: int)
    requires IntMin <= orden <= IntMax
    ensures 1 <= n <= IntMax
    ensures 1 < orden ==> n == orden - 1
    ensures IntMin < orden <= 1 ==> n == 1
    ensures orden == IntMin ==> n == IntMax
  {
    CoerceAtLeast(Wrap32(orden - 1), 1)
  }

  /** `moveImageDown`'s target: one position later, wrapping at the top of
      `Int`. */
  function MoveDownOrden(orden: int): (n: int)
    requires IntMin <= orden <= IntMax
    ensures IntMin <= n <= IntMax
    ensures orden < IntMax ==> n == orden + 1
    ensures orden == IntMax ==> n == IntMin
  {
    Wrap32(orden + 1)
  }

  /** Up and down undo each other away from the edges (position 1 and the
      largest `Int`). */
  lemma MoveUpDownInverse(orden: int)
    requires 1 <= orden < IntMax
    ensures MoveUpOrden(MoveDownOrden(orden)) == orden
    ensures 1 < orden ==> MoveDownOrden(MoveUpOrden(orden)) == orden
  {
  }

  // -------------------------------------------------------------- form

  /** The text a form field shows for an optional id. */
  function IdText(id: Option<int>): (s: string)
    ensures id.None? <==> s == ""
  {
    if id.Some? then LongText(id.value) else ""
  }

  /** The product `onSubmitForm` saves, or the message that stops it: name and
      price are trimmed, a blank name is reported before a blank price, the
      ids are parsed (unparseable text is sent as absent), and the other
      fields go as they stand. */
  function FormDetail(st: AdminProductsUiState): (r: Result<AdminProductDetail>)
    ensures r.Ok? <==> !IsBlank(st.formNombre) && !IsBlank(st.formPrecio)
    ensures IsBlank(st.formNombre) ==> r == Err(Some(NameRequired))
    ensures !IsBlank(st.formNombre) && IsBlank(st.formPrecio) ==> r == Err(Some(PriceRequired))
    ensures r.Ok? ==> r.value.nombre == Trim(st.formNombre) && r.value.precio == Trim(st.formPrecio)
                      && !IsBlank(r.value.nombre) && !IsBlank(r.value.precio)
    ensures r.Ok? ==> r.value.id == st.formId && r.value.descripcion == st.formDescripcion
                      && r.value.version == st.formVersion && r.value.activo == st.formActivo
                      && r.value.tieneArchivo == st.formTieneArchivo && r.value.imagenes == st.formImagenes
    ensures r.Ok? ==> r.value.autorId == ToLongOrNull(st.formAutorId)
                      && r.value.categoriaId == ToLongOrNull(st.formCategoriaId)
  {
    var nombre := Trim(st.formNombre);
    var precio := Trim(st.formPrecio);
    TrimBlankIffBlank(st.formNombre);
    TrimBlankIffBlank(st.formPrecio);
    if IsBlank(nombre) then Err(Some(NameRequired))
    else if IsBlank(precio) then Err(Some(PriceRequired))
    else Ok(AdminProductDetail(st.formId, nombre, st.formDescripcion, st.formVersion, precio,
      ToLongOrNull(st.formAutorId), ToLongOrNull(st.formCategoriaId), st.formActivo,
      st.formTieneArchivo, st.formImagenes))
  }

  /** The form as `onEditClick` fills it from a loaded product. */
  function EditForm(st: AdminProductsUiState, d: AdminProductDetail): (r: AdminProductsUiState)
    ensures !r.loading && r.showEditDialog && r.isEdit && r.formId == d.id
    ensures r.formNombre == d.nombre && r.formDescripcion == d.descripcion && r.formVersion == d.version
    ensures r.formPrecio == d.precio && r.formActivo == d.activo && r.formTieneArchivo == d.tieneArchivo
    ensures r.formAutorId == IdText(d.autorId) && r.formCategoriaId == IdText(d.categoriaId)
    ensures SortedByOrden(r.formImagenes) && multiset(r.formImagenes) == multiset(d.imagenes)
    ensures r.id == st.id && r.nombre == st.nombre && r.autor == st.autor && r.categoria == st.categoria
    ensures r.items == st.items && r.page == st.page && r.totalPages == st.totalPages && r.error == st.error
  {
    st.(loading := false, showEditDialog := true, isEdit := true, formId := d.id,
        formNombre := d.nombre, formDescripcion := d.descripcion, formVersion := d.version,
        formPrecio := d.precio, formAutorId := IdText(d.autorId), formCategoriaId := IdText(d.categoriaId),
        formActivo := d.activo, formTieneArchivo := d.tieneArchivo, formImagenes := SortByOrden(d.imagenes))
  }

  /** Opening a product and saving it untouched sends back what was loaded
      (images in position order), provided name and price carry no
      surrounding whitespace. */
  lemma EditThenSaveRoundTrip(st: AdminProductsUiState, d: AdminProductDetail)
    requires d.nombre != [] && !IsWhitespace(d.nombre[0]) && !IsWhitespace(d.nombre[|d.nombre| - 1])
    requires d.precio != [] && !IsWhitespace(d.precio[0]) && !IsWhitespace(d.precio[|d.precio| - 1])
    requires d.autorId.Some? ==> LongMin <= d.autorId.value <= LongMax
    requires d.categoriaId.Some? ==> LongMin <= d.categoriaId.value <= LongMax
    ensures FormDetail(EditForm(st, d)) == Ok(d.(imagenes := SortByOrden(d.imagenes)))
    ensures SaveProductBody(FormDetail(EditForm(st, d)).value) == SaveProductBody(d)
  {
    TrimKeeps(d.nombre);
    TrimKeeps(d.precio);
    assert !IsBlank(d.nombre) by { assert !IsWhitespace(d.nombre[0]); }
    assert !IsBlank(d.precio) by { assert !IsWhitespace(d.precio[0]); }
    if d.autorId.Some? { LongTextRoundTrip(d.autorId.value); }
    if d.categoriaId.Some? { LongTextRoundTrip(d.categoriaId.value); }
    SaveBodyIgnoresFileAndImages(d, d.tieneArchivo, SortByOrden(d.imagenes));
  }

  /** The request a load of `page` sends: the id filter parsed, blank text
      filters left out. */
  function QueryFor(st: AdminProductsUiState, page: int): (q: AdminProductsQuery)
    ensures q.page == page && q.id == ToLongOrNull(st.id)
    ensures q.nombre.None? <==> IsBlank(st.nombre)
    ensures q.autor.None? <==> IsBlank(st.autor)
    ensures q.categoria.None? <==> IsBlank(st.categoria)
    ensures q.nombre.Some? ==> q.nombre.value == st.nombre
    ensures q.autor.Some? ==> q.autor.value == st.autor
    ensures q.categoria.Some? ==> q.categoria.value == st.categoria
  {
    AdminProductsQueryFor(page, ToLongOrNull(st.id), TakeIfNotBlank(Some(st.nombre)),
      TakeIfNotBlank(Some(st.autor)), TakeIfNotBlank(Some(st.categoria)))
  }

  /** The id filter holds digits only, so it is sent exactly when it is not
      empty and fits a Long, and then as its decimal value. */
  lemma IdFilterSent(st: AdminProductsUiState, page: int)
    requires AllDigits(st.id)
    ensures QueryFor(st, page).id.Some? <==> st.id != [] && DigitsValue(st.id) <= LongMax
    ensures QueryFor(st, page).id.Some? ==> QueryFor(st, page).id.value == DigitsValue(st.id)
  {
    DigitsParse(st.id);
  }

  class AdminProductsViewModel {
    var uiState: AdminProductsUiState

    /** The id filter holds digits only and the form's images are in position
        order. */
    predicate Valid()
      reads this
    {
      AllDigits(uiState.id) && SortedByOrden(uiState.formImagenes)
    }

    /** `init`: the default state with the first page requested at once (the
        request is `QueryFor(uiState, 1)`). */
    constructor ()
      ensures uiState == DefaultState.(loading := true)
      ensures Valid()
    {
      uiState := DefaultState.(loading := true, error := None);
    }

    /** `onIdChange`: only the digits typed are kept. */
    method OnIdChange(newId: string)
      requires Valid()
      modifies this
      ensures uiState == old(uiState).(id := FilterDigits(newId))
      ensures Valid()
    {
      uiState := uiState.(id := FilterDigits(newId));
    }

    /** `onNombreChange`; unlike the public catalog, the error stays. */
    method OnNombreChange(value: string)
      requires Valid()
      modifies this
      ensures uiState == old(uiState).(nombre := value)
      ensures Valid()
    {
      uiState := uiState.(nombre := value);
    }

    /** `onAutorChange`. */
    method OnAutorChange(value: string)
      requires Valid()
      modifies this
      ensures uiState == old(uiState).(autor := value)
      ensures Valid()
    {
      uiState := uiState.(autor := value);
    }

    /** `onCategoriaChange`. */
    method OnCategoriaChange(value: string)
      requires Valid()
      modifies this
      ensures uiState == old(uiState).(categoria := value)
      ensures Valid()
    {
      uiState := uiState.(categoria := value);
    }

    /** The start of `loadPage(page)`. */
    method LoadPage(page: int) returns (q: AdminProductsQuery)
      requires Valid()
      modifies this
      ensures uiState == old(uiState).(loading := true, error := None)
      ensures q == QueryFor(old(uiState), page)
      ensures Valid()
    {
      uiState := uiState.(loading := true, error := None);
      q := QueryFor(uiState, page);
    }

    /** The end of `loadPage`: a page replaces page, count and items; a
        failure keeps them and shows its message or the fixed one. */
    method CompleteLoadPage(r: Result<Page<AdminProductItem>>)
      requires Valid()
      modifies this
      ensures r.Ok? ==> uiState == old(uiState).(loading := false, page := r.value.page,
                                                  totalPages := r.value.totalPages, items := r.value.items)
      ensures r.Err? ==> uiState == old(uiState).(loading := false, error := Some(r.message.GetOr(LoadFailed)))
      ensures Valid()
    {
      if r.Ok? {
        uiState := uiState.(loading := false, page := r.value.page, totalPages := r.value.totalPages, items := r.value.items);
      } else {
        uiState := uiState.(loading := false, error := Some(r.message.GetOr(LoadFailed)));
      }
    }

    /** `buscarPrimeraPagina`. */
    method BuscarPrimeraPagina() returns (q: AdminProductsQuery)
      requires Valid()
      modifies this
      ensures uiState == old(uiState).(loading := true, error := None)
      ensures q == QueryFor(old(uiState), 1)
      ensures Valid()
    {
      q := LoadPage(1);
    }

    /** `irPagina`: only a lower bound of 1; the page count is not consulted. */
    method IrPagina(page: int) returns (q: AdminProductsQuery)
      requires Valid()
      modifies this
      ensures uiState == old(uiState).(loading := true, error := None)
      ensures q == QueryFor(old(uiState), CoerceAtLeast(page, 1))
      ensures q.page >= 1 && (page >= 1 ==> q.page == page)
      ensures Valid()
    {
      q := LoadPage(CoerceAtLeast(page, 1));
    }

    /** `onAddClick`: an empty form for a new product, active by default. */
    method OnAddClick()
      requires Valid()
      modifies this
      ensures uiState == old(uiState).(showEditDialog := true, isEdit := false, formId := None,
                                       formNombre := "", formDescripcion := "", formVersion := "",
                                       formPrecio := "", formAutorId := "", formCategoriaId := "",
                                       formActivo := true, formTieneArchivo := false, formImagenes := [])
      ensures FormDetail(uiState) == Err(Some(NameRequired))
      ensures Valid()
    {
      uiState := uiState.(showEditDialog := true, isEdit := false, formId := None,
                          formNombre := "", formDescripcion := "", formVersion := "",
                          formPrecio := "", formAutorId := "", formCategoriaId := "",
                          formActivo := true, formTieneArchivo := false, formImagenes := []);
    }

    /** The start of `onEditClick(item)`: the detail of the row's id is asked for. */
    method StartEditClick(item: AdminProductItem) returns (idProducto: int)
      requires Valid()
      modifies this
      ensures uiState == old(uiState).(loading := true, error := None)
      ensures idProducto == item.id
      ensures Valid()
    {
      uiState := uiState.(loading := true, error := None);
      idProducto := item.id;
    }

    /** The end of `onEditClick`: the form shows the product, ids as text and
        images in position order. */
    method CompleteEditClick(r: Result<AdminProductDetail>)
      requires Valid()
      modifies this
      ensures r.Ok? ==> uiState == EditForm(old(uiState), r.value)
      ensures r.Ok? ==> uiState.formImagenes == SortByOrden(r.value.imagenes) && uiState.isEdit
      ensures r.Err? ==> uiState == old(uiState).(loading := false, error := Some(r.message.GetOr(DetailFailed)))
      ensures Valid()
    {
      if r.Ok? {
        uiState := EditForm(uiState, r.value);
      } else {
        uiState := uiState.(loading := false, error := Some(r.message.GetOr(DetailFailed)));
      }
    }

    /** `onDismissDialog`: the form's contents stay. */
    method OnDismissDialog()
      requires Valid()
      modifies this
      ensures uiState == old(uiState).(showEditDialog := false)
      ensures Valid()
    {
      uiState := uiState.(showEditDialog := false);
    }

    /** `onFormNombreChange`. */
    method OnFormNombreChange(value: string)
      requires Valid()
      modifies this
      ensures uiState == old(uiState).(formNombre := value)
      ensures Valid()
    {
      uiState := uiState.(formNombre := value);
    }

    /** `onFormDescripcionChange`. */
    method OnFormDescripcionChange(value: string)
      requires Valid()
      modifies this
      ensures uiState == old(uiState).(formDescripcion := value)
      ensures Valid()
    {
      uiState := uiState.(formDescripcion := value);
    }

    /** `onFormVersionChange`. */
    method OnFormVersionChange(value: string)
      requires Valid()
      modifies this
      ensures uiState == old(uiState).(formVersion := value)
      ensures Valid()
    {
      uiState := uiState.(formVersion := value);
    }

    /** `onFormPrecioChange`. */
    method OnFormPrecioChange(value: string)
      requires Valid()
      modifies this
      ensures uiState == old(uiState).(formPrecio := value)
      ensures Valid()
    {
      uiState := uiState.(formPrecio := value);
    }

    /** `onFormAutorIdChange`: digits only. */
    method OnFormAutorIdChange(value: string)
      requires Valid()
      modifies this
      ensures uiState == old(uiState).(formAutorId := FilterDigits(value))
      ensures AllDigits(uiState.formAutorId)
      ensures Valid()
    {
      uiState := uiState.(formAutorId := FilterDigits(value));
    }

    /** `onFormCategoriaIdChange`: digits only. */
    method OnFormCategoriaIdChange(value: string)
      requires Valid()
      modifies this
      ensures uiState == old(uiState).(formCategoriaId := FilterDigits(value))
      ensures AllDigits(uiState.formCategoriaId)
      ensures Valid()
    {
      uiState := uiState.(formCategoriaId := FilterDigits(value));
    }

    /** `onFormActivoToggle`. */
    method OnFormActivoToggle()
      requires Valid()
      modifies this
      ensures uiState == old(uiState).(formActivo := !old(uiState).formActivo)
      ensures Valid()
    {
      uiState := uiState.(formActivo := !uiState.formActivo);
    }

    /** `onSubmitForm` up to the save call: a form that fails validation only
        shows why; a valid one turns to loading and sends `FormDetail`. */
    method SubmitForm() returns (sent: Option<AdminProductDetail>)
      requires Valid()
      modifies this
      ensures FormDetail(old(uiState)).Err? ==> sent.None? && uiState == old(uiState).(error := FormDetail(old(uiState)).message)
      ensures FormDetail(old(uiState)).Ok? ==> sent == Some(FormDetail(old(uiState)).value)
                                               && uiState == old(uiState).(loading := true, error := None)
      ensures Valid()
    {
      var v := FormDetail(uiState);
      if v.Err? {
        uiState := uiState.(error := v.message);
        sent := None;
      } else {
        uiState := uiState.(loading := true, error := None);
        sent := Some(v.value);
      }
    }

    /** The end of the save: on success the dialog closes and the page shown
        is loaded again (its start applied at once); on failure the dialog
        stays open with the message. */
    method CompleteSubmit(r: Result<int>) returns (reload: Option<AdminProductsQuery>)
      requires Valid()
      modifies this
      ensures r.Ok? ==> uiState == old(uiState).(showEditDialog := false, loading := true, error := None)
                        && reload == Some(QueryFor(old(uiState), old(uiState).page))
      ensures r.Err? ==> uiState == old(uiState).(loading := false, error := Some(r.message.GetOr(SaveFailed)))
                         && reload.None?
      ensures Valid()
    {
      if r.Ok? {
        var currentPage := uiState.page;
        uiState := uiState.(loading := false, showEditDialog := false);
        var q := LoadPage(currentPage);
        reload := Some(q);
      } else {
        uiState := uiState.(loading := false, error := Some(r.message.GetOr(SaveFailed)));
        reload := None;
      }
    }

    /** The start of `reloadDetailInForm`: the form's product, if it has one. */
    method ReloadDetailInForm() returns (idProducto: Option<int>)
      ensures idProducto == uiState.formId
    {
      idProducto := uiState.formId;
    }

    /** The end of `reloadDetailInForm`: the file flag and the sorted images are
        refreshed, the rest of the form kept; a failure is ignored. */
    method CompleteReloadDetail(r: Result<AdminProductDetail>)
      requires Valid()
      modifies this
      ensures r.Ok? ==> uiState == old(uiState).(formTieneArchivo := r.value.tieneArchivo,
                                                  formImagenes := SortByOrden(r.value.imagenes))
      ensures r.Err? ==> uiState == old(uiState)
      ensures Valid()
    {
      if r.Ok? {
        uiState := uiState.(formTieneArchivo := r.value.tieneArchivo, formImagenes := SortByOrden(r.value.imagenes));
      }
    }

    /** The start of `uploadFileForCurrentProduct`: nothing happens while the
        form has no product id; otherwise the parts go out for that id. */
    method UploadFileForCurrentProduct(filename: string) returns (parts: Option<seq<Part>>)
      requires Valid()
      modifies this
      ensures old(uiState).formId.None? ==> uiState == old(uiState) && parts.None?
      ensures old(uiState).formId.Some? ==> uiState == old(uiState).(loading := true, error := None)
                                            && parts == Some(UploadFileParts(old(uiState).formId.value, filename))
      ensures Valid()
    {
      if uiState.formId.None? {
        parts := None;
      } else {
        var id := uiState.formId.value;
        uiState := uiState.(loading := true, error := None);
        parts := Some(UploadFileParts(id, filename));
      }
    }

    /** The start of `addImageForCurrentProduct`: as the upload, with the
        position sent only when given. */
    method AddImageForCurrentProduct(filename: string, orden: Option<int>) returns (parts: Option<seq<Part>>)
      requires Valid()
      modifies this
      ensures old(uiState).formId.None? ==> uiState == old(uiState) && parts.None?
      ensures old(uiState).formId.Some? ==> uiState == old(uiState).(loading := true, error := None)
                                            && parts == Some(AddImageParts(old(uiState).formId.value, filename, orden))
      ensures Valid()
    {
      if uiState.formId.None? {
        parts := None;
      } else {
        var id := uiState.formId.value;
        uiState := uiState.(loading := true, error := None);
        parts := Some(AddImageParts(id, filename, orden));
      }
    }

    /** The end of an upload or an image addition: success ends loading and
        reloads the form's detail; failure shows the message or `fallback`. */
    method CompleteFileAction(r: Result<()>, fallback: string) returns (reload: Option<int>)
      requires Valid()
      modifies this
      ensures r.Ok? ==> uiState == old(uiState).(loading := false) && reload == old(uiState).formId
      ensures r.Err? ==> uiState == old(uiState).(loading := false, error := Some(r.message.GetOr(fallback)))
                         && reload.None?
      ensures Valid()
    {
      if r.Ok? {
        uiState := uiState.(loading := false);
        reload := ReloadDetailInForm();
      } else {
        uiState := uiState.(loading := false, error := Some(r.message.GetOr(fallback)));
        reload := None;
      }
    }

    /** `moveImageUp`'s request; no loading state is shown. */
    method MoveImageUp(image: AdminProductImage) returns (req: ReorderRequest)
      requires IntMin <= image.orden <= IntMax
      ensures req.idImagen == image.id && req.orden == MoveUpOrden(image.orden)
      ensures req.orden >= 1
    {
      req := ReorderRequest(image.id, MoveUpOrden(image.orden));
    }

    /** `moveImageDown`'s request. */
    method MoveImageDown(image: AdminProductImage) returns (req: ReorderRequest)
      requires IntMin <= image.orden <= IntMax
      ensures req.idImagen == image.id && req.orden == MoveDownOrden(image.orden)
    {
      req := ReorderRequest(image.id, MoveDownOrden(image.orden));
    }

    /** `deleteImage`'s request: the image's own id. */
    method DeleteImage(image: AdminProductImage) returns (idImagen: int)
      ensures idImagen == image.id
    {
      idImagen := image.id;
    }

    /** The end of a reorder or an image deletion: success reloads the form's
        detail; failure shows the message or `fallback`, touching nothing else
        (there was no loading state). */
    method CompleteImageAction(r: Result<()>, fallback: string) returns (reload: Option<int>)
      requires Valid()
      modifies this
      ensures r.Ok? ==> uiState == old(uiState) && reload == old(uiState).formId
      ensures r.Err? ==> uiState == old(uiState).(error := Some(r.message.GetOr(fallback))) && reload.None?
      ensures Valid()
    {
      if r.Ok? {
        reload := ReloadDetailInForm();
      } else {
        uiState := uiState.(error := Some(r.message.GetOr(fallback)));
        reload := None;
      }
    }
  }
}
