/** `CatalogViewModel`: the public catalog screen's state — the three filters,
    the page shown and the page count, the loaded items and the load status. */
module CatalogViewModel {
  import opened Common
  import opened Text
  import CatalogRepository

  type ProductoCatalogo = CatalogRepository.ProductoCatalogo

  datatype CatalogUiState = CatalogUiState(
    nombre: string, autor: string, categoria: string,
    page: int, totalPages: int,
    loading: bool, error: Option<string>, items: seq<ProductoCatalogo>)

  /** `CatalogUiState()` with its default values. */
  const DefaultState: CatalogUiState := CatalogUiState("", "", "", 1, 1, false, None, [])

  const UnknownError: string := "Error desconocido"

  /** The page `irPagina` loads: the request clamped to the pages that exist,
      counting an empty result as one page. */
  function TargetPage(requested: int, totalPages: int): (p: int)
    ensures 1 <= p <= CoerceAtLeast(totalPages, 1)
    ensures 1 <= requested <= totalPages ==> p == requested
    ensures requested < 1 ==> p == 1
    ensures requested > totalPages >= 1 ==> p == totalPages
    ensures totalPages < 1 ==> p == 1
  {
    CoerceIn(requested, 1, CoerceAtLeast(totalPages, 1))
  }

  /** The request a load of `page` sends, from the filters as typed; the
      repository leaves blank ones out. */
  function QueryFor(st: CatalogUiState, page: int): (q: CatalogRepository.CatalogQuery)
    ensures q.page == page
    ensures q.nombre.None? <==> IsBlank(st.nombre)
    ensures q.autor.None? <==> IsBlank(st.autor)
    ensures q.categoria.None? <==> IsBlank(st.categoria)
    ensures q.nombre.Some? ==> q.nombre.value == st.nombre
    ensures q.autor.Some? ==> q.autor.value == st.autor
    ensures q.categoria.Some? ==> q.categoria.value == st.categoria
  {
    CatalogRepository.CatalogQueryFor(page, Some(st.nombre), Some(st.autor), Some(st.categoria))
  }

  class CatalogViewModel {
    var uiState: CatalogUiState

    /** `init`: the default state, and the first page requested at once; the
        request sent is `QueryFor(uiState, 1)`. */
    constructor ()
      ensures uiState == DefaultState.(loading := true)
    {
      uiState := DefaultState.(loading := true, error := None);
    }

    /** `onNombreChange`: the filter as typed, and the error cleared. */
    method OnNombreChange(value: string)
      modifies this
      ensures uiState == old(uiState).(nombre := value, error := None)
    {
      uiState := uiState.(nombre := value, error := None);
    }

    /** `onAutorChange`. */
    method OnAutorChange(value: string)
      modifies this
      ensures uiState == old(uiState).(autor := value, error := None)
    {
      uiState := uiState.(autor := value, error := None);
    }

    /** `onCategoriaChange`. */
    method OnCategoriaChange(value: string)
      modifies this
      ensures uiState == old(uiState).(categoria := value, error := None)
    {
      uiState := uiState.(categoria := value, error := None);
    }

    /** The start of `loadPage(page)`: the status turns to loading with no
        error, and the request for `page` with the current filters goes out. */
    method LoadPage(page: int) returns (q: CatalogRepository.CatalogQuery)
      modifies this
      ensures uiState == old(uiState).(loading := true, error := None)
      ensures q == QueryFor(old(uiState), page)
    {
      uiState := uiState.(loading := true, error := None);
      q := QueryFor(uiState, page);
    }

    /** The end of `loadPage`: a page replaces page, page count and items
        together; a failure keeps all three and shows the exception's message
        (or "Error desconocido"). */
    method CompleteLoadPage(r: Result<Page<ProductoCatalogo>>)
      modifies this
      ensures r.Ok? ==> uiState == old(uiState).(loading := false, page := r.value.page,
                                                  totalPages := r.value.totalPages, items := r.value.items)
      ensures r.Err? ==> uiState == old(uiState).(loading := false, error := Some(r.message.GetOr(UnknownError)))
    {
      if r.Ok? {
        uiState := uiState.(loading := false, page := r.value.page, totalPages := r.value.totalPages, items := r.value.items);
      } else {
        uiState := uiState.(loading := false, error := Some(r.message.GetOr(UnknownError)));
      }
    }

    /** `buscar`: always the first page. */
    method Buscar() returns (q: CatalogRepository.CatalogQuery)
      modifies this
      ensures uiState == old(uiState).(loading := true, error := None)
      ensures q == QueryFor(old(uiState), 1) && q.page == 1
    {
      q := LoadPage(1);
    }

    /** `irPagina`: the requested page, clamped to `[1, max(totalPages, 1)]`. */
    method IrPagina(page: int) returns (q: CatalogRepository.CatalogQuery)
      modifies this
      ensures uiState == old(uiState).(loading := true, error := None)
      ensures q == QueryFor(old(uiState), TargetPage(page, old(uiState).totalPages))
      ensures 1 <= q.page <= CoerceAtLeast(old(uiState).totalPages, 1)
    {
      var p := TargetPage(page, uiState.totalPages);
      q := LoadPage(p);
    }
  }

  /** Paging never asks for a page before the first or past the last one the
      server announced, and asking again for the page reached changes nothing. */
  lemma TargetPageStable(requested: int, totalPages: int)
    ensures TargetPage(TargetPage(requested, totalPages), totalPages) == TargetPage(requested, totalPages)
    ensures totalPages >= 1 ==> 1 <= TargetPage(requested, totalPages) <= totalPages
  {
  }

  /** A search loads exactly what a fresh screen with the same filters would:
      only the filters matter, not the page shown, the items or an old error. */
  lemma SearchDependsOnlyOnFilters(a: CatalogUiState, b: CatalogUiState)
    requires a.nombre == b.nombre && a.autor == b.autor && a.categoria == b.categoria
    ensures QueryFor(a, 1) == QueryFor(b, 1)
  {
  }
}
