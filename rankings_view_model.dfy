/** `RankingsViewModel`: three ranking tabs (most bought products, best
    buyers, best rated products), each with its own page, items and load
    status, and the tab selected. */
module RankingsViewModel {
  import opened Common
  import opened RankingRepository

  datatype RankingTab = ProductosMasComprados | MejoresCompradores | ProductosMejorCalificados

  datatype RankingTabState<T> = RankingTabState(items: seq<T>, page: int, totalPages: int, loading: bool, error: Option<string>)

  datatype RankingsUiState = RankingsUiState(
    selectedTab: RankingTab,
    pmc: RankingTabState<ProductoMasComprado>,
    mc: RankingTabState<MejorComprador>,
    pmcal: RankingTabState<ProductoMejorCalificado>)

  const UnknownError: string := "Error desconocido"

  /** `RankingTabState()`: nothing loaded yet. */
  function EmptyTab<T>(): RankingTabState<T> {
    RankingTabState([], 1, 1, false, None)
  }

  /** `RankingsUiState()`: the first tab selected, nothing loaded (nothing is
      loaded until a tab is selected). */
  const DefaultState: RankingsUiState := RankingsUiState(ProductosMasComprados, EmptyTab(), EmptyTab(), EmptyTab())

  /** The first step of a tab's load. */
  function Started<T>(t: RankingTabState<T>): (s: RankingTabState<T>)
    ensures s.loading && s.error.None?
    ensures s.items == t.items && s.page == t.page && s.totalPages == t.totalPages
  {
    t.(loading := true, error := None)
  }

  /** The last step of a tab's load: a page replaces items, page and count
      together; a failure keeps all three and records its message. */
  function Finished<T>(t: RankingTabState<T>, r: Result<Page<T>>): (s: RankingTabState<T>)
    ensures !s.loading
    ensures r.Ok? ==> s.items == r.value.items && s.page == r.value.page
                      && s.totalPages == r.value.totalPages && s.error == t.error
    ensures r.Err? ==> s.items == t.items && s.page == t.page && s.totalPages == t.totalPages
                       && s.error == Some(r.message.GetOr(UnknownError))
  {
    if r.Ok? then t.(items := r.value.items, page := r.value.page, totalPages := r.value.totalPages, loading := false)
    else t.(loading := false, error := Some(r.message.GetOr(UnknownError)))
  }

  /** A whole load: it ends not loading; a success shows the new page with no
      error, a failure shows an error over the items it had. */
  lemma LoadCycle<T>(t: RankingTabState<T>, r: Result<Page<T>>)
    ensures !Finished(Started(t), r).loading
    ensures r.Ok? ==> Finished(Started(t), r) == RankingTabState(r.value.items, r.value.page, r.value.totalPages, false, None)
    ensures r.Err? ==> Finished(Started(t), r) == t.(loading := false, error := Some(r.message.GetOr(UnknownError)))
  {
  }

  class RankingsViewModel {
    var uiState: RankingsUiState

    constructor ()
      ensures uiState == DefaultState
    {
      uiState := DefaultState;
    }

    /** `selectTab`: the tab becomes the selected one, and its first page is
        requested only if it has no items (never loaded, or loaded empty). */
    method SelectTab(tab: RankingTab) returns (load: Option<int>)
      modifies this
      ensures uiState.selectedTab == tab
      ensures tab.ProductosMasComprados? ==>
                (old(uiState).pmc.items == [] <==> load == Some(1))
                && uiState == old(uiState).(selectedTab := tab,
                                           pmc := if load.Some? then Started(old(uiState).pmc) else old(uiState).pmc)
      ensures tab.MejoresCompradores? ==>
                (old(uiState).mc.items == [] <==> load == Some(1))
                && uiState == old(uiState).(selectedTab := tab,
                                           mc := if load.Some? then Started(old(uiState).mc) else old(uiState).mc)
      ensures tab.ProductosMejorCalificados? ==>
                (old(uiState).pmcal.items == [] <==> load == Some(1))
                && uiState == old(uiState).(selectedTab := tab,
                                           pmcal := if load.Some? then Started(old(uiState).pmcal) else old(uiState).pmcal)
      ensures load.None? || load == Some(1)
    {
      uiState := uiState.(selectedTab := tab);
      load := None;
      match tab {
        case ProductosMasComprados =>
          if uiState.pmc.items == [] {
            load := LoadPMC(1);
          }
        case MejoresCompradores =>
          if uiState.mc.items == [] {
            load := LoadMC(1);
          }
        case ProductosMejorCalificados =>
          if uiState.pmcal.items == [] {
            load := LoadPMCal(1);
          }
      }
    }

    /** The start of `loadPMC(page)`: only the most-bought tab changes. */
    method LoadPMC(page: int) returns (requested: Option<int>)
      modifies this
      ensures uiState == old(uiState).(pmc := Started(old(uiState).pmc))
      ensures requested == Some(page)
    {
      uiState := uiState.(pmc := Started(uiState.pmc));
      requested := Some(page);
    }

    /** The end of `loadPMC`. */
    method CompleteLoadPMC(r: Result<Page<ProductoMasComprado>>)
      modifies this
      ensures uiState == old(uiState).(pmc := Finished(old(uiState).pmc, r))
    {
      uiState := uiState.(pmc := Finished(uiState.pmc, r));
    }

    /** The start of `loadMC(page)`: only the best-buyers tab changes. */
    method LoadMC(page: int) returns (requested: Option<int>)
      modifies this
      ensures uiState == old(uiState).(mc := Started(old(uiState).mc))
      ensures requested == Some(page)
    {
      uiState := uiState.(mc := Started(uiState.mc));
      requested := Some(page);
    }

    /** The end of `loadMC`. */
    method CompleteLoadMC(r: Result<Page<MejorComprador>>)
      modifies this
      ensures uiState == old(uiState).(mc := Finished(old(uiState).mc, r))
    {
      uiState := uiState.(mc := Finished(uiState.mc, r));
    }

    /** The start of `loadPMCal(page)`: only the best-rated tab changes. */
    method LoadPMCal(page: int) returns (requested: Option<int>)
      modifies this
      ensures uiState == old(uiState).(pmcal := Started(old(uiState).pmcal))
      ensures requested == Some(page)
    {
      uiState := uiState.(pmcal := Started(uiState.pmcal));
      requested := Some(page);
    }

    /** The end of `loadPMCal`. */
    method CompleteLoadPMCal(r: Result<Page<ProductoMejorCalificado>>)
      modifies this
      ensures uiState == old(uiState).(pmcal := Finished(old(uiState).pmcal, r))
    {
      uiState := uiState.(pmcal := Finished(uiState.pmcal, r));
    }
  }
}
