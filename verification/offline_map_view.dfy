/** The list shown in place of the map while offline
    (components/map/OfflineMapView.tsx): the cached machines, narrowed to
    the selected category. */
module OfflineMapView {
  import opened Lists
  import opened Text
  import opened VendingMachineTypes
  import opened VendingMachineContext
  import opened CategoryMarker

  /** `selectedCategory && selectedCategory !== 'all'`: an absent or empty
      selection, or "all", selects nothing. */
  predicate CategorySelected(selected: Option<string>)
  {
    selected.Some? && selected.value != "" && selected.value != AllFilter
  }

  /** The machines listed: those of the selected category (compared without
      regard to case) when a category is selected, else the whole cache. */
  function OfflineFiltered(cached: seq<Machine>, selected: Option<string>): (r: seq<Machine>)
    ensures IsSubsequence(r, cached)
    ensures !CategorySelected(selected) ==> r == cached
    ensures CategorySelected(selected) ==> forall m :: m in r <==> m in cached && InCategory(m, selected.value)
    ensures CategorySelected(selected) ==>
              forall m :: multiset(r)[m] == if InCategory(m, selected.value) then multiset(cached)[m] else 0
  {
    if CategorySelected(selected) then SelectCategory(cached, selected.value)
    else
      assert IsSubsequence(cached, cached) by { SubsequenceReflexive(cached); }
      cached
  }

  lemma {:induction false} SubsequenceReflexive(s: seq<Machine>)
    ensures IsSubsequence(s, s)
  {
    if s != [] {
      SubsequenceReflexive(s[1..]);
    }
  }

  /** With a non-empty cache and a non-empty filter, the offline list shows
      exactly what the online list shows for the same filter. */
  lemma OfflineAgreesWithOnline(cached: seq<Machine>, filter: string, previous: seq<Machine>)
    requires cached != [] && filter != ""
    ensures OfflineFiltered(cached, Some(filter)) == FilteredView(cached, filter, previous)
  {
  }

  /** The one filter on which the two disagree: the empty string lists the
      whole cache offline but selects only machines without a category
      online, so none at all when every machine has one. */
  lemma EmptyFilterDiffers(cached: seq<Machine>, previous: seq<Machine>)
    requires cached != []
    requires forall m :: m in cached ==> m.category != ""
    ensures OfflineFiltered(cached, Some("")) == cached
    ensures FilteredView(cached, "", previous) == []
  {
  }

  /** The page's rendering: the header with the number of machines listed,
      and the empty-state message when there is none. */
  datatype Page = Page(header: string, emptyMessage: Option<string>, machines: seq<Machine>)

  const NoCategoryMatch: string := "Aucun distributeur de cette catégorie en cache"
  const NothingCached: string := "Aucun distributeur en cache"

  function Render(cached: seq<Machine>, selected: Option<string>): (p: Page)
    ensures p.machines == OfflineFiltered(cached, selected)
    ensures p.header == "Distributeurs en cache (" + DecimalString(|p.machines|) + ")"
    ensures p.emptyMessage.Some? <==> p.machines == []
    ensures p.emptyMessage == Some(NoCategoryMatch) <==> p.machines == [] && CategorySelected(selected)
    ensures p.machines == [] && !CategorySelected(selected) ==> p.emptyMessage == Some(NothingCached)
  {
    var shown := OfflineFiltered(cached, selected);
    Page(
      "Distributeurs en cache (" + DecimalString(|shown|) + ")",
      if shown != [] then None
      else if CategorySelected(selected) then Some(NoCategoryMatch)
      else Some(NothingCached),
      shown)
  }

  /** Without a selected category the empty state means the cache itself is
      empty. */
  lemma NothingCachedMeansEmptyCache(cached: seq<Machine>, selected: Option<string>)
    requires Render(cached, selected).emptyMessage == Some(NothingCached)
    ensures cached == [] && !CategorySelected(selected)
  {
  }

  /** The colour of a machine's category badge: the marker table's colour,
      with the theme's secondary colour (`secondary`) for unknown ones. */
  function BadgeColor(category: string, secondary: string): (r: string)
    ensures category in KnownCategories ==> r == CategoryColor(category)
    ensures category !in KnownCategories ==> r == secondary
  {
    LookupOr(ColorTable, category, secondary)
  }
}
