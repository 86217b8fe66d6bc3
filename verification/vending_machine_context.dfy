/** The machine repository (contexts/VendingMachineContext.tsx): the
    in-memory machine list, the category-filtered view, the signed-in user's
    favourite ids and the machines they select. Fetches choose between the
    built-in sample list (standing for the remote source) and the offline
    cache according to the connectivity flag of `NetworkState`. */
module VendingMachineContext {
  import opened Lists
  import opened Text
  import opened VendingMachineTypes
  import opened KeyValue
  import opened NetworkContext

  /** The filter value that shows every machine. */
  const AllFilter: string := "all"
  const DefaultImageUrl: string := "https://images.pexels.com/photos/1855214/pexels-photo-1855214.jpeg"
  const OfflineAddError: string := "Impossible d'ajouter un distributeur en mode hors ligne"

  /** The sample machines returned while connected. */
  const MockMachines: seq<Machine> := [
    Machine("1", "Distributeur de pain Boulangerie Martin", "123 Rue de Paris, 75001 Paris",
            "Distributeur de baguettes traditionnelles et pains spéciaux. Approvisionné tous les jours par la Boulangerie Martin.",
            "Pain", 2.5, "https://images.pexels.com/photos/1855214/pexels-photo-1855214.jpeg",
            48.856614, 2.352222, 4.5, 32),
    Machine("2", "Pizz'Automat", "45 Avenue Victor Hugo, 69002 Lyon",
            "Pizzas artisanales cuites sur place. 6 variétés disponibles. Paiement par carte bancaire uniquement.",
            "Pizza", 12.0, "https://images.pexels.com/photos/3915857/pexels-photo-3915857.jpeg",
            45.751688, 4.835797, 4.2, 18),
    Machine("3", "La Ferme Locale - Distributeur de lait", "78 Route des Vignes, 33000 Bordeaux",
            "Lait frais non pasteurisé directement de notre ferme. Apportez votre bouteille ou achetez-en une sur place.",
            "Lait", 1.8, "https://images.pexels.com/photos/2506560/pexels-photo-2506560.jpeg",
            44.837789, -0.579180, 4.8, 45),
    Machine("4", "Fleurs 24/7", "15 Place du Marché, 31000 Toulouse",
            "Bouquets de fleurs fraîches. Idéal pour un cadeau de dernière minute. Compositions florales renouvelées deux fois par semaine.",
            "Fleurs", 15.0, "https://images.pexels.com/photos/2111192/pexels-photo-2111192.jpeg",
            43.604462, 1.444247, 4.0, 12),
    Machine("5", "Oeufs de la Ferme Durand", "256 Chemin Rural, 59000 Lille",
            "Oeufs bio de poules élevées en plein air. Approvisionnement quotidien.",
            "Oeufs", 4.5, "https://images.pexels.com/photos/6045020/pexels-photo-6045020.jpeg",
            50.629250, 3.057256, 4.7, 28),
    Machine("6", "Le Panier Local", "42 Rue du Commerce, 44000 Nantes",
            "Produits frais locaux: légumes, fruits, miel, confitures. Les produits varient selon la saison.",
            "Produits locaux", 8.0, "https://images.pexels.com/photos/264537/pexels-photo-264537.jpeg",
            47.218371, -1.553621, 4.6, 37)
  ]

  /** The storage key of one user's favourite ids. */
  function UserFavoritesKey(userId: string): string
  {
    "favorites-" + userId
  }

  /** The per-user favourites key is not one of the cache keys, so clearing
      the cache leaves every user's favourites in the store. */
  lemma ClearCacheKeepsUserFavorites(entries: map<string, Stored>, userId: string)
    ensures UserFavoritesKey(userId) !in CacheKeys
    ensures UserFavoritesKey(userId) in entries ==>
              UserFavoritesKey(userId) in entries - CacheKeys &&
              (entries - CacheKeys)[UserFavoritesKey(userId)] == entries[UserFavoritesKey(userId)]
  {
    var key := UserFavoritesKey(userId);
    assert key[0] == 'f';
    assert FavoritesKey[0] == 'c' && VendingMachinesKey[0] == 'c' && UserLocationKey[0] == 'c';
    assert LastSyncKey[0] == 'l';
  }

  /** The favourite ids stored for a user, if any. */
  function StoredFavorites(entries: map<string, Stored>, userId: string): Option<seq<string>>
  {
    var key := UserFavoritesKey(userId);
    if key in entries && entries[key].IdList? then Some(entries[key].ids) else None
  }

  /** The filter effect: with a non-empty list the view is recomputed from
      the list and the filter; with an empty list the previous view stays. */
  function FilteredView(machines: seq<Machine>, filter: string, previous: seq<Machine>): (r: seq<Machine>)
    ensures machines == [] ==> r == previous
    ensures machines != [] && filter == AllFilter ==> r == machines
    ensures machines != [] && filter != AllFilter ==>
              (forall m :: m in r <==> m in machines && InCategory(m, filter)) && IsSubsequence(r, machines)
    ensures machines != [] && filter != AllFilter ==>
              forall m :: multiset(r)[m] == if InCategory(m, filter) then multiset(machines)[m] else 0
  {
    if |machines| > 0 then
      if filter == AllFilter then machines else SelectCategory(machines, filter)
    else previous
  }

  /** The categories of the sample list, in order. */
  const SampleCategories: seq<string> := ["Pain", "Pizza", "Lait", "Fleurs", "Oeufs", "Produits locaux"]

  predicate HasSampleCategories(ms: seq<Machine>)
  {
    |ms| == 6 && forall i :: 0 <= i < 6 ==> ms[i].category == SampleCategories[i]
  }

  lemma MockMachinesCategories()
    ensures HasSampleCategories(MockMachines)
  {
  }

  /** No sample category lower-cases to the filter bar's id
      `produits-locaux`: the only one of that length has a space where the id
      has a hyphen. */
  lemma NoSampleCategoryIsProduitsLocauxId(c: string)
    requires c in SampleCategories
    ensures Lower(c) != Lower("produits-locaux")
  {
    if |c| == 15 {
      assert c == "Produits locaux";
      LowerDiffersAt(c, "produits-locaux", 8);
    }
  }

  /** The filter bar emits the id `produits-locaux`, which differs from the
      lower-cased category `produits locaux` (hyphen against space), so that
      filter selects nothing from the sample list. */
  lemma ProduitsLocauxFilterSelectsNothing(ms: seq<Machine>)
    requires HasSampleCategories(ms)
    ensures FilteredView(ms, "produits-locaux", []) == []
  {
    forall m | m in ms ensures !InCategory(m, "produits-locaux") {
      var i :| 0 <= i < |ms| && ms[i] == m;
      assert m.category in SampleCategories;
      NoSampleCategoryIsProduitsLocauxId(m.category);
    }
  }

  /** No sample machine before the last matches `Produits locaux`: their
      categories are all shorter. */
  lemma NoEarlierSampleIsProduitsLocaux(ms: seq<Machine>)
    requires HasSampleCategories(ms)
    ensures SelectCategory(ms[..5], "Produits locaux") == []
  {
    forall m | m in ms[..5] ensures !InCategory(m, "Produits locaux") {
      var i :| 0 <= i < 5 && ms[i] == m;
      assert |Lower(m.category)| != |Lower("Produits locaux")|;
    }
    FilterRejectsAll(ms[..5], m => InCategory(m, "Produits locaux"));
  }

  /** The category's own name does select the sample machine of that
      category. */
  lemma ProduitsLocauxNameSelectsSample(ms: seq<Machine>)
    requires HasSampleCategories(ms)
    ensures FilteredView(ms, "Produits locaux", []) == [ms[5]]
  {
    assert ms == ms[..5] + [ms[5]];
    SelectCategoryAppend(ms[..5], [ms[5]], "Produits locaux");
    NoEarlierSampleIsProduitsLocaux(ms);
    FilterKeepsAll([ms[5]], m => InCategory(m, "Produits locaux"));
  }

  /** The category `Pain` matches the filter bar's id `pain`. */
  lemma PainMatchesPainId(m: Machine)
    requires m.category == "Pain"
    ensures SelectCategory([m], "pain") == [m]
  {
    assert forall i :: 0 <= i < 4 ==> LowerChar("Pain"[i]) == LowerChar("pain"[i]);
    assert InCategory(m, "pain");
    FilterKeepsAll([m], m => InCategory(m, "pain"));
  }

  /** No other sample category matches `pain`. */
  lemma OnlyFirstSampleIsPain(ms: seq<Machine>)
    requires HasSampleCategories(ms)
    ensures SelectCategory(ms[1..], "pain") == []
  {
    forall m | m in ms[1..] ensures !InCategory(m, "pain") {
      var i :| 1 <= i < 6 && ms[i] == m;
      if i == 2 {
        LowerDiffersAt(m.category, "pain", 0);
      } else {
        assert |m.category| != 4;
      }
    }
    FilterRejectsAll(ms[1..], m => InCategory(m, "pain"));
  }

  /** The filter ids of the other categories do select their machine:
      `pain` selects exactly the first sample machine. */
  lemma LowerCaseFilterSelectsSample(ms: seq<Machine>)
    requires HasSampleCategories(ms)
    ensures FilteredView(ms, "pain", []) == [ms[0]]
  {
    assert ms == [ms[0]] + ms[1..];
    SelectCategoryAppend([ms[0]], ms[1..], "pain");
    PainMatchesPainId(ms[0]);
    OnlyFirstSampleIsPain(ms);
  }

  /** `newFavorites` in `toggleFavorite`: every occurrence of `id` removed
      when present, otherwise `id` appended at the end. */
  function Toggled(favorites: seq<string>, id: string): (r: seq<string>)
    ensures id in r <==> id !in favorites
    ensures forall x :: x != id ==> (x in r <==> x in favorites)
    ensures id in favorites ==> IsSubsequence(r, favorites)
    ensures id in favorites ==> forall x :: multiset(r)[x] == if x == id then 0 else multiset(favorites)[x]
    ensures id !in favorites ==> r == favorites + [id]
    ensures NoDuplicates(favorites) ==> NoDuplicates(r)
  {
    if id in favorites then
      FilterIsSubsequence(favorites, f => f != id);
      Filter(favorites, f => f != id)
    else
      var r := favorites + [id];
      assert forall x :: multiset(r)[x] == multiset(favorites)[x] + if x == id then 1 else 0;
      r
  }

  /** Toggling the same id twice restores membership of every id. */
  lemma ToggleTwiceRestoresMembership(favorites: seq<string>, id: string)
    ensures forall x :: x in Toggled(Toggled(favorites, id), id) <==> x in favorites
  {
  }

  /** Toggling twice restores membership but not the list itself: the id
      comes back at the end. */
  lemma ToggleTwiceMayReorder()
    ensures Toggled(Toggled(["3", "1"], "3"), "3") == ["1", "3"]
  {
  }

  /** The favourites view: the machines whose id is a favourite, in the order
      of the machine list. */
  function FavoriteMachines(machines: seq<Machine>, favorites: seq<string>): (r: seq<Machine>)
    ensures forall m :: m in r <==> m in machines && m.id in favorites
    ensures forall m :: multiset(r)[m] == if m.id in favorites then multiset(machines)[m] else 0
    ensures IsSubsequence(r, machines)
  {
    FilterIsSubsequence(machines, (m: Machine) => m.id in favorites);
    Filter(machines, (m: Machine) => m.id in favorites)
  }

  /** After a toggle the view gains or loses exactly the machines carrying
      the toggled id. */
  lemma ToggledFavoriteMachines(machines: seq<Machine>, favorites: seq<string>, id: string)
    ensures forall m :: m in FavoriteMachines(machines, Toggled(favorites, id)) <==>
              m in machines && (if m.id == id then id !in favorites else m.id in favorites)
  {
  }

  /** The machine created by `addVendingMachine`: the draft's fields, a fresh
      id, no rating and no reviews yet, and the picked image or the default
      image when none (or an empty URI) was picked. */
  function NewMachine(draft: Draft, id: string): (m: Machine)
    ensures m.id == id && m.rating == 0.0 && m.reviewCount == 0
    ensures m.name == draft.name && m.address == draft.address && m.description == draft.description
    ensures m.category == draft.category && m.averagePrice == draft.averagePrice
    ensures m.latitude == draft.latitude && m.longitude == draft.longitude
    ensures draft.imageUri.Some? && draft.imageUri.value != "" ==> m.imageUrl == draft.imageUri.value
    ensures draft.imageUri.None? || draft.imageUri == Some("") ==> m.imageUrl == DefaultImageUrl
  {
    var imageUrl := if draft.imageUri.Some? && draft.imageUri.value != "" then draft.imageUri.value
                    else DefaultImageUrl;
    Machine(id, draft.name, draft.address, draft.description, draft.category, draft.averagePrice,
            imageUrl, draft.latitude, draft.longitude, 0.0, 0)
  }

  class MachineRepository {
    const network: NetworkState
    /** The list the remote source answers with (the sample list). */
    const remote: seq<Machine>
    var user: Option<string>
    var vendingMachines: seq<Machine>
    var filteredMachines: seq<Machine>
    var favorites: seq<string>
    var favoriteVendingMachines: seq<Machine>
    var currentFilter: string
    var loading: bool

    /** The provider's initial state: nothing loaded, filter `all`, no user. */
    constructor (network: NetworkState)
      ensures this.network == network && remote == MockMachines && user == None
      ensures vendingMachines == [] && filteredMachines == []
      ensures favorites == [] && favoriteVendingMachines == []
      ensures currentFilter == AllFilter && !loading
    {
      this.network := network;
      remote := MockMachines;
      user := None;
      vendingMachines := [];
      filteredMachines := [];
      favorites := [];
      favoriteVendingMachines := [];
      currentFilter := AllFilter;
      loading := false;
    }

    /** The user-change effect: signing out empties the favourites and their
        view; signing in loads the user's stored favourites. */
    method OnUserChange(newUser: Option<string>, readOk: bool)
      modifies this`user, this`favorites, this`favoriteVendingMachines
      ensures user == newUser
      ensures newUser.None? ==> favorites == [] && favoriteVendingMachines == []
      ensures newUser.Some? ==> LoadedFavorites(old(favorites), old(favoriteVendingMachines), readOk)
    {
      user := newUser;
      if newUser.None? {
        favorites := [];
        favoriteVendingMachines := [];
      } else {
        LoadFavorites(readOk);
      }
    }

    /** The state `loadFavorites` leaves behind, given the state before. */
    ghost predicate LoadedFavorites(favorites0: seq<string>, view0: seq<Machine>, readOk: bool)
      reads this, network, network.store
      requires user.Some?
    {
      var stored := StoredFavorites(network.store.entries, user.value);
      if readOk && stored.Some? then
        favorites == stored.value &&
        favoriteVendingMachines == (if |vendingMachines| > 0 then FavoriteMachines(vendingMachines, stored.value) else view0)
      else
        favorites == favorites0 && favoriteVendingMachines == view0
    }

    /** `loadFavorites`: read the user's stored ids; the view is refreshed
        only when machines are already loaded. A failed read changes nothing. */
    method LoadFavorites(readOk: bool)
      modifies this`favorites, this`favoriteVendingMachines
      ensures user.None? ==> favorites == old(favorites) && favoriteVendingMachines == old(favoriteVendingMachines)
      ensures user.Some? ==> LoadedFavorites(old(favorites), old(favoriteVendingMachines), readOk)
    {
      if user.None? {
        return;
      }
      if !readOk {
        return;
      }
      var stored := network.store.GetItem(UserFavoritesKey(user.value));
      if stored.Some? && stored.value.IdList? {
        favorites := stored.value.ids;
        if |vendingMachines| > 0 {
          favoriteVendingMachines := FavoriteMachines(vendingMachines, stored.value.ids);
        }
      }
    }

    /** `getVendingMachines`: connected, the remote list is loaded and
        written through to the cache; offline, the cached list is loaded.
        The filter effect then runs and loading ends in every case. */
    method GetVendingMachines(now: int, listWriteOk: bool, stampWriteOk: bool, readOk: bool)
      returns (machines: seq<Machine>)
      modifies this`vendingMachines, this`filteredMachines, this`loading
      modifies network`cachedMachines, network`lastSyncTime, network.store
      ensures vendingMachines == machines && !loading
      ensures filteredMachines == FilteredView(machines, currentFilter, old(filteredMachines))
      ensures network.isConnected ==>
                machines == remote &&
                network.store.entries == AfterCacheWrite(old(network.store.entries), remote, now, listWriteOk, stampWriteOk) &&
                network.cachedMachines == (if listWriteOk && stampWriteOk then remote else old(network.cachedMachines)) &&
                network.lastSyncTime == (if listWriteOk && stampWriteOk then Some(now) else old(network.lastSyncTime))
      ensures !network.isConnected ==>
                machines == (if readOk then StoredMachines(old(network.store.entries)) else []) &&
                network.store.entries == old(network.store.entries) &&
                network.cachedMachines == old(network.cachedMachines) &&
                network.lastSyncTime == old(network.lastSyncTime)
    {
      loading := true;
      if network.isConnected {
        vendingMachines := remote;
        network.CacheVendingMachines(remote, now, listWriteOk, stampWriteOk);
        machines := remote;
      } else {
        machines := network.GetCachedMachines(readOk);
        vendingMachines := machines;
      }
      loading := false;
      filteredMachines := FilteredView(vendingMachines, currentFilter, filteredMachines);
    }

    /** `getVendingMachineById`: the first machine with that id in the remote
        list when connected, in the cached list otherwise; none when absent. */
    method GetVendingMachineById(id: string, readOk: bool) returns (r: Option<Machine>)
      ensures network.isConnected ==> r == FindById(remote, id)
      ensures !network.isConnected ==> r == FindById(if readOk then StoredMachines(network.store.entries) else [], id)
      ensures r.Some? ==> r.value.id == id
    {
      if network.isConnected {
        r := FindById(remote, id);
      } else {
        var cached := network.GetCachedMachines(readOk);
        r := FindById(cached, id);
      }
    }

    /** `addVendingMachine`: offline it throws before touching anything;
        otherwise the new machine is put at the head of the list and the
        whole list is written through to the cache. The user is not checked. */
    method AddVendingMachine(draft: Draft, newId: string, now: int, listWriteOk: bool, stampWriteOk: bool)
      returns (error: Option<string>)
      modifies this`vendingMachines, this`filteredMachines, this`loading
      modifies network`cachedMachines, network`lastSyncTime, network.store
      ensures !network.isConnected ==>
                error == Some(OfflineAddError) &&
                vendingMachines == old(vendingMachines) && filteredMachines == old(filteredMachines) &&
                loading == old(loading) &&
                network.store.entries == old(network.store.entries) &&
                network.cachedMachines == old(network.cachedMachines) &&
                network.lastSyncTime == old(network.lastSyncTime)
      ensures network.isConnected ==>
                error == None && !loading &&
                vendingMachines == [NewMachine(draft, newId)] + old(vendingMachines) &&
                filteredMachines == FilteredView(vendingMachines, currentFilter, old(filteredMachines)) &&
                network.store.entries == AfterCacheWrite(old(network.store.entries), vendingMachines, now, listWriteOk, stampWriteOk) &&
                network.cachedMachines == (if listWriteOk && stampWriteOk then vendingMachines else old(network.cachedMachines)) &&
                network.lastSyncTime == (if listWriteOk && stampWriteOk then Some(now) else old(network.lastSyncTime))
    {
      if !network.isConnected {
        return Some(OfflineAddError);
      }
      loading := true;
      var machine := NewMachine(draft, newId);
      vendingMachines := [machine] + vendingMachines;
      network.CacheVendingMachines(vendingMachines, now, listWriteOk, stampWriteOk);
      loading := false;
      filteredMachines := FilteredView(vendingMachines, currentFilter, filteredMachines);
      error := None;
    }

    /** `toggleFavorite`: without a user nothing happens; otherwise the id's
        membership flips, the new list is saved under the user's key (a failed
        save is swallowed) and the view is recomputed. */
    method ToggleFavorite(id: string, writeOk: bool)
      modifies this`favorites, this`favoriteVendingMachines, network.store
      ensures user.None? ==>
                favorites == old(favorites) && favoriteVendingMachines == old(favoriteVendingMachines) &&
                network.store.entries == old(network.store.entries)
      ensures user.Some? ==>
                favorites == Toggled(old(favorites), id) &&
                favoriteVendingMachines == FavoriteMachines(vendingMachines, favorites) &&
                network.store.entries ==
                  if writeOk then old(network.store.entries)[UserFavoritesKey(user.value) := IdList(favorites)]
                  else old(network.store.entries)
      ensures user.Some? ==> (id in favorites <==> id !in old(favorites))
    {
      if user.None? {
        return;
      }
      var newFavorites := Toggled(favorites, id);
      favorites := newFavorites;
      network.store.SetItem(UserFavoritesKey(user.value), IdList(newFavorites), writeOk);
      favoriteVendingMachines := FavoriteMachines(vendingMachines, newFavorites);
    }

    /** `isFavorite`: membership in the in-memory list, without side effects. */
    method IsFavorite(id: string) returns (b: bool)
      ensures b <==> id in favorites
    {
      b := id in favorites;
    }

    /** `getFavorites`: recompute the view from the current list and ids. */
    method GetFavorites()
      modifies this`favoriteVendingMachines
      ensures user.None? ==> favoriteVendingMachines == old(favoriteVendingMachines)
      ensures user.Some? ==> favoriteVendingMachines == FavoriteMachines(vendingMachines, favorites)
    {
      if user.None? {
        return;
      }
      favoriteVendingMachines := FavoriteMachines(vendingMachines, favorites);
    }

    /** `setFilter`, followed by the filter effect. */
    method SetFilter(category: string)
      modifies this`currentFilter, this`filteredMachines
      ensures currentFilter == category
      ensures filteredMachines == FilteredView(vendingMachines, category, old(filteredMachines))
    {
      currentFilter := category;
      filteredMachines := FilteredView(vendingMachines, currentFilter, filteredMachines);
    }
  }

  /** Scenario: a signed-in user with no favourites toggles machine `3`
      twice; the view shows it, then is empty again. */
  method ToggleScenario(repository: MachineRepository, m: Machine)
    requires repository.user == Some("u") && repository.favorites == []
    requires m in repository.vendingMachines && m.id == "3"
    modifies repository, repository.network.store
    ensures repository.favorites == [] && repository.favoriteVendingMachines == []
  {
    repository.ToggleFavorite("3", true);
    assert repository.favorites == ["3"];
    assert m in repository.favoriteVendingMachines;
    var b := repository.IsFavorite("3");
    assert b;
    repository.ToggleFavorite("3", true);
    assert repository.favorites == [];
    assert repository.favoriteVendingMachines == [];
  }
}
