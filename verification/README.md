# VendingFinder: offline-aware machine store

A Dafny model of the state and helpers behind VendingFinder, a mobile app that lists vending machines for bread, pizza, milk, flowers, eggs and local produce. The model covers:

- **The machine repository** (`VendingMachineContext`). It holds the machine list, the category-filtered view and the signed-in user's favourite ids with the machines they select. Fetches read the remote list while connected and the offline cache otherwise. The remote list is the built-in sample list.
- **The offline cache** (`NetworkContext`). The machine list and a sync stamp are written through to a key-value store under fixed keys. The cache can be read back with an empty default and cleared. The connectivity flag and the derived offline mode live here too.
- **Notification bookkeeping** (`NotificationContext`). It keeps the unread counter, which never goes negative, and the notification preferences. A partial update is merged in and committed only when the backend accepts it.
- **Pure helpers**:
  - the age label of the last synchronisation and the offline banner (`OfflineBanner`);
  - the unread badge (`NotificationBadge`);
  - share text, deep links and the share request (`ShareUtils`);
  - the category colour and icon tables (`CategoryMarker`);
  - the offline list view (`OfflineMapView`).

The device's storage is `KeyValue.KeyValueStore`, one shared object holding a `map` from keys to already-parsed records. `NetworkState` and `MachineRepository` are classes whose fields are the providers' state. Their methods change those fields and the store as the source does.

Everything outside the program is a parameter of the operation that uses it:

- whether a storage read or write succeeds;
- the backend's reply;
- the connectivity event;
- the current time in milliseconds;
- the new machine's id;
- the platform;
- how the share sheet ended.

Generic list operations are in `Lists`: a filter with its subsequence and multiset laws, and a first-match search. `Text` holds lower-casing, decimal rendering of naturals with its inverse, and JavaScript's `||` on strings.

Some properties this model proves:

- Filtering by category keeps list order and multiplicities, ignores case, is idempotent, and distributes over concatenation.
- The filter bar's id `produits-locaux` selects nothing from the sample list. Its name `Produits locaux`, and the id `pain`, do select their machine.
- Toggling a favourite flips exactly that id's membership and keeps the list duplicate-free. Toggling twice restores membership but can reorder the list.
- The offline list agrees with the online filtered view for every non-empty cache and non-empty filter. It differs for the empty filter.
- Clearing the cache removes exactly the four cache keys and leaves every `favorites-<user>` record in place.
- Once the list write succeeds, reading the cache back gives exactly the list written.
- The unread counter stays non-negative over any sequence of events. Without backend loads, it is bracketed by the counts of received notifications and successful mark-reads.
- Each label of the last-sync age corresponds to an interval of the raw millisecond difference.
- A deep link determines its machine id. The share request carries the link on every platform.

Three behaviours of the code that a reader might not expect:

- `cacheVendingMachines` makes two separate writes. When the list write succeeds and the stamp write fails, the new list is stored without a new stamp and the in-memory mirror keeps its old values. The write is not atomic.
- `clearCache` removes `cached_favorites`, a key nothing writes. Favourites are stored under `favorites-<userId>` and survive a clear.
- `addVendingMachine` checks connectivity only, never the user.

## Model

| member | source | states |
|---|---|---|
| VendingMachineTypes.InCategory | contexts/VendingMachineContext.tsx:135 | a machine is in the category it is named by; a match needs a category of the filter's length |
| VendingMachineTypes.SelectCategory | contexts/VendingMachineContext.tsx:133-137 | the view holds exactly the machines whose lower-cased category equals the lower-cased filter, each as often as in the list, and is a subsequence of the list (list order kept) |
| VendingMachineTypes.SelectCategoryIdempotent | contexts/VendingMachineContext.tsx:133-137 | filtering the filtered view again by the same category changes nothing |
| VendingMachineTypes.SelectCategoryIgnoresCase | contexts/VendingMachineContext.tsx:135 | a filter and its lower-cased form select the same machines |
| VendingMachineTypes.SelectCategoryAppend | contexts/VendingMachineContext.tsx:134-136 | filtering a concatenation is the concatenation of the filtered parts, so a prepended machine enters the view at its head iff it matches |
| VendingMachineTypes.FindById | contexts/VendingMachineContext.tsx:223-228 | none iff no machine has the id; otherwise a machine of the list with that id, and no earlier machine has it (the first match) |
| VendingMachineContext.ClearCacheKeepsUserFavorites | contexts/NetworkContext.tsx:95-100 | `favorites-<user>` is not a cache key, so removing the cache keys keeps every user's stored favourites unchanged |
| VendingMachineContext.FilteredView | contexts/VendingMachineContext.tsx:128-140 | empty list: previous view kept; filter `all`: the whole list; otherwise the case-insensitive category matches, each as often as in the list, in list order |
| VendingMachineContext.MockMachinesCategories | contexts/VendingMachineContext.tsx:8-87 | the sample list has six machines with categories Pain, Pizza, Lait, Fleurs, Oeufs, Produits locaux in that order |
| VendingMachineContext.NoSampleCategoryIsProduitsLocauxId | components/filters/FilterBar.tsx:12 | no sample category lower-cases to the filter id `produits-locaux` |
| VendingMachineContext.ProduitsLocauxFilterSelectsNothing | components/filters/FilterBar.tsx:12 | over a list with the sample categories, the filter id `produits-locaux` gives an empty view |
| VendingMachineContext.NoEarlierSampleIsProduitsLocaux | contexts/VendingMachineContext.tsx:8-87 | no sample machine before the last matches the category name `Produits locaux` |
| VendingMachineContext.ProduitsLocauxNameSelectsSample | contexts/VendingMachineContext.tsx:79 | the category name `Produits locaux` selects exactly the sixth sample machine |
| VendingMachineContext.PainMatchesPainId | components/filters/FilterBar.tsx:7 | a machine of category `Pain` is kept by the filter id `pain` |
| VendingMachineContext.OnlyFirstSampleIsPain | components/filters/FilterBar.tsx:7 | no sample machine after the first matches `pain` |
| VendingMachineContext.LowerCaseFilterSelectsSample | components/filters/FilterBar.tsx:7 | the filter id `pain` selects exactly the first sample machine |
| VendingMachineContext.Toggled | contexts/VendingMachineContext.tsx:286-292 | the id is in the result iff it was not in the list; every other id keeps its membership; a removal drops every occurrence of the id and keeps every other id as often as before, in order; an addition appends the id at the end; no duplicates are introduced |
| VendingMachineContext.ToggleTwiceRestoresMembership | contexts/VendingMachineContext.tsx:286-292 | toggling the same id twice gives back the same set of ids |
| VendingMachineContext.ToggleTwiceMayReorder | contexts/VendingMachineContext.tsx:286-292 | toggling twice need not give back the same list: `["3","1"]` becomes `["1","3"]` |
| VendingMachineContext.FavoriteMachines | contexts/VendingMachineContext.tsx:299-301 | exactly the machines whose id is a favourite, each as often as in the machine list, as a subsequence of it |
| VendingMachineContext.ToggledFavoriteMachines | contexts/VendingMachineContext.tsx:286-302 | after a toggle the view gains or loses exactly the machines carrying the toggled id |
| VendingMachineContext.NewMachine | contexts/VendingMachineContext.tsx:249-263 | the new machine copies the form fields, has the given id, rating 0 and no reviews; its image is the picked URI when that is non-empty, the default image otherwise |
| VendingMachineContext.MachineRepository.constructor | contexts/VendingMachineContext.tsx:120-125 | empty list, view and favourites, filter `all`, not loading |
| VendingMachineContext.MachineRepository.OnUserChange | contexts/VendingMachineContext.tsx:143-150 | signing out empties favourites and their view; signing in loads the user's stored favourites |
| VendingMachineContext.MachineRepository.LoadFavorites | contexts/VendingMachineContext.tsx:153-173 | with a stored id list the favourites become it and the view is refreshed only when machines are loaded; a missing record or failed read changes nothing |
| VendingMachineContext.MachineRepository.GetVendingMachines | contexts/VendingMachineContext.tsx:187-215 | connected: list and result are the remote list, written through to the cache, with the in-memory cache and sync time updated only when both writes succeed; offline: list and result are the cached list, or empty when the read fails, with the cache untouched; the filtered view is recomputed and loading is false in every case |
| VendingMachineContext.MachineRepository.GetVendingMachineById | contexts/VendingMachineContext.tsx:218-235 | the first machine with the id in the remote list when connected, in the cached list (empty on a failed read) otherwise; none when absent |
| VendingMachineContext.MachineRepository.AddVendingMachine | contexts/VendingMachineContext.tsx:238-277 | offline: the error message and no change to list, view, loading or cache; connected: the new machine at the head of the list, the whole list written through to the cache, the in-memory cache and sync time updated only when both writes succeed, loading false |
| VendingMachineContext.MachineRepository.ToggleFavorite | contexts/VendingMachineContext.tsx:280-306 | no user: nothing changes; otherwise the id's membership flips, the new list is stored under `favorites-<user>` when the write succeeds, and the view is the machines whose id is in the new list |
| VendingMachineContext.MachineRepository.IsFavorite | contexts/VendingMachineContext.tsx:309-311 | true exactly when the id is in the favourites, with no change of state |
| VendingMachineContext.MachineRepository.GetFavorites | contexts/VendingMachineContext.tsx:314-325 | with a user the view is recomputed from the list and the ids; without one it is kept |
| VendingMachineContext.MachineRepository.SetFilter | contexts/VendingMachineContext.tsx:328-330 | the filter is set and the view recomputed from it |
| VendingMachineContext.ToggleScenario | contexts/VendingMachineContext.tsx:280-311 | a user with no favourites toggles a loaded machine twice: it is shown as favourite in between and the favourites and view are empty again at the end |
| KeyValue.KeyValueStore.GetItem | contexts/NetworkContext.tsx:55 | the stored value of the key, none exactly when the key is missing; every read of the cache and of the favourites goes through it |
| KeyValue.KeyValueStore.SetItem | contexts/NetworkContext.tsx:73 | on success the key holds the value and reading it back gives that value; every other key reads as before; on failure nothing changes |
| KeyValue.KeyValueStore.MultiRemove | contexts/NetworkContext.tsx:95-100 | on success the given keys read as missing; every other key reads as before; on failure nothing changes |
| NetworkContext.AfterCacheWrite | contexts/NetworkContext.tsx:73-74 | a failed list write changes nothing; otherwise the list key holds the list, the stamp key holds the time when its write succeeds and keeps its old record when it fails, and every other key keeps its record |
| NetworkContext.CacheWriteThenRead | contexts/NetworkContext.tsx:71-77 | once the list write succeeds, reading the cache gives back exactly the list written; the stamp is the write's time when its write succeeds too; no other key appears or disappears |
| NetworkContext.FailedCacheWriteKeepsStore | contexts/NetworkContext.tsx:71-80 | a failed list write leaves the store as it was |
| NetworkContext.ClearedCacheReadsEmpty | contexts/NetworkContext.tsx:93-100 | after the four cache keys are removed the list reads as empty, there is no stamp and no cached location |
| NetworkContext.NetworkState.constructor | contexts/NetworkContext.tsx:34-36 | connected, nothing cached in memory, no sync time, so not in offline mode |
| NetworkContext.NetworkState.IsOfflineMode | contexts/NetworkContext.tsx:109 | offline mode holds exactly when disconnected with a non-empty in-memory cache |
| NetworkContext.NetworkState.OnConnectivityChange | contexts/NetworkContext.tsx:40-42 | connected iff the event reports true (an unknown state counts as disconnected); offline mode iff not connected and the cache is non-empty |
| NetworkContext.NetworkState.LoadCachedData | contexts/NetworkContext.tsx:52-69 | a stored list replaces the in-memory list and a stored stamp the sync time; a missing record keeps its field; a failed read stops the load |
| NetworkContext.NetworkState.CacheVendingMachines | contexts/NetworkContext.tsx:71-81 | the store gets the list, then the stamp, each write only if the ones before succeeded; the in-memory list and sync time change only when both succeed |
| NetworkContext.NetworkState.GetCachedMachines | contexts/NetworkContext.tsx:83-91 | the stored list, or empty when it is missing or the read fails; never fails itself |
| NetworkContext.NetworkState.ClearCache | contexts/NetworkContext.tsx:93-107 | on success exactly the four cache keys are removed and the in-memory list and sync time are reset, so offline mode ends; on failure nothing changes |
| NotificationContext.Merge | contexts/NotificationContext.tsx:235 | each key present in the partial update takes the update's value; each absent key keeps the current value |
| NotificationContext.MergeLaws | contexts/NotificationContext.tsx:235 | the spread merge keeps the preferences for an empty update, is idempotent, and two updates in a row act as their key-wise combination with the later one winning |
| NotificationContext.PreferencesAfterLoad | contexts/NotificationContext.tsx:191-202 | a returned row is adopted when there is no error or the error is `PGRST116` (no row); the preferences change only in that case; an exception, another error or a missing row keeps them |
| NotificationContext.UnreadStep | contexts/NotificationContext.tsx:287-302 | receive adds one; a successful mark-read gives `max(0, count - 1)`; a loaded count replaces the counter (null reads as 0); failures keep it; a non-negative counter stays non-negative |
| NotificationContext.ReplayNeverNegative | contexts/NotificationContext.tsx:302 | from a non-negative count, any sequence of events leaves the counter non-negative |
| NotificationContext.ReplayBounds | contexts/NotificationContext.tsx:78-81 | without loads, the counter ends at most start + received and at least start + received - successful mark-reads |
| NotificationContext.NotificationState.constructor | contexts/NotificationContext.tsx:58-65 | default preferences (all on except promotional), unread count 0, not loading |
| NotificationContext.NotificationState.OnUserChange | contexts/NotificationContext.tsx:70-75 | with a user, the preferences and the unread count are loaded; without one they are kept |
| NotificationContext.NotificationState.OnNotificationReceived | contexts/NotificationContext.tsx:78-81 | the counter grows by exactly one |
| NotificationContext.NotificationState.OnNotificationResponse | contexts/NotificationContext.tsx:84-89 | a tapped notification is marked as read only when its payload has a non-empty id |
| NotificationContext.NotificationState.LoadNotificationPreferences | contexts/NotificationContext.tsx:181-207 | without a user nothing changes; otherwise the preferences follow the reply as `PreferencesAfterLoad` states |
| NotificationContext.NotificationState.LoadUnreadCount | contexts/NotificationContext.tsx:209-228 | without a user nothing changes; otherwise the returned count, 0 for null, replaces the counter and an error keeps it |
| NotificationContext.NotificationState.MarkNotificationAsRead | contexts/NotificationContext.tsx:287-306 | without a user or on error nothing changes; on success the counter drops by one but not below zero |
| NotificationContext.NotificationState.UpdatePreferences | contexts/NotificationContext.tsx:230-260 | without a user nothing happens; otherwise the merged preferences are sent, committed only when the upsert succeeds, the failure is rethrown, and loading ends false |
| OfflineBanner.FloorDiv | components/ui/OfflineBanner.tsx:22-24 | the quotient is the floor of the division, also for a negative difference |
| OfflineBanner.FormatLastSync | components/ui/OfflineBanner.tsx:17-30 | no sync time: never synchronised; under one minute or in the future: just now; then whole minutes (1-59) under an hour, whole hours (1-23) under a day, whole days beyond, plural exactly from two days |
| OfflineBanner.FormatLastSyncShift | components/ui/OfflineBanner.tsx:21 | the label depends only on the difference between now and the sync time |
| OfflineBanner.KnownSyncIsDated | components/ui/OfflineBanner.tsx:18 | a known sync time never reads as never synchronised |
| OfflineBanner.Render | components/ui/OfflineBanner.tsx:15-55 | no banner iff connected; the offline-mode title iff the cache is non-empty, with the cached count and the sync age; otherwise no-connection title and hint |
| OfflineBanner.BannerFor | components/ui/OfflineBanner.tsx:13-55 | for the network state: shown iff disconnected; offline-mode title with the cached count and sync age iff the state is in offline mode, otherwise the no-connection title and hint |
| NotificationBadge.GetSizeStyles | components/notifications/NotificationBadge.tsx:17-26 | small 16/10, large 24/14, any other size 20/12 (width/font); height equals width, which is even |
| NotificationBadge.SizesAreOrdered | components/notifications/NotificationBadge.tsx:17-26 | width and font size grow from small to medium to large |
| NotificationBadge.DisplayCount | components/notifications/NotificationBadge.tsx:29 | `99+` iff the count exceeds 99; otherwise the count's decimal rendering without leading zeros, at most two digits, reading back as the count |
| NotificationBadge.DisplayCountInjectiveBelowOverflow | components/notifications/NotificationBadge.tsx:29 | two counts share a label only when equal or both above 99 |
| NotificationBadge.Render | components/notifications/NotificationBadge.tsx:15-40 | nothing iff the count is 0; otherwise the label and size styles with a corner radius of half the width |
| ShareUtils.CategoryEmoji | utils/shareUtils.ts:31-43 | the table's emoji for the seven known categories, the shop front for any other |
| ShareUtils.EmojiMatchesMarkerIcon | utils/shareUtils.ts:31-43 | the shared emoji equals the marker icon exactly for the six named categories; `Autre` and unknown ones differ |
| ShareUtils.RepeatChar | utils/shareUtils.ts:18 | the repeat has the given length and only that character |
| ShareUtils.RatingStars | utils/shareUtils.ts:18 | one star per whole point of the rating; none (the repeat throws) exactly for a negative rating |
| ShareUtils.GenerateShareContent | utils/shareUtils.ts:10-29 | a non-empty custom message is returned verbatim; otherwise the template with emoji, name, address, stars, rating, review count, price and category, failing exactly for a negative rating |
| ShareUtils.GeneratedMessageFrame | utils/shareUtils.ts:20-28 | a generated message begins with the emoji, name and address and ends with the signature line |
| ShareUtils.DeepLink | utils/shareUtils.ts:45-53 | the platform's base URL, `/details/`, then exactly the id |
| ShareUtils.DeepLinkInjective | utils/shareUtils.ts:52 | different ids give different links on the same platform |
| ShareUtils.BuildShareRequest | utils/shareUtils.ts:59-81 | title `name - VendingFinder`; on iOS the content as message with the link as URL and the excluded activities; elsewhere the link appended to the message and no URL; none exactly when the content fails |
| ShareUtils.ShareRequestCarriesLink | utils/shareUtils.ts:65-66 | the link is the URL or the end of the message on every platform |
| ShareUtils.ShareVendingMachine | utils/shareUtils.ts:55-94 | true iff the content could be built and the sheet reports the shared action; any failure gives false |
| CategoryMarker.CategoryColor | components/map/CategoryMarker.tsx:16-28 | the table's colour for a known category, `#6B7280` for any other |
| CategoryMarker.CategoryIcon | components/map/CategoryMarker.tsx:30-42 | the table's icon for a known category, the pin for any other |
| CategoryMarker.TablesCoverKnownCategories | components/map/CategoryMarker.tsx:17-39 | both tables have exactly the seven known categories as keys |
| CategoryMarker.IconIdentifiesCategory | components/map/CategoryMarker.tsx:30-42 | equal icons mean equal categories whenever one of them is known |
| CategoryMarker.ColorIdentifiesNamedCategory | components/map/CategoryMarker.tsx:16-28 | the colour of a named category other than `Autre` is shared by no other category |
| CategoryMarker.MarkerLookupIsCaseSensitive | components/map/CategoryMarker.tsx:27-41 | `pain` gets the default colour and icon |
| OfflineMapView.OfflineFiltered | components/map/OfflineMapView.tsx:17-21 | without a selected category (absent, empty or `all`) the whole cache; otherwise exactly its case-insensitive matches, each as often as in the cache; always a subsequence of the cache |
| OfflineMapView.OfflineAgreesWithOnline | components/map/OfflineMapView.tsx:17-21 | for a non-empty cache and filter the offline list equals the online filtered view |
| OfflineMapView.EmptyFilterDiffers | components/map/OfflineMapView.tsx:17 | the empty filter lists the whole cache offline but nothing online when every machine has a category |
| OfflineMapView.Render | components/map/OfflineMapView.tsx:36-58 | the header counts the listed machines; an empty-state message iff nothing is listed: the category-specific one iff a category is selected, the generic one otherwise |
| OfflineMapView.NothingCachedMeansEmptyCache | components/map/OfflineMapView.tsx:50-56 | the generic empty message means the cache is empty and no category is selected |
| OfflineMapView.BadgeColor | components/map/OfflineMapView.tsx:23-34 | the marker colour for known categories, the theme's secondary colour for any other |

## Left out

- Rendering, styles and navigation: the JSX and style sheets of every component are not modelled. Only the values they display are modelled.
- Storage and JSON: the store holds parsed records. A record of the wrong kind under a key reads as missing. `JSON.parse` failures fold into the read's failure flag.
- Backend queries, push-token registration, `requestPermissions` and `sendTestNotification` are not modelled. They are foreign I/O, and their replies appear only as parameters. The last received notification object is not kept.
- Asynchrony: each operation runs as one sequential step, with its effects applied in order. Concurrent calls, stale closures and effect scheduling are not modelled.
- Clocks and ids: `Date.now()` and `new Date()` become the parameters `now` and `newId`. The two `new Date()` calls in `cacheVendingMachines` read the same `now`.
- Floating point: price, coordinates and rating are exact reals, and `toFixed(1)` and the price rendering are given as strings.
- VendingMachineTypes.InCategory: lower-casing covers upper-case ASCII and Latin-1 letters only. That is the alphabet of the category names; other scripts are not modelled.
- MachineRepository.GetVendingMachines: the error fallback is not modelled. Neither `cacheVendingMachines` nor `getCachedMachines` lets an error out, so that branch cannot run.
- Lookups through a JavaScript object also find inherited keys such as `constructor`. The lookup tables here do not model this.
- NotificationBadge.Render: takes a natural count; the counter it shows is never negative (`NotificationState.Valid`).
