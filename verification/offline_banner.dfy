/** The banner shown while the device is offline
    (components/ui/OfflineBanner.tsx). Times are milliseconds since the
    epoch; the current time is a parameter. */
module OfflineBanner {
  import opened Lists
  import opened Text
  import opened NetworkContext

  const MinuteMillis: int := 60000
  const HourMillis: int := 3600000
  const DayMillis: int := 86400000

  const NeverSynced: string := "Jamais synchronisé"
  const JustNow: string := "À l'instant"

  /** `Math.floor(diff / unit)` for a positive unit. Dafny's division on
      integers rounds toward minus infinity for a positive divisor, so it is
      the floor also for a negative difference. */
  function FloorDiv(diff: int, unit: int): (q: int)
    requires unit > 0
    ensures q * unit <= diff < (q + 1) * unit
  {
    diff / unit
  }

  /** `formatLastSync`: how long ago the last synchronisation was. The
      labels are chosen on the raw difference: under a minute (or in the
      future) "just now", then whole minutes under an hour, whole hours
      under a day, and whole days beyond, with a plural from two days on. */
  function FormatLastSync(lastSync: Option<int>, now: int): (r: string)
    ensures lastSync.None? ==> r == NeverSynced
    ensures lastSync.Some? && now - lastSync.value < MinuteMillis ==> r == JustNow
    ensures lastSync.Some? && MinuteMillis <= now - lastSync.value < HourMillis ==>
              r == "Il y a " + DecimalString((now - lastSync.value) / MinuteMillis) + " min" &&
              1 <= (now - lastSync.value) / MinuteMillis < 60
    ensures lastSync.Some? && HourMillis <= now - lastSync.value < DayMillis ==>
              r == "Il y a " + DecimalString((now - lastSync.value) / HourMillis) + "h" &&
              1 <= (now - lastSync.value) / HourMillis < 24
    ensures lastSync.Some? && DayMillis <= now - lastSync.value ==>
              r == "Il y a " + DecimalString((now - lastSync.value) / DayMillis) + " jour" +
                   (if now - lastSync.value >= 2 * DayMillis then "s" else "")
  {
    if lastSync.None? then NeverSynced
    else
      var diff := now - lastSync.value;
      var minutes := FloorDiv(diff, MinuteMillis);
      var hours := FloorDiv(diff, HourMillis);
      var days := FloorDiv(diff, DayMillis);
      if minutes < 1 then JustNow
      else if minutes < 60 then "Il y a " + DecimalString(minutes) + " min"
      else if hours < 24 then "Il y a " + DecimalString(hours) + "h"
      else "Il y a " + DecimalString(days) + " jour" + (if days > 1 then "s" else "")
  }

  /** The label only depends on how long ago the synchronisation was. */
  lemma FormatLastSyncShift(lastSync: int, now: int, delta: int)
    ensures FormatLastSync(Some(lastSync + delta), now + delta) == FormatLastSync(Some(lastSync), now)
  {
  }

  /** A known synchronisation never reads as "never synchronised". */
  lemma KnownSyncIsDated(lastSync: int, now: int)
    ensures FormatLastSync(Some(lastSync), now) != NeverSynced
  {
    var r := FormatLastSync(Some(lastSync), now);
    if now - lastSync >= MinuteMillis {
      assert r[0] == 'I';
    }
  }

  const OfflineModeTitle: string := "Mode hors ligne activé"
  const NoConnectionTitle: string := "Pas de connexion"
  const CheckConnection: string := "Vérifiez votre connexion internet"

  datatype Banner = Banner(title: string, subtitle: string)

  /** The banner for the network state: none while connected; in offline
      mode (disconnected with a non-empty cache) the number of cached
      machines and the age of the cache; otherwise a hint to check the
      connection. */
  function Render(isConnected: bool, cachedCount: nat, lastSync: Option<int>, now: int): (r: Option<Banner>)
    ensures r.None? <==> isConnected
    ensures r.Some? ==> (r.value.title == OfflineModeTitle <==> cachedCount > 0)
    ensures r.Some? && cachedCount > 0 ==>
              r.value.subtitle == DecimalString(cachedCount) + " distributeurs • " + FormatLastSync(lastSync, now)
    ensures r.Some? && cachedCount == 0 ==> r == Some(Banner(NoConnectionTitle, CheckConnection))
  {
    var isOfflineMode := !isConnected && cachedCount > 0;
    if isConnected then None
    else if isOfflineMode then
      Some(Banner(OfflineModeTitle, DecimalString(cachedCount) + " distributeurs • " + FormatLastSync(lastSync, now)))
    else Some(Banner(NoConnectionTitle, CheckConnection))
  }

  /** The banner drawn for the provider's current state: it is shown exactly
      when disconnected, and its offline-mode title appears exactly when the
      provider reports offline mode. */
  method BannerFor(network: NetworkState, now: int) returns (r: Option<Banner>)
    ensures r.None? <==> network.isConnected
    ensures r.Some? ==> (r.value.title == OfflineModeTitle <==> network.IsOfflineMode())
    ensures r.Some? && network.IsOfflineMode() ==>
              r.value.subtitle == DecimalString(|network.cachedMachines|) + " distributeurs • " +
                                  FormatLastSync(network.lastSyncTime, now)
    ensures r.Some? && !network.IsOfflineMode() ==> r == Some(Banner(NoConnectionTitle, CheckConnection))
  {
    r := Render(network.isConnected, |network.cachedMachines|, network.lastSyncTime, now);
  }
}
