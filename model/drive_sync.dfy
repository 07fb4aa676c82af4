/** The data half of the cloud backup service: normalising a downloaded backup
    and merging the local copy with the remote one. Requests to the cloud
    storage, the access token and the upload are not part of this model. */
module DriveSync {
  import opened Wrappers
  import opened Records
  import opened StableSort
  import opened KeyedMap
  import opened TripMerge

  /** A settings object: its keys with their values as JSON text. */
  type Settings = map<string, string>

  /** The parsed body of a downloaded backup: an array (the legacy format), an
      object whose `trips` may not be an array (`None`) and whose `settings` may
      be falsy (`None`), or any other JSON value. */
  datatype Downloaded =
    | JsonArray(items: seq<Trip>)
    | JsonObject(trips: Option<seq<Trip>>, settings: Option<Settings>)
    | JsonOther

  /** `{ trips, settings }` as the service hands it on. */
  datatype Payload = Payload(trips: seq<Trip>, settings: Settings)

  /** `downloadFile`'s normalisation to `{ trips: [], settings: {} }`. */
  function Normalise(result: Downloaded): (p: Payload)
    ensures result.JsonArray? ==> p == Payload(result.items, map[])
    ensures result.JsonObject? && result.trips.Some? ==> p.trips == result.trips.value
    ensures result.JsonObject? && result.trips.None? ==> p.trips == []
    ensures result.JsonObject? && result.settings.Some? ==> p.settings == result.settings.value
    ensures result.JsonObject? && result.settings.None? ==> p.settings == map[]
    ensures result.JsonOther? ==> p == Payload([], map[])
  {
    match result
    case JsonArray(items) => Payload(items, map[])
    case JsonObject(trips, settings) => Payload(trips.GetOr([]), settings.GetOr(map[]))
    case JsonOther => Payload([], map[])
  }

  /** The object form of a payload, as it is uploaded. */
  function AsObject(p: Payload): Downloaded {
    JsonObject(Some(p.trips), Some(p.settings))
  }

  /** A normalised backup, uploaded and downloaded again, normalises to itself. */
  lemma NormaliseStable(result: Downloaded)
    ensures Normalise(AsObject(Normalise(result))) == Normalise(result)
  {
  }

  /** One side of `mergeData`: `trips` may not be an array, `settings` may be absent. */
  datatype SyncData = SyncData(trips: Option<seq<Trip>>, settings: Option<Settings>)

  /** `Array.isArray(d.trips) ? d.trips : []`. */
  function TripsOf(d: SyncData): seq<Trip> { d.trips.GetOr([]) }

  /** `{ ...local, ...remote }`: the remote value of every remote key, the
      local value of every other local key. */
  function Overlay(local: Option<Settings>, remote: Option<Settings>): (s: Settings)
    ensures forall k :: k in s <==> (local.Some? && k in local.value) || (remote.Some? && k in remote.value)
    ensures forall k :: remote.Some? && k in remote.value ==> s[k] == remote.value[k]
    ensures forall k :: local.Some? && k in local.value && !(remote.Some? && k in remote.value) ==>
      s[k] == local.value[k]
  {
    local.GetOr(map[]) + remote.GetOr(map[])
  }

  /** `mergeData`: the union by key, where the local trip is kept on a
      collision, sorted by date; and the settings overlay. */
  function MergeData(local: SyncData, remote: SyncData): Payload {
    Payload(SortedKeep(TripsOf(local), TripsOf(remote), DateAsc()), Overlay(local.settings, remote.settings))
  }

  /** The merged trips are sorted by date and hold one trip per key of both
      sides: the last local trip with that key, else the first remote one.
      A local list without repeated keys survives whole. */
  lemma MergeDataSpec(local: SyncData, remote: SyncData)
    ensures var l, rm, r := TripsOf(local), TripsOf(remote), MergeData(local, remote).trips;
      SortedBy(r, DateAsc())
      && DistinctKeys(r)
      && (forall t :: t in r ==> KeepWinner(l, rm, TripKey(t)) == Some(t))
      && (forall t :: t in l + rm ==> KeepWinner(l, rm, TripKey(t)).value in r)
      && |r| == |TripKeys(l + rm)|
      && (DistinctKeys(l) ==> forall t :: t in l ==> t in r)
  {
    var l, rm := TripsOf(local), TripsOf(remote);
    var r := MergeData(local, remote).trips;
    DateOrdersTotal();
    SortedKeepSpec(l, rm, DateAsc());
    if DistinctKeys(l) {
      forall t | t in l ensures t in r {
        OnlyWithKey(l, t);
        assert KeepWinner(l, rm, TripKey(t)) == Some(t);
      }
    }
  }

  /** In a list without repeated keys, a trip is the only one with its key. */
  lemma OnlyWithKey(l: seq<Trip>, t: Trip)
    requires DistinctKeys(l) && t in l
    ensures LastWithKey(l, Key(), TripKey(t)) == Some(t)
  {
    var j :| 0 <= j < |l| && l[j] == t;
    assert Key()(l[j]) == TripKey(t);
    var w := LastWithKey(l, Key(), TripKey(t));
    assert w.Some?;
    var i :| 0 <= i < |l| && l[i] == w.value;
    assert TripKey(l[i]) == TripKey(l[j]);
    assert i == j;
  }

  /** `mergeData` as written: the local trips into a `Map`, then each remote
      trip whose key is not there yet, read back and sorted by date. */
  method MergeDataLoop(local: SyncData, remote: SyncData) returns (p: Payload)
    ensures p == MergeData(local, remote)
  {
    var merged := KeepMergeLoop(TripsOf(local), TripsOf(remote));
    p := Payload(SortBy(merged, DateAsc()), Overlay(local.settings, remote.settings));
  }
}
