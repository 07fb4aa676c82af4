/** The list of the user's cars and the active one (`CarContext`, TypeScript
    and JavaScript twins): the start-up step that creates a first car (moving
    the data of a single-car install under that car's id), and adding,
    changing and deleting cars. Fresh ids, the texts read from storage and
    their parsing are parameters; the copies the start-up step makes are
    returned as storage writes, and the JSON texts of the car list written
    back are left out. */
module CarStore {
  import opened Wrappers
  import opened Seqs

  datatype CarKind = Ev | Phev | Hybrid

  datatype Car = Car(id: string, name: string, kind: CarKind, isHybrid: bool,
                     vin: Option<string>, plate: Option<string>, model: Option<string>)

  /** `Partial<Car>`: the fields an update sets. */
  datatype CarPatch = CarPatch(id: Option<string>, name: Option<string>, kind: Option<CarKind>,
                               isHybrid: Option<bool>, vin: Option<string>, plate: Option<string>,
                               model: Option<string>)

  /** The name of the first car when nothing says otherwise. */
  const DefaultName: string := "Mi BYD"

  /** The storage keys. */
  const SettingsKey: string := "byd_settings"
  const StatsKey: string := "byd_stats_data"
  const ChargesKey: string := "byd_charges_data"
  const HistoryKey: string := "byd_trip_history"
  const ActiveCarKey: string := "byd_active_car_id"

  /** A `localStorage.setItem(key, value)`. */
  datatype StorageWrite = StorageWrite(key: string, value: string)

  /** What a single-car install left in storage: the texts of its settings,
      trips, charges and trip history (`None` for a missing or empty item),
      and the `carModel` its settings name (`""` when they name none). */
  datatype Legacy = Legacy(settings: Option<string>, stats: Option<string>, charges: Option<string>,
                           history: Option<string>, carModel: string)

  /** `{ ...c, ...updates }`. */
  function Patched(c: Car, p: CarPatch): (r: Car)
    ensures r.id == p.id.GetOr(c.id) && r.name == p.name.GetOr(c.name) && r.kind == p.kind.GetOr(c.kind)
    ensures r.isHybrid == p.isHybrid.GetOr(c.isHybrid)
    ensures r.vin == (if p.vin.Some? then p.vin else c.vin)
    ensures r.plate == (if p.plate.Some? then p.plate else c.plate)
    ensures r.model == (if p.model.Some? then p.model else c.model)
  {
    Car(p.id.GetOr(c.id), p.name.GetOr(c.name), p.kind.GetOr(c.kind), p.isHybrid.GetOr(c.isHybrid),
        if p.vin.Some? then p.vin else c.vin, if p.plate.Some? then p.plate else c.plate,
        if p.model.Some? then p.model else c.model)
  }

  /** `prev.map(c => c.id === id ? { ...c, ...updates } : c)`. */
  function UpdatedCars(cs: seq<Car>, id: string, p: CarPatch): (r: seq<Car>)
    ensures |r| == |cs|
    ensures forall k :: 0 <= k < |cs| ==> r[k] == if cs[k].id == id then Patched(cs[k], p) else cs[k]
  {
    if cs == [] then []
    else [if cs[0].id == id then Patched(cs[0], p) else cs[0]] + UpdatedCars(cs[1..], id, p)
  }

  /** An update changes the cars with the id and no other. */
  lemma UpdatedCarsSpec(cs: seq<Car>, id: string, p: CarPatch)
    ensures var r := UpdatedCars(cs, id, p);
      (forall c :: c in cs && c.id != id ==> c in r)
      && (forall c :: c in r ==> c in cs || exists k :: 0 <= k < |cs| && cs[k].id == id && c == Patched(cs[k], p))
      && (id !in Ids(cs) ==> r == cs)
  {
    var r := UpdatedCars(cs, id, p);
    forall c | c in cs && c.id != id ensures c in r {
      var k :| 0 <= k < |cs| && cs[k] == c;
      assert r[k] == c;
    }
    if id !in Ids(cs) {
      assert forall k :: 0 <= k < |cs| ==> cs[k].id in Ids(cs);
      assert r == cs;
    }
  }

  function Ids(cs: seq<Car>): (r: set<string>)
    ensures forall k :: 0 <= k < |cs| ==> cs[k].id in r
    ensures forall id :: id in r ==> exists k :: 0 <= k < |cs| && cs[k].id == id
  {
    set k | 0 <= k < |cs| :: cs[k].id
  }

  function OtherId(id: string): Car -> bool { (c: Car) => c.id != id }

  /** `prev.filter(c => c.id !== id)`. */
  function RemovedCars(cs: seq<Car>, id: string): seq<Car> {
    Filter(cs, OtherId(id))
  }

  /** Deleting removes every car with the id, keeps every other car, and
      keeps their order. */
  lemma RemovedCarsSpec(cs: seq<Car>, id: string)
    ensures var r := RemovedCars(cs, id);
      (forall c :: c in r <==> c in cs && c.id != id)
      && id !in Ids(r)
      && |r| <= |cs|
  {
    var r := RemovedCars(cs, id);
    FilterMembers(cs, OtherId(id));
    forall k | 0 <= k < |r| ensures r[k].id != id {
      assert OtherId(id)(r[k]);
    }
  }

  /** `cars.find(c => c.id === activeCarId)`: the first car with the active id. */
  function FindCar(cs: seq<Car>, id: Option<string>): (r: Option<Car>)
    ensures r.Some? ==> id.Some? && r.value in cs && r.value.id == id.value
    ensures r.None? ==> id.None? || id.value !in Ids(cs)
    ensures forall k ::
      (id.Some? && 0 <= k < |cs| && cs[k].id == id.value && forall j :: 0 <= j < k ==> cs[j].id != id.value)
      ==> r == Some(cs[k])
  {
    if id.None? || cs == [] then None
    else if cs[0].id == id.value then Some(cs[0])
    else
      var rest := FindCar(cs[1..], id);
      assert forall k :: 1 <= k < |cs| ==> cs[k] == cs[1..][k - 1];
      rest
  }

  /** A car added under an id no other car has is the one found under it. */
  lemma FindAdded(cs: seq<Car>, c: Car)
    requires c.id !in Ids(cs)
    ensures FindCar(cs + [c], Some(c.id)) == Some(c)
    ensures forall id :: id != c.id ==> FindCar(cs + [c], Some(id)) == FindCar(cs, Some(id))
  {
    FindAppended(cs, c);
  }

  lemma {:induction false} FindAppended(cs: seq<Car>, c: Car)
    requires c.id !in Ids(cs)
    ensures FindCar(cs + [c], Some(c.id)) == Some(c)
    ensures forall id :: id != c.id ==> FindCar(cs + [c], Some(id)) == FindCar(cs, Some(id))
  {
    if cs != [] {
      assert (cs + [c])[1..] == cs[1..] + [c];
      assert Ids(cs[1..]) <= Ids(cs) by {
        forall id | id in Ids(cs[1..]) ensures id in Ids(cs) {
          var k :| 0 <= k < |cs[1..]| && cs[1..][k].id == id;
          assert cs[k + 1].id == id;
        }
      }
      FindAppended(cs[1..], c);
    }
  }

  /** The state of the provider. `typed` says which twin it is: the
      TypeScript one also records the model of a car it migrates. */
  class Garage {
    const typed: bool
    var cars: seq<Car>
    var activeCarId: Option<string>

    /** The state before the start-up step: the saved cars (`None` when
        missing or unreadable) and the saved active id (`None` when missing
        or empty, which `|| null` turns into `null`). */
    constructor (typed: bool, savedCars: Option<seq<Car>>, savedActive: Option<string>)
      ensures this.typed == typed
      ensures cars == savedCars.GetOr([])
      ensures activeCarId == (if savedActive == Some("") then None else savedActive)
    {
      this.typed := typed;
      cars := savedCars.GetOr([]);
      activeCarId := if savedActive == Some("") then None else savedActive;
    }

    /** `activeCar`. */
    function ActiveCar(): (r: Option<Car>)
      reads this
      ensures r.Some? ==> r.value in cars && activeCarId == Some(r.value.id)
      ensures r.None? ==> activeCarId.None? || activeCarId.value !in Ids(cars)
      ensures forall k ::
        (activeCarId.Some? && 0 <= k < |cars| && cars[k].id == activeCarId.value
         && forall j :: 0 <= j < k ==> cars[j].id != activeCarId.value)
        ==> r == Some(cars[k])
    {
      FindCar(cars, activeCarId)
    }

    /** The start-up step. Without cars it creates one under `newId` and
        makes it active: named after the old settings' car model (or
        'Mi BYD') when a single-car install left settings or trips, whose
        items it then copies under keys ending in the new id; named 'Mi BYD'
        otherwise. With cars but no active one, the first becomes active. */
    method Initialize(legacy: Legacy, newId: string) returns (writes: seq<StorageWrite>)
      modifies this
      ensures old(cars) == [] ==>
        |cars| == 1 && cars[0].id == newId && activeCarId == Some(newId)
        && ActiveCar() == Some(cars[0]) && cars[0].kind == Ev && !cars[0].isHybrid
      ensures old(cars) == [] && (legacy.settings.Some? || legacy.stats.Some?) ==>
        cars[0].name == (if legacy.carModel != "" then legacy.carModel else DefaultName)
        && cars[0].model == (if typed then Some(cars[0].name) else None)
        && writes == MigrationCopies(legacy, newId) + [StorageWrite(ActiveCarKey, newId)]
      ensures old(cars) == [] && legacy.settings.None? && legacy.stats.None? ==>
        cars[0].name == DefaultName && cars[0].model.None? && writes == [StorageWrite(ActiveCarKey, newId)]
      ensures old(cars) != [] && old(activeCarId).None? ==>
        cars == old(cars) && activeCarId == Some(cars[0].id) && writes == [StorageWrite(ActiveCarKey, cars[0].id)]
      ensures old(cars) != [] && old(activeCarId).Some? ==>
        cars == old(cars) && activeCarId == old(activeCarId) && writes == []
    {
      if cars == [] {
        if legacy.settings.Some? || legacy.stats.Some? {
          var name := if legacy.carModel != "" then legacy.carModel else DefaultName;
          var car := Car(newId, name, Ev, false, None, None, if typed then Some(name) else None);
          cars := [car];
          activeCarId := Some(newId);
          writes := MigrationCopies(legacy, newId) + [StorageWrite(ActiveCarKey, newId)];
        } else {
          cars := [Car(newId, DefaultName, Ev, false, None, None, None)];
          activeCarId := Some(newId);
          writes := [StorageWrite(ActiveCarKey, newId)];
        }
      } else if activeCarId.None? {
        activeCarId := Some(cars[0].id);
        writes := [StorageWrite(ActiveCarKey, cars[0].id)];
      } else {
        writes := [];
      }
    }

    /** `addCar(car)`: the car under a fresh id appended; the others kept. */
    method AddCar(car: Car, freshId: string)
      modifies this
      ensures cars == old(cars) + [car.(id := freshId)]
      ensures activeCarId == old(activeCarId)
    {
      cars := cars + [car.(id := freshId)];
    }

    /** `updateCar(id, updates)`. */
    method UpdateCar(id: string, updates: CarPatch)
      modifies this
      ensures cars == UpdatedCars(old(cars), id, updates)
      ensures activeCarId == old(activeCarId)
    {
      cars := UpdatedCars(cars, id, updates);
    }

    /** `deleteCar(id)`: the car removed, and no car active if it was. */
    method DeleteCar(id: string)
      modifies this
      ensures cars == RemovedCars(old(cars), id)
      ensures activeCarId == (if old(activeCarId) == Some(id) then None else old(activeCarId))
      ensures old(activeCarId) == Some(id) ==> ActiveCar().None?
    {
      cars := RemovedCars(cars, id);
      if activeCarId == Some(id) {
        activeCarId := None;
      }
    }
  }

  /** The copies of the start-up step: each item the single-car install left
      is written again under its key followed by `_` and the new id. */
  function MigrationCopies(legacy: Legacy, newId: string): (r: seq<StorageWrite>)
    ensures |r| <= 4
    ensures forall w :: w in r ==>
      (w.key == SettingsKey + "_" + newId && legacy.settings == Some(w.value))
      || (w.key == StatsKey + "_" + newId && legacy.stats == Some(w.value))
      || (w.key == ChargesKey + "_" + newId && legacy.charges == Some(w.value))
      || (w.key == HistoryKey + "_" + newId && legacy.history == Some(w.value))
    ensures legacy.charges.Some? ==> StorageWrite(ChargesKey + "_" + newId, legacy.charges.value) in r
    ensures legacy.history.Some? ==> StorageWrite(HistoryKey + "_" + newId, legacy.history.value) in r
  {
    Copy(SettingsKey, legacy.settings, newId) + Copy(StatsKey, legacy.stats, newId)
    + Copy(ChargesKey, legacy.charges, newId) + Copy(HistoryKey, legacy.history, newId)
  }

  function Copy(key: string, item: Option<string>, newId: string): seq<StorageWrite> {
    if item.Some? then [StorageWrite(key + "_" + newId, item.value)] else []
  }
}
