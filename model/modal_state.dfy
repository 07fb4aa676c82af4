/** Which dialogs are open (`useModalState`, TypeScript and JavaScript
    twins): a record of one flag per dialog plus the cars the registry
    dialog offers, the section the legal dialog opens at, and the trip and
    charges picked for the detail and edit dialogs. The TypeScript hook also
    keeps the two full-list dialogs in step with the location hash; the
    hash is a parameter and the history calls are results. */
module ModalState {
  import opened Wrappers
  import opened Records

  /** The flags of the record. */
  datatype ModalName =
    | Upload | FilterPanel | AllTripsList | AllChargesList | TripDetail | SettingsPanel
    | HistoryPanel | Help | AddCharge | ChargeDetail | Backups | RegistryRestore | Legal

  /** Every flag of the TypeScript record. */
  const AllNames: set<ModalName> :=
    {Upload, FilterPanel, AllTripsList, AllChargesList, TripDetail, SettingsPanel,
     HistoryPanel, Help, AddCharge, ChargeDetail, Backups, RegistryRestore, Legal}

  /** The flags as the record holds them. */
  type Flags = map<ModalName, bool>

  /** Every flag false: the TypeScript initial record, and what
      `closeAllModals` restores. The JavaScript record starts without the
      `legal` key, which reads as `undefined`, so as false, until the legal
      dialog is first opened; both are this map. */
  function AllClosed(): (f: Flags)
    ensures f.Keys == AllNames && forall n :: n in f ==> !f[n]
  {
    map n | n in AllNames :: false
  }

  /** A flag as the record reads it: a missing key is `undefined`, false. */
  predicate IsOpen(f: Flags, n: ModalName) { n in f && f[n] }

  /** `{ ...prev, [name]: value }`. */
  function WithFlag(f: Flags, n: ModalName, value: bool): (r: Flags)
    ensures r.Keys == f.Keys + {n}
    ensures IsOpen(r, n) == value
    ensures forall m :: m != n ==> IsOpen(r, m) == IsOpen(f, m)
  {
    f[n := value]
  }

  /** `{ ...prev, [name]: !prev[name] }`. */
  function Toggled(f: Flags, n: ModalName): (r: Flags)
    ensures IsOpen(r, n) == !IsOpen(f, n)
    ensures forall m :: m != n ==> IsOpen(r, m) == IsOpen(f, m)
  {
    WithFlag(f, n, !IsOpen(f, n))
  }

  /** Toggling twice gives back the record. */
  lemma ToggleTwice(f: Flags, n: ModalName)
    requires n in f
    ensures Toggled(Toggled(f, n), n) == f
  {
    var r := Toggled(Toggled(f, n), n);
    assert r.Keys == f.Keys;
    forall m | m in f ensures r[m] == f[m] {
      assert IsOpen(r, m) == IsOpen(f, m);
    }
  }

  /** Opening then closing a dialog closes it and leaves every other flag as
      it was; closing then opening opens it. */
  lemma OpenThenClose(f: Flags, n: ModalName)
    ensures var r := WithFlag(WithFlag(f, n, true), n, false);
      !IsOpen(r, n) && forall m :: m != n ==> IsOpen(r, m) == IsOpen(f, m)
    ensures IsOpen(WithFlag(WithFlag(f, n, false), n, true), n)
  {
  }

  /** The TypeScript `isAnyModalOpen`: some flag is true; `registryCars` is
      skipped. */
  predicate AnyModalOpen(f: Flags) {
    exists n :: IsOpen(f, n)
  }

  /** No dialog is open in the closed record, and one is as soon as any flag
      is set. */
  lemma AnyModalOpenSpec(f: Flags, n: ModalName)
    ensures !AnyModalOpen(AllClosed())
    ensures AnyModalOpen(WithFlag(f, n, true))
    ensures !AnyModalOpen(f) ==> Toggled(f, n) == WithFlag(f, n, true)
  {
    assert IsOpen(WithFlag(f, n, true), n);
  }

  /** Whether JavaScript reads a value as true: a flag by itself, and any
      array, even an empty one, as true. */
  datatype JsValue<Car> = Flag(b: bool) | CarList(cars: seq<Car>)

  predicate JsTruthy<Car>(v: JsValue<Car>) {
    match v
    case Flag(b) => b
    case CarList(_) => true
  }

  /** The keys of the JavaScript record in the order they were created:
      the twelve flags, then `registryCars`, then `legal` once the legal
      dialog has been opened. */
  const JsFlagOrder: seq<ModalName> :=
    [Upload, FilterPanel, AllTripsList, AllChargesList, TripDetail, SettingsPanel,
     HistoryPanel, Help, AddCharge, ChargeDetail, Backups, RegistryRestore]

  function FlagValues<Car>(f: Flags, names: seq<ModalName>): (r: seq<JsValue<Car>>)
    ensures |r| == |names|
    ensures forall k :: 0 <= k < |r| ==> r[k] == Flag(IsOpen(f, names[k]))
  {
    if names == [] then [] else [Flag(IsOpen(f, names[0]))] + FlagValues(f, names[1..])
  }

  /** `Object.values(modals)` of the JavaScript record. */
  function JsValues<Car>(f: Flags, cars: seq<Car>): (r: seq<JsValue<Car>>)
    ensures |r| >= |JsFlagOrder| + 1 && r[|JsFlagOrder|] == CarList(cars)
  {
    FlagValues(f, JsFlagOrder) + [CarList(cars)] + (if Legal in f then [Flag(f[Legal])] else [])
  }

  /** The JavaScript `isAnyModalOpen`: `Object.values(modals).some(Boolean)`. */
  predicate JsAnyModalOpen<Car>(f: Flags, cars: seq<Car>) {
    exists k :: 0 <= k < |JsValues(f, cars)| && JsTruthy(JsValues(f, cars)[k])
  }

  /** The JavaScript check also looks at the `registryCars` array, which is
      always truthy: it says a dialog is open even when every flag is false,
      as in the record right after `closeAllModals`. */
  lemma JsAnyModalOpenAlwaysTrue<Car>(f: Flags, cars: seq<Car>)
    ensures JsAnyModalOpen(f, cars)
    ensures JsAnyModalOpen<Car>(AllClosed(), []) && !AnyModalOpen(AllClosed())
  {
    assert JsTruthy(JsValues(f, cars)[|JsFlagOrder|]);
    assert JsTruthy(JsValues<Car>(AllClosed(), [])[|JsFlagOrder|]);
  }

  /** The two hashes that stand for the full-list dialogs. */
  const AllTripsHash: string := "#all-trips"
  const AllChargesHash: string := "#all-charges"

  /** What a method asks of the browser history. */
  datatype HistoryCall = NoCall | Push(url: string) | Back

  /** The history call of `openModal` in the TypeScript hook: a new entry for
      a full-list dialog whose hash is not already shown. */
  function OpenHistory(n: ModalName, hash: string): (r: HistoryCall)
    ensures r != Back
    ensures r.Push? <==> (n == AllTripsList && hash != AllTripsHash) || (n == AllChargesList && hash != AllChargesHash)
    ensures r.Push? ==> r.url == "/" + (if n == AllTripsList then AllTripsHash else AllChargesHash)
  {
    if n == AllTripsList then (if hash != AllTripsHash then Push("/" + AllTripsHash) else NoCall)
    else if n == AllChargesList then (if hash != AllChargesHash then Push("/" + AllChargesHash) else NoCall)
    else NoCall
  }

  /** The history call of `closeModal`: going back when the hash shows the
      full-list dialog being closed. */
  function CloseHistory(n: ModalName, hash: string): (r: HistoryCall)
    ensures r == Back <==> (n == AllTripsList && hash == AllTripsHash) || (n == AllChargesList && hash == AllChargesHash)
    ensures r != Back ==> r == NoCall
  {
    if (n == AllTripsList && hash == AllTripsHash) || (n == AllChargesList && hash == AllChargesHash) then Back
    else NoCall
  }

  /** The flags after the `popstate` handler: the two full-list dialogs
      follow the hash, and the record is kept as it is when they already do. */
  function HashFlags(f: Flags, hash: string): (r: Flags)
    ensures IsOpen(r, AllTripsList) <==> hash == AllTripsHash
    ensures IsOpen(r, AllChargesList) <==> hash == AllChargesHash
    ensures forall m :: m != AllTripsList && m != AllChargesList ==> IsOpen(r, m) == IsOpen(f, m)
  {
    var trips, charges := hash == AllTripsHash, hash == AllChargesHash;
    if IsOpen(f, AllTripsList) == trips && IsOpen(f, AllChargesList) == charges then f
    else f[AllTripsList := trips][AllChargesList := charges]
  }

  /** The hook's state. `typed` says which twin it is: only the TypeScript
      one follows the hash. */
  class Modals<Car> {
    const typed: bool
    var modals: Flags
    var registryCars: seq<Car>
    var legalInitialSection: string
    var selectedTrip: Option<Trip>
    var selectedCharge: Option<Charge>
    var editingCharge: Option<Charge>

    /** The TypeScript hook: all closed, then the mount-time `popstate`
        check against the current hash. */
    constructor FromHash(hash: string)
      ensures typed
      ensures modals == HashFlags(AllClosed(), hash) && registryCars == []
      ensures legalInitialSection == "privacy"
      ensures selectedTrip.None? && selectedCharge.None? && editingCharge.None?
    {
      typed := true;
      modals := HashFlags(AllClosed(), hash);
      registryCars := [];
      legalInitialSection := "privacy";
      selectedTrip, selectedCharge, editingCharge := None, None, None;
    }

    /** The JavaScript hook: all closed. */
    constructor Plain()
      ensures !typed
      ensures modals == AllClosed() && registryCars == []
      ensures legalInitialSection == "privacy"
      ensures selectedTrip.None? && selectedCharge.None? && editingCharge.None?
    {
      typed := false;
      modals := AllClosed();
      registryCars := [];
      legalInitialSection := "privacy";
      selectedTrip, selectedCharge, editingCharge := None, None, None;
    }

    /** `openModal(name)`: that flag true, nothing else changed. */
    method OpenModal(name: ModalName, hash: string) returns (call: HistoryCall)
      modifies this
      ensures modals == WithFlag(old(modals), name, true)
      ensures call == (if typed then OpenHistory(name, hash) else NoCall)
      ensures registryCars == old(registryCars) && legalInitialSection == old(legalInitialSection)
      ensures selectedTrip == old(selectedTrip) && selectedCharge == old(selectedCharge) && editingCharge == old(editingCharge)
    {
      call := if typed then OpenHistory(name, hash) else NoCall;
      modals := WithFlag(modals, name, true);
    }

    /** `closeModal(name)`: that flag false, nothing else changed. */
    method CloseModal(name: ModalName, hash: string) returns (call: HistoryCall)
      modifies this
      ensures modals == WithFlag(old(modals), name, false)
      ensures call == (if typed then CloseHistory(name, hash) else NoCall)
      ensures registryCars == old(registryCars) && legalInitialSection == old(legalInitialSection)
      ensures selectedTrip == old(selectedTrip) && selectedCharge == old(selectedCharge) && editingCharge == old(editingCharge)
    {
      call := if typed then CloseHistory(name, hash) else NoCall;
      modals := WithFlag(modals, name, false);
    }

    /** `toggleModal(name)`: that flag flipped, nothing else changed. */
    method ToggleModal(name: ModalName)
      modifies this
      ensures modals == Toggled(old(modals), name)
      ensures registryCars == old(registryCars) && legalInitialSection == old(legalInitialSection)
      ensures selectedTrip == old(selectedTrip) && selectedCharge == old(selectedCharge) && editingCharge == old(editingCharge)
    {
      modals := Toggled(modals, name);
    }

    /** `closeAllModals`: the closed record, no cars and nothing selected. */
    method CloseAllModals()
      modifies this
      ensures modals == AllClosed() && registryCars == []
      ensures selectedTrip.None? && selectedCharge.None? && editingCharge.None?
      ensures legalInitialSection == old(legalInitialSection)
    {
      modals := AllClosed();
      registryCars := [];
      selectedTrip, selectedCharge, editingCharge := None, None, None;
    }

    /** `openRegistryModal(cars)`. */
    method OpenRegistryModal(cars: seq<Car>)
      modifies this
      ensures modals == WithFlag(old(modals), RegistryRestore, true) && registryCars == cars
      ensures legalInitialSection == old(legalInitialSection)
      ensures selectedTrip == old(selectedTrip) && selectedCharge == old(selectedCharge) && editingCharge == old(editingCharge)
    {
      modals := WithFlag(modals, RegistryRestore, true);
      registryCars := cars;
    }

    /** `closeRegistryModal()`. */
    method CloseRegistryModal()
      modifies this
      ensures modals == WithFlag(old(modals), RegistryRestore, false) && registryCars == []
      ensures legalInitialSection == old(legalInitialSection)
      ensures selectedTrip == old(selectedTrip) && selectedCharge == old(selectedCharge) && editingCharge == old(editingCharge)
    {
      modals := WithFlag(modals, RegistryRestore, false);
      registryCars := [];
    }

    /** `openLegalModal(section)`; the caller passes 'privacy' when it gives
        no section. */
    method OpenLegalModal(section: string)
      modifies this
      ensures modals == WithFlag(old(modals), Legal, true) && legalInitialSection == section
      ensures registryCars == old(registryCars)
      ensures selectedTrip == old(selectedTrip) && selectedCharge == old(selectedCharge) && editingCharge == old(editingCharge)
    {
      legalInitialSection := section;
      modals := WithFlag(modals, Legal, true);
    }

    /** The TypeScript `popstate` handler. */
    method PopState(hash: string)
      requires typed
      modifies this
      ensures modals == HashFlags(old(modals), hash)
      ensures registryCars == old(registryCars) && legalInitialSection == old(legalInitialSection)
      ensures selectedTrip == old(selectedTrip) && selectedCharge == old(selectedCharge) && editingCharge == old(editingCharge)
    {
      modals := HashFlags(modals, hash);
    }

    /** `isAnyModalOpen` as the TypeScript hook computes it; the JavaScript
        twin's version is `JsAnyModalOpen`. */
    function IsAnyModalOpen(): (r: bool)
      reads this
      ensures r <==> exists n :: IsOpen(modals, n)
    {
      AnyModalOpen(modals)
    }
  }
}
