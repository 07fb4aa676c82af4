/** `loadChargeRegistry` (the JavaScript importer hook and its TypeScript copy
    in the data provider): reading a charge-log CSV into charging sessions,
    resolving each charger name to a known charger type or creating one. */
module ChargeImport {
  import opened Wrappers
  import opened Records
  import opened JsText
  import opened CsvText

  /** `ct.name.toLowerCase() === name.toLowerCase()`. */
  predicate SameName(ct: ChargerType, name: string) { ToLower(ct.name) == ToLower(name) }

  /** `types.find(ct => same name)`: the first type with the name. */
  function FindByName(types: seq<ChargerType>, name: string): (r: Option<ChargerType>)
    ensures r.Some? ==> r.value in types && SameName(r.value, name)
    ensures r.None? <==> forall k :: 0 <= k < |types| ==> !SameName(types[k], name)
    ensures forall k ::
      (0 <= k < |types| && SameName(types[k], name) && forall j :: 0 <= j < k ==> !SameName(types[j], name))
      ==> r == Some(types[k])
  {
    if types == [] then None
    else if SameName(types[0], name) then Some(types[0])
    else
      var r := FindByName(types[1..], name);
      assert forall k :: 1 <= k < |types| ==> types[k] == types[1..][k - 1];
      r
  }

  /** A capitalised, accented name finds the charger type it names:
      "CARGA RÁPIDA" is the default "Carga rápida" type. */
  lemma AccentedNameFound(types: seq<ChargerType>)
    requires types == [ChargerType("slow", "Carga lenta", 7.4, Some(0.90)),
                       ChargerType("fast", "Carga r\U{E1}pida", 50.0, Some(0.92))]
    ensures FindByName(types, "CARGA R\U{C1}PIDA") == Some(types[1])
  {
    var name := "CARGA R\U{C1}PIDA";
    FastNamed(types[1], name);
    SlowNotNamed(types[0], name);
    assert FindByName(types[1..], name) == Some(types[1]);
  }

  /** ... so the session gets the id "fast" and no charger type is created. */
  lemma AccentedNameResolved(types: seq<ChargerType>, acc: Acc, i: nat, now: int)
    requires types == [ChargerType("slow", "Carga lenta", 7.4, Some(0.90)),
                       ChargerType("fast", "Carga r\U{E1}pida", 50.0, Some(0.92))]
    ensures Resolve(types, acc, "CARGA R\U{C1}PIDA", i, now) == Resolved("fast", acc)
  {
    AccentedNameFound(types);
  }

  lemma FastNamed(ct: ChargerType, name: string)
    requires ct.name == "Carga r\U{E1}pida" && name == "CARGA R\U{C1}PIDA"
    ensures SameName(ct, name)
  {
    LowerFastCaps();
    LowerFast();
  }

  lemma SlowNotNamed(ct: ChargerType, name: string)
    requires ct.name == "Carga lenta" && name == "CARGA R\U{C1}PIDA"
    ensures !SameName(ct, name)
  {
    assert |ToLower(ct.name)| == 11 != 12 == |ToLower(name)|;
  }

  lemma LowerFastCaps()
    ensures ToLower("CARGA R\U{C1}PIDA") == "carga r\U{E1}pida"
  {
    LowerIs("CARGA R\U{C1}PIDA", "carga r\U{E1}pida");
  }

  lemma LowerFast()
    ensures ToLower("Carga r\U{E1}pida") == "carga r\U{E1}pida"
  {
    LowerIs("Carga r\U{E1}pida", "carga r\U{E1}pida");
  }

  /** Lower-casing, character by character. */
  lemma LowerIs(s: string, t: string)
    requires |s| == |t| && forall k :: 0 <= k < |s| ==> LowerChar(s[k]) == t[k]
    ensures ToLower(s) == t
  {
  }

  /** The lower-cased names of a list of charger types. */
  function LowerNames(types: seq<ChargerType>): (r: set<string>)
    ensures forall n :: n in r <==> exists k :: 0 <= k < |types| && ToLower(types[k].name) == n
  {
    set k | 0 <= k < |types| :: ToLower(types[k].name)
  }

  /** The loop's variables: `charges`, `newChargerTypes`, `existingChargerNames`. */
  datatype Acc = Acc(charges: seq<Charge>, created: seq<ChargerType>, names: set<string>)

  /** `csv_${Date.now()}_${i}`. */
  function NewId(now: int, i: nat): string {
    "csv_" + IntToString(now) + "_" + IntToString(i)
  }

  /** A created charger type: 11 kW, efficiency 1. */
  function NewType(id: string, name: string): ChargerType {
    ChargerType(id, name, 11.0, Some(1.0))
  }

  /** The charger id given to a session ("" for `null`) and the loop variables after it. */
  datatype Resolved = Resolved(id: string, acc: Acc)

  /** The loop variables after creating a type for `name`. */
  function Created(acc: Acc, id: string, name: string): Acc {
    acc.(created := acc.created + [NewType(id, name)], names := acc.names + {ToLower(name)})
  }

  /** The find-or-create step for the charger name of line `i`. */
  function Resolve(types: seq<ChargerType>, acc: Acc, name: string, i: nat, now: int): Resolved {
    if name == "" then Resolved("", acc)
    else match FindByName(types, name)
      case Some(ct) => Resolved(ct.id, acc)
      case None =>
        if ToLower(name) !in acc.names then Resolved(NewId(now, i), Created(acc, NewId(now, i), name))
        else
          match FindByName(acc.created, name)
          case Some(ct) => Resolved(ct.id, acc)
          case None => Resolved("", acc)
  }

  /** What the loop keeps true: the name set is the names of the known and the
      created types; no created type has the name of a known type or of another
      created one; and every created type came with a session. */
  predicate Good(types: seq<ChargerType>, acc: Acc) {
    acc.names == LowerNames(types) + LowerNames(acc.created)
    && (forall k :: 0 <= k < |acc.created| ==> FindByName(types, acc.created[k].name).None?)
    && (forall j, k :: 0 <= j < k < |acc.created| ==> ToLower(acc.created[j].name) != ToLower(acc.created[k].name))
    && |acc.created| <= |acc.charges|
  }

  /** A blank name gives no id; any other name gets the id of a type with the
      same name up to case: the first known one, else the one created for it,
      created now only when no type had that name before. The queued lookup
      never comes back empty. */
  lemma ResolveSpec(types: seq<ChargerType>, acc: Acc, name: string, i: nat, now: int)
    requires Good(types, acc)
    ensures var r := Resolve(types, acc, name, i, now);
      (name == "" ==> r.id == "" && r.acc == acc)
      && (name != "" ==> exists ct :: ct in types + r.acc.created && ct.id == r.id && SameName(ct, name))
      && (name != "" && FindByName(types, name).Some? ==> r.id == FindByName(types, name).value.id && r.acc == acc)
      && (r.acc == acc || (ToLower(name) !in acc.names && r.acc == Created(acc, r.id, name)))
  {
    var r := Resolve(types, acc, name, i, now);
    if name != "" {
      var f := FindByName(types, name);
      if f.Some? {
        assert f.value in types + r.acc.created;
      } else if ToLower(name) !in acc.names {
        var ct := NewType(r.id, name);
        assert r.acc.created[|acc.created|] == ct;
        assert ct in types + r.acc.created;
      } else {
        QueuedFound(types, acc, name);
        var g := FindByName(acc.created, name);
        assert g.value in types + r.acc.created;
      }
    }
  }

  /** A name in the set that no known type has belongs to a created type. */
  lemma QueuedFound(types: seq<ChargerType>, acc: Acc, name: string)
    requires Good(types, acc) && FindByName(types, name).None? && ToLower(name) in acc.names
    ensures FindByName(acc.created, name).Some?
  {
    assert ToLower(name) !in LowerNames(types) by {
      forall k | 0 <= k < |types| ensures ToLower(types[k].name) != ToLower(name) {
        assert !SameName(types[k], name);
      }
    }
    assert ToLower(name) in LowerNames(acc.created);
    var k :| 0 <= k < |acc.created| && ToLower(acc.created[k].name) == ToLower(name);
    assert SameName(acc.created[k], name);
  }

  /** Creating a type for an unseen name keeps the invariant (given room for
      the session that comes with it). */
  lemma NewTypeGood(types: seq<ChargerType>, acc: Acc, name: string, id: string)
    requires Good(types, acc) && name != "" && FindByName(types, name).None? && ToLower(name) !in acc.names
    requires |acc.created| < |acc.charges|
    ensures Good(types, Created(acc, id, name))
  {
    var c := acc.created + [NewType(id, name)];
    assert LowerNames(c) == LowerNames(acc.created) + {ToLower(name)} by {
      forall n | n in LowerNames(c) ensures n in LowerNames(acc.created) + {ToLower(name)} {
        var k :| 0 <= k < |c| && ToLower(c[k].name) == n;
        if k < |acc.created| {
          assert c[k] == acc.created[k];
        }
      }
      forall n | n in LowerNames(acc.created) ensures n in LowerNames(c) {
        var k :| 0 <= k < |acc.created| && ToLower(acc.created[k].name) == n;
        assert c[k] == acc.created[k];
      }
      assert c[|acc.created|].name == name;
    }
    forall j, k | 0 <= j < k < |c| ensures ToLower(c[j].name) != ToLower(c[k].name) {
      if k == |acc.created| {
        assert c[j] == acc.created[j];
        assert ToLower(acc.created[j].name) in LowerNames(acc.created);
      } else {
        assert c[j] == acc.created[j] && c[k] == acc.created[k];
      }
    }
    forall k | 0 <= k < |c| ensures FindByName(types, c[k].name).None? {
      if k == |acc.created| {
        assert c[k].name == name;
      } else {
        assert c[k] == acc.created[k];
      }
    }
  }

  /** The session read from one line: `parseFloat(x) || 0` for the numbers. */
  function RowCharge(date: string, time: string, values: seq<string>, chargerId: string): Charge
    requires |values| >= 8
  {
    Charge("", date, time, ParseFloatOr0(values[1]), ParseFloatOr0(values[2]), 0.0,
           ParseFloatOr0(values[3]), ParseFloatOr0(values[6]), chargerId,
           Some(ParseFloatOr0(values[7])), None, Unset, 0.0, 0.0, 0.0, 0)
  }

  /** What one pass of the loop does: skip, stop, or add a session. */
  datatype Step = Skip | Stop | Take(charge: Charge, acc: Acc)

  /** One line `i`: fewer than 8 fields skip it; a first field not starting
      with `YYYY-MM-DD` stops the loop; no `YYYY-MM-DD HH:MM` anywhere in that
      field skips it; otherwise the session is taken. */
  function RowStep(types: seq<ChargerType>, acc: Acc, line: string, i: nat, now: int): Step {
    var values := Fields(line, ',');
    if |values| < 8 then Skip
    else if !DateAt(values[0], 0) then Stop
    else match FindDateTime(values[0], 0)
      case None => Skip
      case Some((date, time)) =>
        var r := Resolve(types, acc, Trim(values[5]), i, now);
        var c := RowCharge(date, time, values, r.id);
        Take(c, r.acc.(charges := r.acc.charges + [c]))
  }

  /** The loop from line `i` on. */
  function Registry(types: seq<ChargerType>, lines: seq<string>, i: nat, acc: Acc, now: int): Acc
    decreases |lines| - i
  {
    if i >= |lines| then acc
    else match RowStep(types, acc, lines[i], i, now)
      case Stop => acc
      case Skip => Registry(types, lines, i + 1, acc, now)
      case Take(_, a) => Registry(types, lines, i + 1, a, now)
  }

  function Start(types: seq<ChargerType>): Acc { Acc([], [], LowerNames(types)) }

  /** What the importer ends with: too few lines, or the sessions read and the
      charger types to append to the settings (`None`: the settings are not
      touched). */
  datatype Outcome = NoData | Read(charges: seq<Charge>, newTypes: Option<seq<ChargerType>>)

  function Finish(types: seq<ChargerType>, acc: Acc): Outcome {
    Read(acc.charges, if acc.created != [] then Some(types + acc.created) else None)
  }

  function LoadRegistry(text: string, types: seq<ChargerType>, now: int): Outcome {
    var lines := LfLines(text);
    if |lines| < 2 then NoData else Finish(types, Registry(types, lines, 1, Start(types), now))
  }

  /** Every step keeps the invariant and only appends. */
  lemma RowStepGood(types: seq<ChargerType>, acc: Acc, line: string, i: nat, now: int)
    requires Good(types, acc)
    ensures RowStep(types, acc, line, i, now).Take? ==>
      var s := RowStep(types, acc, line, i, now);
      Good(types, s.acc) && s.acc.charges == acc.charges + [s.charge]
  {
    var values := Fields(line, ',');
    if |values| >= 8 && DateAt(values[0], 0) && FindDateTime(values[0], 0).Some? {
      var name := Trim(values[5]);
      var m := FindDateTime(values[0], 0).value;
      var r := Resolve(types, acc, name, i, now);
      ResolveSpec(types, acc, name, i, now);
      var c := RowCharge(m.0, m.1, values, r.id);
      assert RowStep(types, acc, line, i, now) == Take(c, r.acc.(charges := r.acc.charges + [c]));
      TakeGood(types, acc, name, r, c);
    }
  }

  /** Adding the session to the loop variables after a find-or-create step
      keeps the invariant. */
  lemma TakeGood(types: seq<ChargerType>, acc: Acc, name: string, r: Resolved, c: Charge)
    requires Good(types, acc)
    requires r.acc.charges == acc.charges
    requires r.acc == acc || (name != "" && FindByName(types, name).None? && ToLower(name) !in acc.names
                              && r.acc == Created(acc, r.id, name))
    ensures Good(types, r.acc.(charges := r.acc.charges + [c]))
  {
    if r.acc != acc {
      var acc1 := acc.(charges := acc.charges + [c]);
      NewTypeGood(types, acc1, name, r.id);
      assert r.acc.(charges := r.acc.charges + [c]) == Created(acc1, r.id, name);
    }
  }

  /** A session taken from a line has the date and time of the first
      `YYYY-MM-DD HH:MM` of its first field, the numbers of fields 2, 3, 4, 7
      and 8 (0 when unreadable), and the charger of field 6. */
  lemma RowStepTake(types: seq<ChargerType>, acc: Acc, line: string, i: nat, now: int)
    requires RowStep(types, acc, line, i, now).Take?
    ensures var values, c := Fields(line, ','), RowStep(types, acc, line, i, now).charge;
      |values| >= 8 && DateAt(values[0], 0)
      && FindDateTime(values[0], 0) == Some((c.date, c.time))
      && DateAt(c.date, 0) && ClockAt(c.time, 0)
      && c.odometer == ParseFloatOr0(values[1]) && c.kwhCharged == ParseFloatOr0(values[2])
      && c.totalCost == ParseFloatOr0(values[3]) && c.pricePerKwh == ParseFloatOr0(values[6])
      && c.finalPercentage == Some(ParseFloatOr0(values[7]))
      && c.chargerTypeId == Resolve(types, acc, Trim(values[5]), i, now).id
  {
  }

  /** The loop keeps the invariant to its end. */
  lemma {:induction false} RegistryGood(types: seq<ChargerType>, lines: seq<string>, i: nat, acc: Acc, now: int)
    requires Good(types, acc)
    ensures Good(types, Registry(types, lines, i, acc, now))
    ensures |acc.charges| <= |Registry(types, lines, i, acc, now).charges|
    decreases |lines| - i
  {
    if i < |lines| {
      RowStepGood(types, acc, lines[i], i, now);
      var s := RowStep(types, acc, lines[i], i, now);
      if s.Skip? {
        RegistryGood(types, lines, i + 1, acc, now);
      } else if s.Take? {
        RegistryGood(types, lines, i + 1, s.acc, now);
      }
    }
  }

  /** Fewer than two non-blank lines give no data. Otherwise the settings are
      extended only when new types were created, with one new type per name
      (up to case) that no known type has, each named as some session's
      charger; and no more types are created than sessions are read. */
  lemma LoadRegistrySpec(text: string, types: seq<ChargerType>, now: int)
    ensures LoadRegistry(text, types, now).NoData? <==> |LfLines(text)| < 2
    ensures var r := LoadRegistry(text, types, now);
      r.Read? && r.newTypes.Some? ==>
        var created := r.newTypes.value[|types|..];
        r.newTypes.value == types + created && created != []
        && |created| <= |r.charges|
        && (forall k :: 0 <= k < |created| ==> FindByName(types, created[k].name).None?)
        && (forall j, k :: 0 <= j < k < |created| ==> ToLower(created[j].name) != ToLower(created[k].name))
  {
    var lines := LfLines(text);
    if |lines| >= 2 {
      assert Good(types, Start(types));
      RegistryGood(types, lines, 1, Start(types), now);
      var acc := Registry(types, lines, 1, Start(types), now);
      assert LoadRegistry(text, types, now) == Finish(types, acc);
      if acc.created != [] {
        var nt := types + acc.created;
        assert nt[|types|..] == acc.created;
        assert Finish(types, acc).newTypes == Some(nt);
      }
    }
  }

  /** One turn of the loop: a skipped line moves on, a taken one moves on with
      the new variables, and a stop ends it. */
  lemma RegistryNext(types: seq<ChargerType>, lines: seq<string>, i: nat, acc: Acc, now: int)
    requires i < |lines|
    ensures var s := RowStep(types, acc, lines[i], i, now);
      && (s.Skip? ==> Registry(types, lines, i, acc, now) == Registry(types, lines, i + 1, acc, now))
      && (s.Take? ==> Registry(types, lines, i, acc, now) == Registry(types, lines, i + 1, s.acc, now))
      && (s.Stop? ==> Registry(types, lines, i, acc, now) == acc)
  {
  }

  /** The find-or-create step does not look at the sessions read so far. */
  lemma ResolveIgnoresCharges(types: seq<ChargerType>, acc: Acc, name: string, i: nat, now: int)
    ensures var r := Resolve(types, acc.(charges := []), name, i, now);
      Resolve(types, acc, name, i, now) == Resolved(r.id, r.acc.(charges := acc.charges))
  {
  }

  /** The find-or-create block of the loop body, updating `newChargerTypes`
      and `existingChargerNames` in place of the loop. */
  method FindOrCreate(types: seq<ChargerType>, created: seq<ChargerType>, names: set<string>,
                      name: string, i: nat, now: int)
    returns (chargerId: string, created': seq<ChargerType>, names': set<string>)
    ensures var r := Resolve(types, Acc([], created, names), name, i, now);
      chargerId == r.id && created' == r.acc.created && names' == r.acc.names
  {
    chargerId, created', names' := "", created, names;
    if name != "" {
      var existing := FindByName(types, name);
      if existing.Some? {
        chargerId := existing.value.id;
      } else if ToLower(name) !in names {
        chargerId := NewId(now, i);
        created' := created + [NewType(chargerId, name)];
        names' := names + {ToLower(name)};
      } else {
        var queued := FindByName(created, name);
        if queued.Some? {
          chargerId := queued.value.id;
        }
      }
    }
  }

  /** The body of the loop for line `i`: `stop` is the `break`; a `continue`
      leaves the variables as they were. */
  method ReadLine(types: seq<ChargerType>, charges: seq<Charge>, created: seq<ChargerType>, names: set<string>,
                  line: string, i: nat, now: int)
    returns (stop: bool, charges': seq<Charge>, created': seq<ChargerType>, names': set<string>)
    ensures var s := RowStep(types, Acc(charges, created, names), line, i, now);
      && stop == s.Stop?
      && (!s.Take? ==> charges' == charges && created' == created && names' == names)
      && (s.Take? ==> Acc(charges', created', names') == s.acc)
  {
    ghost var acc := Acc(charges, created, names);
    stop, charges', created', names' := false, charges, created, names;
    var values := Fields(line, ',');
    if |values| < 8 {
      return;
    }
    if !DateAt(values[0], 0) {
      stop := true;
      return;
    }
    var m := FindDateTime(values[0], 0);
    if m.None? {
      return;
    }
    var (date, time) := m.value;
    var name := Trim(values[5]);
    var chargerId;
    chargerId, created', names' := FindOrCreate(types, created, names, name, i, now);
    ResolveIgnoresCharges(types, acc, name, i, now);
    var c := RowCharge(date, time, values, chargerId);
    assert RowStep(types, acc, line, i, now) == Take(c, Acc(charges + [c], created', names'));
    charges' := charges + [c];
  }

  /** `loadChargeRegistry` up to the settings update and the hand-over to
      `addMultipleCharges`, as the source runs it: fewer than two lines give
      nothing, and otherwise the lines after the header are read. */
  method LoadChargeRegistry(text: string, types: seq<ChargerType>, now: int) returns (r: Outcome)
    ensures r == LoadRegistry(text, types, now)
  {
    var lines := LfLines(text);
    if |lines| < 2 {
      return NoData;
    }
    var acc := ReadLines(types, lines, now);
    r := Finish(types, acc);
  }

  /** The `for` loop over the lines after the header, with `continue` and
      `break`. */
  method ReadLines(types: seq<ChargerType>, lines: seq<string>, now: int) returns (acc: Acc)
    ensures acc == Registry(types, lines, 1, Start(types), now)
  {
    var charges: seq<Charge> := [];
    var created: seq<ChargerType> := [];
    var names := LowerNames(types);
    var i := 1;
    while i < |lines|
      invariant 1 <= i
      invariant Registry(types, lines, i, Acc(charges, created, names), now) == Registry(types, lines, 1, Start(types), now)
      decreases |lines| - i
    {
      RegistryNext(types, lines, i, Acc(charges, created, names), now);
      var stop;
      stop, charges, created, names := ReadLine(types, charges, created, names, lines[i], i, now);
      if stop {
        break;
      }
      i := i + 1;
    }
    acc := Acc(charges, created, names);
  }
}
