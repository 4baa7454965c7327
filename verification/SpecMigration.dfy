/**
 Conversion of a device spec to the 5.0.0 format (bin/countinghouse-migrate-spec.js:33-118).
 Services and actions keep the order of their keys; an action list that is missing is an old one
 without actions.  A key that is absent and one whose value is null are told apart only where
 the source does.
 */
module SpecMigration {
  import opened Wrappers

  /** A JSON value; a number or a boolean is its text. */
  datatype Json = Null | Plain(text: string) | Str(value: string) | Arr(items: seq<Json>) | Obj(fields: map<string, Json>)

  type Action = map<string, Json>

  datatype Actions = Old(byName: seq<(string, Json)>) | New(actions: seq<Json>)

  /** `table` is Null for a service without a state table. */
  datatype Service = Service(actions: Actions, table: Json, rest: Json)

  /** `services` is None for a spec without a service list. */
  datatype Spec = Spec(configId: Option<Json>, specVersion: Option<Json>, services: Option<seq<(string, Service)>>, rest: Json)

  datatype Result<T> = Ok(value: T) | Error

  const DROPPED_ACTION_KEYS := ["argumentList", "realPrice", "priceInfo", "freeCount", "apiCache", "apiLog"]

  predicate OldService(s: Service) { s.table != Null || s.actions.Old? }

  predicate IsOldFormat(spec: Spec) {
    spec.services.Some? && exists i :: 0 <= i < |spec.services.value| && OldService(spec.services.value[i].1)
  }

  // ----- one action -----

  /** The text of a number. */
  function NumberText(n: nat): string { if n < 10 then ["0123456789"[n]] else NumberText(n / 10) + ["0123456789"[n % 10]] }

  /** Items as an object: the first `n`, under their numbers. */
  function Indexed(items: seq<Json>, n: nat): Action
    requires n <= |items|
  {
    if n == 0 then map[] else Indexed(items, n - 1)[NumberText(n - 1) := items[n - 1]]
  }

  /** The own enumerable keys of a value that is not null, with their values. */
  function Own(j: Json): Action {
    match j
    case Obj(fields) => fields
    case Arr(items) => Indexed(items, |items|)
    case Str(t) => Indexed(seq(|t|, i requires 0 <= i < |t| => Str([t[i]])), |t|)
    case _ => map[]
  }

  /** `j[key]`, null if there is nothing. */
  function Field(j: Json, key: string): Json { if key in Own(j) then Own(j)[key] else Null }

  /** A value used as a key. */
  function KeyText(j: Json): string {
    match j
    case Null => ""
    case Plain(t) => t
    case Str(t) => t
    case Arr(items) => Joined(items)
    case Obj(_) => "[object Object]"
  }

  function Joined(items: seq<Json>): string {
    if items == [] then "" else if |items| == 1 then KeyText(items[0]) else KeyText(items[0]) + "," + Joined(items[1..])
  }

  /** `schemaPointerFor`: none for no argument, an error if it leads nowhere. */
  function PointerFor(table: Json, argument: Json): Result<Option<string>> {
    var name := Field(argument, "relatedStateVariable");
    var schema := Field(Field(table, KeyText(name)), "schema");
    if argument == Null then Ok(None)
    else if name == Null || !schema.Str? then Error
    else Ok(Some(schema.value))
  }

  function ArgumentOf(a: Action, key: string): Json { Field(Field(Obj(a), "argumentList"), key) }

  /** A key is not carried over if it is converted or dropped; assigning to `__proto__` adds no key. */
  predicate Carried(key: string) {
    key != "name" && key != "description" && key != "fault" && key !in DROPPED_ACTION_KEYS && key != "__proto__"
  }

  function CarriedOver(a: Action): Action { map key | key in a && Carried(key) :: a[key] }

  function WithSchema(out: Action, key: string, pointer: Option<string>): Action {
    if pointer.Some? then out[key := Obj(map["schema" := Str(pointer.value)])] else out
  }

  function WithValue(out: Action, key: string, value: Json): Action { if value != Null then out[key := value] else out }

  /** The keys that are converted, before the others are carried over. */
  function Converted(name: string, a: Action, input: Option<string>, output: Option<string>): Action {
    var named := WithValue(map["name" := Str(name)], "description", Field(Obj(a), "description"));
    WithValue(WithSchema(WithSchema(named, "input", input), "output", output), "fault", Field(Obj(a), "fault"))
  }

  function MigrateAction(name: string, a: Action, table: Json): Result<Action> {
    var input, output := PointerFor(table, ArgumentOf(a, "input")), PointerFor(table, ArgumentOf(a, "output"));
    if input.Error? || output.Error? then Error
    else Ok(Converted(name, a, input.value, output.value) + CarriedOver(a))
  }

  /** An action that is not an object has the keys of its items or characters, or none; null is an error. */
  function MigrateEntry(name: string, a: Json, table: Json): Result<Action> {
    if a == Null then Error else MigrateAction(name, Own(a), table)
  }

  // ----- the whole spec -----

  /** What each action becomes. */
  function Outcomes(entries: seq<(string, Json)>, table: Json): seq<Result<Action>> {
    seq(|entries|, i requires 0 <= i < |entries| => MigrateEntry(entries[i].0, entries[i].1, table))
  }

  /** The actions, if none is an error. */
  function Collected(rs: seq<Result<Action>>): Result<seq<Json>> {
    if rs == [] then Ok([])
    else
      var n := |rs| - 1;
      var front := Collected(rs[..n]);
      if front.Error? || rs[n].Error? then Error else Ok(front.value + [Obj(rs[n].value)])
  }

  function MigrateActions(entries: seq<(string, Json)>, table: Json): Result<seq<Json>> { Collected(Outcomes(entries, table)) }

  /** A service whose actions are a list already is left as it is, table and all. */
  function MigrateService(s: Service): Result<Service> {
    if s.actions.New? then Ok(s)
    else
      var actions := MigrateActions(s.actions.byName, s.table);
      if actions.Error? then Error else Ok(s.(actions := New(actions.value), table := Null))
  }

  function MigrateServices(services: seq<(string, Service)>): Result<seq<(string, Service)>> {
    if services == [] then Ok([])
    else
      var n := |services| - 1;
      var front := MigrateServices(services[..n]);
      var last := MigrateService(services[n].1);
      if front.Error? || last.Error? then Error else Ok(front.value + [(services[n].0, last.value)])
  }

  function Migrate(spec: Spec): Result<Spec> {
    if !IsOldFormat(spec) then Ok(spec)
    else
      var services := MigrateServices(spec.services.value);
      if services.Error? then Error
      else Ok(spec.(configId := None, specVersion := None, services := Some(services.value)))
  }

  // ----- in its own form -----

  method OldFormat(spec: Spec) returns (isOld: bool)
    ensures isOld <==> IsOldFormat(spec)
  {
    if spec.services.None? { return false; }
    var services := spec.services.value;
    for i := 0 to |services|
      invariant forall k :: 0 <= k < i ==> !OldService(services[k].1)
    {
      if services[i].1.table != Null { return true; }
      if services[i].1.actions.Old? { return true; }
    }
    return false;
  }

  /** `migrateAction`: the converted keys, and then the loop over all keys of the old action, in any order. */
  method ConvertAction(name: string, a: Action, table: Json) returns (r: Result<Action>)
    ensures r == MigrateAction(name, a, table)
  {
    var input := PointerFor(table, ArgumentOf(a, "input"));
    var output := PointerFor(table, ArgumentOf(a, "output"));
    if input.Error? || output.Error? { return Error; }
    var out := ConvertKeys(name, a, input.value, output.value);
    out := CarryOver(out, a);
    return Ok(out);
  }

  method ConvertKeys(name: string, a: Action, input: Option<string>, output: Option<string>) returns (out: Action)
    ensures out == Converted(name, a, input, output)
  {
    out := map["name" := Str(name)];
    if "description" in a && a["description"] != Null { out := out["description" := a["description"]]; }
    if input.Some? { out := out["input" := Obj(map["schema" := Str(input.value)])]; }
    if output.Some? { out := out["output" := Obj(map["schema" := Str(output.value)])]; }
    if "fault" in a && a["fault"] != Null { out := out["fault" := a["fault"]]; }
  }

  /** What is carried over when the keys in `rest` have not been looked at yet. */
  ghost predicate CarriedBut(converted: Action, a: Action, rest: set<string>, out: Action) {
    && (forall key :: key in out <==> key in converted || (key in a && key !in rest && Carried(key)))
    && (forall key :: key in out ==> out[key] == if key in a && key !in rest && Carried(key) then a[key] else converted[key])
  }

  method CarryOver(converted: Action, a: Action) returns (out: Action)
    ensures out == converted + CarriedOver(a)
  {
    out := converted;
    var rest := a.Keys;
    while rest != {}
      invariant rest <= a.Keys && CarriedBut(converted, a, rest, out)
      decreases rest
    {
      var key :| key in rest;
      var skip := Skipped(key);
      CarryOne(converted, a, rest, out, key);
      rest := rest - {key};
      if !skip { out := out[key := a[key]]; }
    }
  }

  /** The two tests of the loop; assigning to `__proto__` adds no key. */
  method Skipped(key: string) returns (skip: bool)
    ensures skip <==> !Carried(key)
  {
    if key == "name" || key == "description" || key == "fault" { return true; }
    if key in DROPPED_ACTION_KEYS { return true; }
    return key == "__proto__";
  }

  lemma CarryOne(converted: Action, a: Action, rest: set<string>, out: Action, key: string)
    requires CarriedBut(converted, a, rest, out) && key in rest && rest <= a.Keys
    ensures CarriedBut(converted, a, rest - {key}, if Carried(key) then out[key := a[key]] else out)
  {
  }

  method ConvertService(s: Service) returns (r: Result<Service>)
    ensures r == MigrateService(s)
  {
    if s.actions.New? { return Ok(s); }
    var entries := s.actions.byName;
    var actions: seq<Json> := [];
    for i := 0 to |entries|
      invariant Collected(Outcomes(entries, s.table)[..i]) == Ok(actions)
    {
      ghost var rs := Outcomes(entries, s.table);
      assert rs[..i + 1][..i] == rs[..i];
      var a: Result<Action> := Error;
      if entries[i].1 != Null { a := ConvertAction(entries[i].0, Own(entries[i].1), s.table); }
      if a.Error? {
        CollectedFail(rs, i);
        return Error;
      }
      actions := actions + [Obj(a.value)];
    }
    assert Outcomes(entries, s.table)[..|entries|] == Outcomes(entries, s.table);
    return Ok(s.(actions := New(actions), table := Null));
  }

  lemma {:induction false} CollectedFail(rs: seq<Result<Action>>, n: nat)
    requires n < |rs| && rs[n].Error?
    ensures Collected(rs).Error?
    decreases |rs|
  {
    if n < |rs| - 1 { CollectedFail(rs[..|rs| - 1], n); }
  }

  lemma {:induction false} ServicesFail(services: seq<(string, Service)>, n: nat)
    requires n <= |services| && MigrateServices(services[..n]).Error?
    ensures MigrateServices(services).Error?
    decreases |services| - n
  {
    if n == |services| {
      assert services[..n] == services;
    } else {
      assert services[..n + 1][..n] == services[..n];
      ServicesFail(services, n + 1);
    }
  }

  method ConvertSpec(spec: Spec) returns (r: Result<Spec>)
    ensures r == Migrate(spec)
  {
    var isOld := OldFormat(spec);
    if !isOld { return Ok(spec); }
    var services := spec.services.value;
    var out: seq<(string, Service)> := [];
    for i := 0 to |services|
      invariant MigrateServices(services[..i]) == Ok(out)
    {
      assert services[..i + 1][..i] == services[..i];
      var s := ConvertService(services[i].1);
      if s.Error? {
        ServicesFail(services, i + 1);
        return Error;
      }
      out := out + [(services[i].0, s.value)];
    }
    assert services[..|services|] == services;
    return Ok(spec.(configId := None, specVersion := None, services := Some(out)));
  }

  // ----- what is kept -----

  /** The keys that migrateAction treats in its own way. */
  const TREATED := {"name", "description", "fault", "input", "output", "__proto__"}

  /** The keys that the format has no place for any more. */
  predicate Dropped(key: string) {
    || key == "argumentList" || key == "realPrice" || key == "priceInfo" || key == "freeCount"
    || key == "apiCache" || key == "apiLog"
  }

  /**
   The new action says what the old one said: it has its name, its description and fault unless
   null, none of the dropped keys, no key `__proto__`, and every other key with its value.
   */
  ghost predicate SameAction(name: string, a: Action, table: Json, b: Action) {
    && "name" in b && b["name"] == Str(name)
    && SameUnlessNull(a, b, "description") && SameUnlessNull(a, b, "fault")
    && (forall key :: key in b ==> !Dropped(key) && key != "__proto__")
    && (forall key :: key !in TREATED && !Dropped(key) ==> (key in a <==> key in b))
    && (forall key :: key !in TREATED && key in b ==> key in a && b[key] == a[key])
    && SameSlot(a, "input", table, b) && SameSlot(a, "output", table, b)
  }

  ghost predicate SameUnlessNull(a: Action, b: Action, key: string) {
    if key in a && a[key] != Null then key in b && b[key] == a[key] else key !in b
  }

  /** The pointer the argument led to in the old table, unless the action had such a key of its own. */
  ghost predicate SameSlot(a: Action, key: string, table: Json, b: Action) {
    var argument := ArgumentOf(a, key);
    if key in a then key in b && b[key] == a[key]
    else if argument == Null then key !in b
    else
      var schema := Field(Field(table, KeyText(Field(argument, "relatedStateVariable"))), "schema");
      Field(argument, "relatedStateVariable") != Null && schema.Str? && key in b && b[key] == Obj(map["schema" := schema])
  }

  lemma {:induction false} ActionKept(name: string, a: Action, table: Json, b: Action)
    requires MigrateAction(name, a, table) == Ok(b)
    ensures SameAction(name, a, table, b)
  {
    var input, output := PointerFor(table, ArgumentOf(a, "input")).value, PointerFor(table, ArgumentOf(a, "output")).value;
    var c := Converted(name, a, input, output);
    ConvertedKeys(name, a, input, output);
    MergedKept(name, a, c, b);
    MergedSlot(a, "input", table, c, b);
    MergedSlot(a, "output", table, c, b);
  }

  lemma {:induction false} MergedKept(name: string, a: Action, c: Action, b: Action)
    requires b == c + CarriedOver(a) && c.Keys <= {"name", "description", "fault", "input", "output"}
    requires "name" in c && c["name"] == Str(name) && SameUnlessNull(a, c, "description") && SameUnlessNull(a, c, "fault")
    ensures "name" in b && b["name"] == Str(name) && SameUnlessNull(a, b, "description") && SameUnlessNull(a, b, "fault")
    ensures forall key :: key in b ==> !Dropped(key) && key != "__proto__"
    ensures forall key :: key !in TREATED && !Dropped(key) ==> (key in a <==> key in b)
    ensures forall key :: key !in TREATED && key in b ==> key in a && b[key] == a[key]
  {
    assert !Carried("name") && !Carried("description") && !Carried("fault");
    forall key | key in b ensures !Dropped(key) && key != "__proto__" { NotDropped(key, a, c, b); }
    forall key | key !in TREATED && !Dropped(key) ensures key in a <==> key in b { DroppedIs(key); }
  }

  lemma NotDropped(key: string, a: Action, c: Action, b: Action)
    requires b == c + CarriedOver(a) && c.Keys <= {"name", "description", "fault", "input", "output"} && key in b
    ensures !Dropped(key) && key != "__proto__"
  {
    if key in c { NoneDropped(key); } else { DroppedIs(key); }
  }

  lemma NoneDropped(key: string)
    requires key in {"name", "description", "fault", "input", "output"}
    ensures !Dropped(key)
  {
  }

  lemma DroppedIs(key: string)
    ensures key in DROPPED_ACTION_KEYS <==> Dropped(key)
  {
  }

  lemma {:induction false} MergedSlot(a: Action, key: string, table: Json, c: Action, b: Action)
    requires b == c + CarriedOver(a) && (key == "input" || key == "output") && PointerFor(table, ArgumentOf(a, key)).Ok?
    requires var pointer := PointerFor(table, ArgumentOf(a, key)).value;
      (key in c <==> pointer.Some?) && (pointer.Some? ==> c[key] == Obj(map["schema" := Str(pointer.value)]))
    ensures SameSlot(a, key, table, b)
  {
    DroppedIs(key);
    assert Carried(key);
  }

  lemma ConvertedKeys(name: string, a: Action, input: Option<string>, output: Option<string>)
    ensures var c := Converted(name, a, input, output);
      && c.Keys <= {"name", "description", "fault", "input", "output"}
      && "name" in c && c["name"] == Str(name)
      && SameUnlessNull(a, c, "description") && SameUnlessNull(a, c, "fault")
      && ("input" in c <==> input.Some?) && (input.Some? ==> c["input"] == Obj(map["schema" := Str(input.value)]))
      && ("output" in c <==> output.Some?) && (output.Some? ==> c["output"] == Obj(map["schema" := Str(output.value)]))
  {
  }

  lemma {:induction false} CollectedAt(rs: seq<Result<Action>>, i: nat)
    requires Collected(rs).Ok? && i < |rs|
    ensures var out := Collected(rs).value; |out| == |rs| && out[i].Obj? && rs[i] == Ok(out[i].fields)
    decreases |rs|
  {
    var n := |rs| - 1;
    CollectedLength(rs[..n]);
    if i < n { CollectedAt(rs[..n], i); }
  }

  lemma {:induction false} CollectedLength(rs: seq<Result<Action>>)
    requires Collected(rs).Ok?
    ensures |Collected(rs).value| == |rs|
    decreases |rs|
  {
    if rs != [] { CollectedLength(rs[..|rs| - 1]); }
  }

  lemma {:induction false} ServicesAt(services: seq<(string, Service)>, i: nat)
    requires MigrateServices(services).Ok? && i < |services|
    ensures var out := MigrateServices(services).value;
      |out| == |services| && out[i].0 == services[i].0 && MigrateService(services[i].1) == Ok(out[i].1)
    decreases |services|
  {
    var n := |services| - 1;
    ServicesLength(services[..n]);
    if i < n { ServicesAt(services[..n], i); }
  }

  lemma {:induction false} ServicesLength(services: seq<(string, Service)>)
    requires MigrateServices(services).Ok?
    ensures |MigrateServices(services).value| == |services|
    decreases |services|
  {
    if services != [] { ServicesLength(services[..|services| - 1]); }
  }

  /**
   Whenever it succeeds, migration keeps services and actions in order and number and, of each
   action, exactly the keys outside the two lists, with their values, and every description and
   fault; and gives it the pointers its arguments led to.
   */
  lemma {:induction false} MeaningKept(spec: Spec, i: nat, k: nat)
    requires Migrate(spec).Ok? && spec.services.Some? && i < |spec.services.value|
    requires spec.services.value[i].1.actions.Old? && k < |spec.services.value[i].1.actions.byName|
    ensures var out := Migrate(spec).value; var s := spec.services.value[i].1;
      && out.rest == spec.rest && out.services.Some? && |out.services.value| == |spec.services.value|
      && out.services.value[i].0 == spec.services.value[i].0
      && var t := out.services.value[i].1;
         && t.rest == s.rest && t.table == Null && t.actions.New? && |t.actions.actions| == |s.actions.byName|
         && t.actions.actions[k].Obj?
         && SameAction(s.actions.byName[k].0, Own(s.actions.byName[k].1), s.table, t.actions.actions[k].fields)
  {
    var services := spec.services.value;
    assert OldService(services[i].1);
    assert IsOldFormat(spec);
    ServicesAt(services, i);
    var s, t := services[i].1, Migrate(spec).value.services.value[i].1;
    CollectedAt(Outcomes(s.actions.byName, s.table), k);
    ActionKept(s.actions.byName[k].0, Own(s.actions.byName[k].1), s.table, t.actions.actions[k].fields);
  }

  // ----- idempotence -----

  lemma {:induction false} ConvertedUnchanged(services: seq<(string, Service)>)
    requires forall i :: 0 <= i < |services| ==> services[i].1.actions.New?
    ensures MigrateServices(services) == Ok(services)
    decreases |services|
  {
    if services != [] {
      var n := |services| - 1;
      ConvertedUnchanged(services[..n]);
      assert services == services[..n] + [services[n]];
    }
  }

  /** Whenever it succeeds, migrating again changes nothing. */
  lemma {:induction false} Idempotent(spec: Spec)
    requires Migrate(spec).Ok?
    ensures Migrate(Migrate(spec).value) == Migrate(spec)
  {
    if IsOldFormat(spec) {
      var services := spec.services.value;
      var out := MigrateServices(services).value;
      ServicesLength(services);
      forall i | 0 <= i < |out| ensures out[i].1.actions.New? { ServicesAt(services, i); }
      ConvertedUnchanged(out);
    }
  }

  predicate Mixed(s: Service) { s.actions.New? && s.table != Null }

  /** The result is still taken for an old spec exactly if a service had both an action list and a state table. */
  lemma {:induction false} StillOldIff(spec: Spec)
    requires Migrate(spec).Ok?
    ensures IsOldFormat(Migrate(spec).value) <==>
      spec.services.Some? && exists i :: 0 <= i < |spec.services.value| && Mixed(spec.services.value[i].1)
  {
    var t := Migrate(spec).value;
    if spec.services.Some? {
      var services := spec.services.value;
      if IsOldFormat(spec) {
        ServicesLength(services);
        forall i | 0 <= i < |services|
          ensures OldService(t.services.value[i].1) <==> Mixed(services[i].1)
        {
          ServicesAt(services, i);
        }
        if i :| 0 <= i < |services| && Mixed(services[i].1) {
          assert OldService(t.services.value[i].1);
        }
      } else {
        forall i | 0 <= i < |services| ensures !OldService(services[i].1) { }
      }
    }
  }

  // ----- when it succeeds -----

  /** Both arguments of an action lead to a pointer, or are absent. */
  predicate Resolves(a: Action, table: Json) {
    ArgumentResolves(table, ArgumentOf(a, "input")) && ArgumentResolves(table, ArgumentOf(a, "output"))
  }

  /** There is no argument, or it names a state variable that has a schema pointer. */
  predicate ArgumentResolves(table: Json, argument: Json) {
    argument == Null ||
    (Field(argument, "relatedStateVariable") != Null
      && Field(Field(table, KeyText(Field(argument, "relatedStateVariable"))), "schema").Str?)
  }

  predicate EntryResolves(a: Json, table: Json) { a != Null && Resolves(Own(a), table) }

  lemma EntrySucceedsIff(name: string, a: Json, table: Json)
    ensures MigrateEntry(name, a, table).Ok? <==> EntryResolves(a, table)
  {
    ActionSucceedsIff(name, Own(a), table);
  }

  lemma ActionSucceedsIff(name: string, a: Action, table: Json)
    ensures MigrateAction(name, a, table).Ok? <==> Resolves(a, table)
  {
  }

  lemma {:induction false} CollectedIff(rs: seq<Result<Action>>)
    ensures Collected(rs).Ok? <==> forall k :: 0 <= k < |rs| ==> rs[k].Ok?
    decreases |rs|
  {
    if rs != [] { CollectedIff(rs[..|rs| - 1]); }
  }

  lemma {:induction false} ActionsSucceedIff(entries: seq<(string, Json)>, table: Json)
    ensures MigrateActions(entries, table).Ok? <==> forall k :: 0 <= k < |entries| ==> EntryResolves(entries[k].1, table)
  {
    var rs := Outcomes(entries, table);
    CollectedIff(rs);
    forall k | 0 <= k < |entries| ensures rs[k].Ok? <==> EntryResolves(entries[k].1, table) {
      EntrySucceedsIff(entries[k].0, entries[k].1, table);
    }
  }

  predicate ServiceResolves(s: Service) {
    s.actions.Old? ==> forall k :: 0 <= k < |s.actions.byName| ==> EntryResolves(s.actions.byName[k].1, s.table)
  }

  lemma {:induction false} ServicesSucceedIff(services: seq<(string, Service)>)
    ensures MigrateServices(services).Ok? <==> forall i :: 0 <= i < |services| ==> ServiceResolves(services[i].1)
    decreases |services|
  {
    if services != [] {
      var n := |services| - 1;
      ServicesSucceedIff(services[..n]);
      var s := services[n].1;
      if s.actions.Old? { ActionsSucceedIff(s.actions.byName, s.table); }
      assert MigrateService(s).Ok? <==> ServiceResolves(s);
    }
  }

  /** Migration fails exactly for an old action that is null or one of whose arguments leads to no schema pointer. */
  lemma {:induction false} SucceedsIff(spec: Spec)
    ensures Migrate(spec).Ok? <==>
      (spec.services.Some? ==> forall i :: 0 <= i < |spec.services.value| ==> ServiceResolves(spec.services.value[i].1))
  {
    if spec.services.Some? {
      ServicesSucceedIff(spec.services.value);
      if !IsOldFormat(spec) {
        forall i | 0 <= i < |spec.services.value| ensures ServiceResolves(spec.services.value[i].1) {
          assert !OldService(spec.services.value[i].1);
        }
      }
    }
  }
}
