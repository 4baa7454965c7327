/**
 The two-way check of a handler map against api.json (lib/handler-map.js:33-60, 115-185), and
 the assembly loop that relies on it (lib/handler-map-module.js:65-81,
 lib/countinghouse-device.js:46-61).

 Objects are maps from their own keys.  A lookup by name also finds what an object inherits
 (`toString` and the like): `INHERITED` names the inherited functions of a plain object,
 `OF_FUNCTIONS` those of a function, and `OF_OBJECT` those of the function `Object`.  The map
 itself is plain or has no prototype; the objects of its services may inherit anything.
 */
module HandlerMap {
  import opened Wrappers

  const SERVICE_URN_SEP := ":serviceID:"

  const INHERITED := {"constructor", "hasOwnProperty", "isPrototypeOf", "propertyIsEnumerable", "toLocaleString",
    "toString", "valueOf", "__defineGetter__", "__defineSetter__", "__lookupGetter__", "__lookupSetter__"}

  const OF_FUNCTIONS := INHERITED + {"apply", "bind", "call"}

  /** What `Object` itself holds; a lookup of "constructor" finds it. */
  const OF_OBJECT := OF_FUNCTIONS + {"assign", "create", "defineProperties", "defineProperty", "entries", "freeze",
    "fromEntries", "getOwnPropertyDescriptor", "getOwnPropertyDescriptors", "getOwnPropertyNames",
    "getOwnPropertySymbols", "getPrototypeOf", "groupBy", "hasOwn", "is", "isExtensible", "isFrozen", "isSealed",
    "keys", "preventExtensions", "seal", "setPrototypeOf", "values"}

  /** Declared services: the names of the actions of each URN. */
  type Spec = map<string, seq<string>>

  /** The names of the functions that the object of a service holds, and that it inherits. */
  datatype Actions = Actions(own: set<string>, inherited: set<string>)

  /** A handler map: its services, and whether it is a plain object, as against one without a prototype. */
  datatype Table = Table(services: map<string, Actions>, plain: bool)

  datatype Exported = NotAMap | Handlers(table: Table)

  datatype Problem =
    | NoMap
    | UnknownService(short: string)
    | AmbiguousService(short: string)
    | UndeclaredAction(short: string, action: string)
    | NoShortName(urn: string)
    | NoHandlers(urn: string)
    | NoFunction(urn: string, action: string)

  // ----- short names -----

  predicate SepAt(s: string, i: nat) { i + |SERVICE_URN_SEP| <= |s| && s[i..i + |SERVICE_URN_SEP|] == SERVICE_URN_SEP }

  /** The last position of the separator below `n`. */
  function LastSep(s: string, n: nat): Option<nat> {
    if n == 0 then None else if SepAt(s, n - 1) then Some(n - 1) else LastSep(s, n - 1)
  }

  function ShortNameOf(urn: string): Option<string> {
    var p := LastSep(urn, |urn|);
    if p.Some? && SepAt(urn, p.value) then Some(urn[p.value + |SERVICE_URN_SEP|..]) else None
  }

  lemma {:induction false} LastSepIs(s: string, n: nat)
    ensures var p := LastSep(s, n);
      && (p.Some? ==> p.value < n && SepAt(s, p.value) && forall i: nat :: p.value < i < n ==> !SepAt(s, i))
      && (p.None? ==> forall i: nat :: i < n ==> !SepAt(s, i))
    decreases n
  {
    if n > 0 && !SepAt(s, n - 1) { LastSepIs(s, n - 1); }
  }

  /** The short name is what follows the last separator; there is none exactly if there is no separator. */
  lemma {:induction false} ShortNameAfterLast(urn: string, before: string, after: string)
    requires urn == before + SERVICE_URN_SEP + after
    ensures ShortNameOf(urn).Some? && |ShortNameOf(urn).value| <= |after|
    ensures exists p :: urn == p + SERVICE_URN_SEP + ShortNameOf(urn).value
  {
    LastSepIs(urn, |urn|);
    assert SepAt(urn, |before|);
    var p := LastSep(urn, |urn|).value;
    assert urn == urn[..p] + SERVICE_URN_SEP + urn[p + |SERVICE_URN_SEP|..];
  }

  // ----- the service index -----

  ghost predicate IndexOk(spec: Spec, done: set<string>, index: map<string, seq<string>>) {
    && (forall short :: short in index ==> index[short] != [])
    && (forall short, i, j | short in index && 0 <= i < j < |index[short]| :: index[short][i] != index[short][j])
    && (forall short, urn :: short in index && urn in index[short] ==> urn in done && ShortNameOf(urn) == Some(short))
    && (forall urn | urn in done && ShortNameOf(urn).Some? ::
        ShortNameOf(urn).value in index && urn in index[ShortNameOf(urn).value])
  }

  method BuildServiceIndex(spec: Spec) returns (index: map<string, seq<string>>)
    ensures IndexOk(spec, spec.Keys, index)
  {
    index := map[];
    var todo := spec.Keys;
    while todo != {}
      invariant todo <= spec.Keys && IndexOk(spec, spec.Keys - todo, index)
    {
      var urn :| urn in todo;
      ghost var done := spec.Keys - todo;
      todo := todo - {urn};
      assert spec.Keys - todo == done + {urn};
      var short := ShortNameOf(urn);
      if short.Some? {
        var urns := if short.value in index then index[short.value] else [];
        IndexAdds(spec, done, index, urn, short.value, urns);
        index := index[short.value := urns + [urn]];
      }
    }
    assert spec.Keys - todo == spec.Keys;
  }

  lemma IndexAdds(spec: Spec, done: set<string>, index: map<string, seq<string>>, urn: string, short: string, urns: seq<string>)
    requires IndexOk(spec, done, index) && urn !in done && ShortNameOf(urn) == Some(short)
    requires urns == if short in index then index[short] else []
    ensures IndexOk(spec, done + {urn}, index[short := urns + [urn]])
  {
  }

  // ----- what is wrong with a map -----

  /** The declared services a short name stands for. */
  function Named(spec: Spec, short: string): set<string> { set urn | urn in spec && ShortNameOf(urn) == Some(short) }

  /** `handlerMap[short] != null`. */
  predicate Finds(h: Table, short: string) {
    short in h.services || (h.plain && (short in INHERITED || short == "__proto__"))
  }

  /** `typeof actions[action] === 'function'`, where `actions` is `handlerMap[short]`. */
  predicate FindsFunction(h: Table, short: string, action: string) {
    if short in h.services then action in h.services[short].own || action in h.services[short].inherited
    else if !h.plain then false
    else if short == "constructor" then action in OF_OBJECT
    else if short in INHERITED then action in OF_FUNCTIONS
    else short == "__proto__" && action in INHERITED
  }

  /** Exactly the defects validation is there to report, for a well-formed map. */
  ghost predicate IsDefect(spec: Spec, h: Table, p: Problem) {
    match p
    case NoMap => false
    case UnknownService(short) => short in h.services && Named(spec, short) == {}
    case AmbiguousService(short) => short in h.services && |Named(spec, short)| > 1
    case UndeclaredAction(short, action) =>
      short in h.services && action in h.services[short].own && |Named(spec, short)| == 1 && forall urn :: urn in Named(spec, short) ==> action !in spec[urn]
    case NoShortName(urn) => urn in spec && ShortNameOf(urn).None?
    case NoHandlers(urn) => urn in spec && ShortNameOf(urn).Some? && !Finds(h, ShortNameOf(urn).value)
    case NoFunction(urn, action) =>
      && urn in spec && ShortNameOf(urn).Some? && action in spec[urn]
      && Finds(h, ShortNameOf(urn).value) && !FindsFunction(h, ShortNameOf(urn).value, action)
  }

  lemma IndexNames(spec: Spec, index: map<string, seq<string>>, short: string)
    requires IndexOk(spec, spec.Keys, index)
    ensures short !in index ==> Named(spec, short) == {}
    ensures short in index ==> |index[short]| == |Named(spec, short)| && forall u :: u in index[short] <==> u in Named(spec, short)
  {
    if short in index {
      DistinctSize(index[short], Named(spec, short));
    }
  }

  lemma DistinctSize(q: seq<string>, s: set<string>)
    requires forall i, j :: 0 <= i < j < |q| ==> q[i] != q[j]
    requires forall u :: u in q <==> u in s
    ensures |q| == |s|
  {
    if q != [] {
      var n := |q| - 1;
      assert q[n] in q && q[n] in s;
      assert forall u :: u in q[..n] <==> u in s - {q[n]};
      DistinctSize(q[..n], s - {q[n]});
    } else {
      assert s == {};
    }
  }

  // ----- validation -----

  /** The handler key, or the declared service, a problem is about. */
  function KeyOf(p: Problem): Option<string> {
    if p.UnknownService? || p.AmbiguousService? || p.UndeclaredAction? then Some(p.short) else None
  }

  function UrnOf(p: Problem): Option<string> {
    if p.NoShortName? || p.NoHandlers? || p.NoFunction? then Some(p.urn) else None
  }

  lemma OneNamed(spec: Spec, index: map<string, seq<string>>, short: string)
    requires IndexOk(spec, spec.Keys, index) && short in index && |index[short]| == 1
    ensures Named(spec, short) == {index[short][0]} && index[short][0] in spec
  {
  }

  /** Direction 1, for one key: it must stand for one declared service, and its handlers for actions of it. */
  method CheckKey(spec: Spec, h: Table, index: map<string, seq<string>>, short: string) returns (ps: seq<Problem>)
    requires IndexOk(spec, spec.Keys, index) && short in h.services
    ensures forall p :: p in ps <==> IsDefect(spec, h, p) && KeyOf(p) == Some(short)
  {
    IndexNames(spec, index, short);
    if short !in index { return [UnknownService(short)]; }
    if |index[short]| > 1 { return [AmbiguousService(short)]; }
    OneNamed(spec, index, short);
    var declared := spec[index[short][0]];
    ps := [];
    var todo := h.services[short].own;
    while todo != {}
      invariant todo <= h.services[short].own
      invariant forall p :: p in ps <==> p.UndeclaredAction? && p.short == short && p.action in h.services[short].own - todo && p.action !in declared
    {
      var action :| action in todo;
      todo := todo - {action};
      if action !in declared { ps := ps + [UndeclaredAction(short, action)]; }
    }
  }

  /** Direction 2, for one declared service: each of its actions must have a handler. */
  method CheckService(spec: Spec, h: Table, urn: string) returns (ps: seq<Problem>)
    requires urn in spec
    ensures forall p :: p in ps <==> IsDefect(spec, h, p) && UrnOf(p) == Some(urn)
  {
    var short := ShortNameOf(urn);
    if short.None? { return [NoShortName(urn)]; }
    if !Finds(h, short.value) { return [NoHandlers(urn)]; }
    ps := [];
    var declared := spec[urn];
    for i := 0 to |declared|
      invariant forall p :: p in ps <==> p.NoFunction? && p.urn == urn && p.action in declared[..i] && !FindsFunction(h, short.value, p.action)
    {
      assert declared[..i + 1] == declared[..i] + [declared[i]];
      if !FindsFunction(h, short.value, declared[i]) { ps := ps + [NoFunction(urn, declared[i])]; }
    }
    assert declared[..|declared|] == declared;
  }

  method CheckKeys(spec: Spec, h: Table) returns (ps: seq<Problem>)
    ensures forall p :: p in ps <==> IsDefect(spec, h, p) && KeyOf(p).Some?
  {
    var index := BuildServiceIndex(spec);
    ps := [];
    var todo := h.services.Keys;
    while todo != {}
      invariant todo <= h.services.Keys
      invariant forall p :: p in ps <==> IsDefect(spec, h, p) && KeyOf(p).Some? && KeyOf(p).value in h.services.Keys - todo
    {
      var short :| short in todo;
      var more := CheckKey(spec, h, index, short);
      todo := todo - {short};
      ps := ps + more;
    }
    assert forall p :: IsDefect(spec, h, p) && KeyOf(p).Some? ==> KeyOf(p).value in h.services.Keys;
  }

  method CheckServices(spec: Spec, h: Table) returns (ps: seq<Problem>)
    ensures forall p :: p in ps <==> IsDefect(spec, h, p) && UrnOf(p).Some?
  {
    ps := [];
    var todo := spec.Keys;
    while todo != {}
      invariant todo <= spec.Keys
      invariant forall p :: p in ps <==> IsDefect(spec, h, p) && UrnOf(p).Some? && UrnOf(p).value in spec.Keys - todo
    {
      var urn :| urn in todo;
      var more := CheckService(spec, h, urn);
      todo := todo - {urn};
      ps := ps + more;
    }
    assert forall p :: IsDefect(spec, h, p) && UrnOf(p).Some? ==> UrnOf(p).value in spec.Keys;
  }

  /** A plain object of at least one service: what `isHandlerMap` accepts. */
  predicate IsHandlerMap(x: Exported) { x.Handlers? && x.table.services != map[] }

  /** Every defect of a well-formed map is reported, and nothing else is. */
  method ValidateHandlerMap(spec: Spec, exported: Exported) returns (problems: seq<Problem>)
    ensures !IsHandlerMap(exported) ==> problems == [NoMap]
    ensures IsHandlerMap(exported) ==> forall p :: p in problems <==> IsDefect(spec, exported.table, p)
  {
    if !IsHandlerMap(exported) { return [NoMap]; }
    var a := CheckKeys(spec, exported.table);
    var b := CheckServices(spec, exported.table);
    problems := a + b;
  }

  // ----- what no problems means -----

  ghost predicate NoDefect(spec: Spec, h: Table) { forall p :: !IsDefect(spec, h, p) }

  /** Short names and declared services correspond one to one, and so do handlers and declared actions. */
  ghost predicate Matches(spec: Spec, h: Table) {
    && (forall short :: short in h.services ==> |Named(spec, short)| == 1)
    && (forall urn :: urn in spec ==> ShortNameOf(urn).Some? && ShortNameOf(urn).value in h.services)
    && (forall urn, action | urn in spec && ShortNameOf(urn).Some? && ShortNameOf(urn).value in h.services ::
        action in spec[urn] <==> action in h.services[ShortNameOf(urn).value].own)
  }

  /** A declared name that has no handler of its own but is found in what objects inherit. */
  ghost predicate Hidden(spec: Spec, h: Table) {
    exists urn | urn in spec && ShortNameOf(urn).Some? :: HiddenAt(spec, h, urn, ShortNameOf(urn).value)
  }

  ghost predicate HiddenAt(spec: Spec, h: Table, urn: string, short: string)
    requires urn in spec
  {
    if short in h.services
    then exists action :: action in spec[urn] && action !in h.services[short].own && action in h.services[short].inherited
    else Finds(h, short)
  }

  lemma Alone(spec: Spec, urn: string)
    requires urn in spec && ShortNameOf(urn).Some? && |Named(spec, ShortNameOf(urn).value)| == 1
    ensures Named(spec, ShortNameOf(urn).value) == {urn}
  {
    var s := Named(spec, ShortNameOf(urn).value);
    assert urn in s;
    assert |s - {urn}| == 0;
    assert s == (s - {urn}) + {urn};
  }

  lemma MatchesNoDefect(spec: Spec, h: Table, p: Problem)
    requires Matches(spec, h)
    ensures !IsDefect(spec, h, p)
  {
  }

  lemma NoDefectMatches(spec: Spec, h: Table)
    requires NoDefect(spec, h) && !Hidden(spec, h)
    ensures Matches(spec, h)
  {
    forall short | short in h.services ensures |Named(spec, short)| == 1 {
      assert !IsDefect(spec, h, UnknownService(short)) && !IsDefect(spec, h, AmbiguousService(short));
    }
    forall urn | urn in spec ensures ShortNameOf(urn).Some? && ShortNameOf(urn).value in h.services {
      assert !IsDefect(spec, h, NoShortName(urn)) && !IsDefect(spec, h, NoHandlers(urn));
      assert !HiddenAt(spec, h, urn, ShortNameOf(urn).value);
    }
    forall urn, action | urn in spec ensures action in spec[urn] <==> action in h.services[ShortNameOf(urn).value].own {
      var short := ShortNameOf(urn).value;
      assert !IsDefect(spec, h, NoFunction(urn, action)) && !IsDefect(spec, h, UndeclaredAction(short, action));
      assert !HiddenAt(spec, h, urn, short);
      Alone(spec, urn);
    }
  }

  /**
   For a well-formed map: nothing is reported and nothing is hidden, exactly if short names and
   handlers correspond one to one to the declared services and actions.
   */
  lemma SoundAndComplete(spec: Spec, h: Table)
    ensures NoDefect(spec, h) && !Hidden(spec, h) <==> Matches(spec, h)
  {
    if NoDefect(spec, h) && !Hidden(spec, h) { NoDefectMatches(spec, h); }
    if Matches(spec, h) {
      forall p ensures !IsDefect(spec, h, p) { MatchesNoDefect(spec, h, p); }
      forall urn | urn in spec && ShortNameOf(urn).Some? ensures !HiddenAt(spec, h, urn, ShortNameOf(urn).value) {
      }
    }
  }

  /** Nothing is hidden if no declared name is one that objects inherit. */
  lemma NothingHidden(spec: Spec, h: Table)
    requires forall urn :: urn in spec && ShortNameOf(urn).Some? ==>
      ShortNameOf(urn).value in h.services || !h.plain || ShortNameOf(urn).value !in INHERITED + {"__proto__"}
    requires forall urn, action, short :: urn in spec && action in spec[urn] && short in h.services ==> action !in h.services[short].inherited
    ensures !Hidden(spec, h)
  {
  }

  /** An action named as an inherited function needs no handler to pass. */
  lemma InheritedNamePasses()
    ensures var spec: Spec := map[":serviceID:s" := ["toString"]];
      var h := Table(map["s" := Actions({}, INHERITED)], true); NoDefect(spec, h) && !Matches(spec, h)
  {
    var urn := ":serviceID:s";
    var spec: Spec := map[urn := ["toString"]];
    var h := Table(map["s" := Actions({}, INHERITED)], true);
    assert urn == "" + SERVICE_URN_SEP + "s";
    ShortIs(urn);
    assert Named(spec, "s") == {urn};
    forall p ensures !IsDefect(spec, h, p) {
    }
    assert "toString" in spec[urn] && "toString" !in h.services["s"].own;
  }

  lemma ShortIs(urn: string)
    requires urn == ":serviceID:s"
    ensures ShortNameOf(urn) == Some("s")
  {
    LastSepIs(urn, |urn|);
    assert SepAt(urn, 0);
    assert urn[1..12][0] == 's' && SERVICE_URN_SEP[0] == ':';
    assert !SepAt(urn, 1);
  }

  // ----- assembly -----

  /** A device whose services come from the spec; `invoke` holds the handler of each action set. */
  class Device {
    const spec: Spec
    var invoke: map<(string, string), (string, string)>
    var errors: nat

    constructor (spec: Spec)
      ensures this.spec == spec && invoke == map[] && errors == 0
    {
      this.spec := spec;
      invoke, errors := map[], 0;
    }

    /** An action is set only on a declared service that declares it; anything else is logged. */
    method SetAction(urn: string, action: string, handler: (string, string))
      modifies this
      ensures urn in spec && action in spec[urn] ==> invoke == old(invoke)[(urn, action) := handler] && errors == old(errors)
      ensures !(urn in spec && action in spec[urn]) ==> invoke == old(invoke) && errors == old(errors) + 1
    {
      if urn in spec && action in spec[urn] {
        invoke := invoke[(urn, action) := handler];
        return;
      }
      errors := errors + 1;
    }

    /** After a check that found nothing, assembly logs no error and every declared action has its own handler. */
    method Assemble(h: Table, index: map<string, seq<string>>)
      requires Matches(spec, h) && IndexOk(spec, spec.Keys, index) && invoke == map[] && errors == 0
      modifies this
      ensures errors == 0
      ensures forall urn, action :: (urn, action) in invoke <==> urn in spec && action in spec[urn]
      ensures forall urn, action | (urn, action) in invoke ::
        ShortNameOf(urn).Some? && invoke[(urn, action)] == (ShortNameOf(urn).value, action)
    {
      AssembleAll(h, index);
      AllAssembled(h);
    }

    method AssembleAll(h: Table, index: map<string, seq<string>>)
      requires Matches(spec, h) && IndexOk(spec, spec.Keys, index) && invoke == map[] && errors == 0
      modifies this
      ensures errors == 0 && Assembled(h.services.Keys, {})
    {
      var todo := h.services.Keys;
      while todo != {}
        invariant errors == 0 && todo <= h.services.Keys && Assembled(h.services.Keys - todo, {})
      {
        var short :| short in todo;
        AssembleNext(h, index, short, h.services.Keys - todo);
        assert h.services.Keys - (todo - {short}) == h.services.Keys - todo + {short};
        todo := todo - {short};
      }
      assert h.services.Keys - todo == h.services.Keys;
    }

    method AssembleNext(h: Table, index: map<string, seq<string>>, short: string, ghost done: set<string>)
      requires Matches(spec, h) && IndexOk(spec, spec.Keys, index) && short in h.services
      requires short !in done && Assembled(done, {}) && errors == 0
      modifies this
      ensures errors == 0 && Assembled(done + {short}, {})
    {
      var urn := TheService(h, index, short);
      AssembleService(h, done, short, urn);
    }

    lemma AllAssembled(h: Table)
      requires Matches(spec, h) && Assembled(h.services.Keys, {})
      ensures forall urn, action :: (urn, action) in invoke <==> urn in spec && action in spec[urn]
      ensures forall urn, action | (urn, action) in invoke ::
        ShortNameOf(urn).Some? && invoke[(urn, action)] == (ShortNameOf(urn).value, action)
    {
    }

    /** `serviceIndex.get(short)[0]`. */
    method TheService(h: Table, index: map<string, seq<string>>, short: string) returns (urn: string)
      requires Matches(spec, h) && IndexOk(spec, spec.Keys, index) && short in h.services
      ensures Named(spec, short) == {urn}
    {
      IndexNames(spec, index, short);
      OneNamed(spec, index, short);
      urn := index[short][0];
    }

    method AssembleService(h: Table, ghost done: set<string>, short: string, urn: string)
      requires Matches(spec, h) && short in h.services && short !in done && Named(spec, short) == {urn} && Assembled(done, {}) && errors == 0
      modifies this
      ensures errors == 0 && Assembled(done + {short}, {})
    {
      assert urn in Named(spec, short);
      var actions := h.services[short].own;
      while actions != {}
        invariant actions <= h.services[short].own && errors == 0
        invariant Assembled(done, set a | a in h.services[short].own - actions :: (urn, a))
      {
        var action :| action in actions;
        actions := actions - {action};
        assert action in spec[urn];
        SetAction(urn, action, (short, action));
      }
      assert h.services[short].own - actions == h.services[short].own && done + {short} - {short} == done;
      Finished(h, done + {short}, short, urn);
    }

    /** The handlers set so far: all of the services named in `done`, and `more`. */
    ghost predicate Assembled(done: set<string>, more: set<(string, string)>)
      reads this
    {
      && (forall urn, action :: (urn, action) in invoke <==>
          (urn in spec && ShortNameOf(urn).Some? && ShortNameOf(urn).value in done && action in spec[urn]) || (urn, action) in more)
      && (forall urn, action | (urn, action) in invoke ::
          ShortNameOf(urn).Some? && invoke[(urn, action)] == (ShortNameOf(urn).value, action))
    }

    lemma Finished(h: Table, done: set<string>, short: string, urn: string)
      requires Matches(spec, h) && short in h.services && short in done && Named(spec, short) == {urn}
      requires Assembled(done - {short}, set a | a in h.services[short].own :: (urn, a))
      ensures Assembled(done, {})
    {
      forall u, action
        ensures (u, action) in invoke <==> u in spec && ShortNameOf(u).Some? && ShortNameOf(u).value in done && action in spec[u]
      {
        if u in spec && ShortNameOf(u) == Some(short) { assert u in Named(spec, short); }
        assert urn in Named(spec, short);
      }
    }
  }
}
