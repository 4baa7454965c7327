/**
 How the operator's policy narrows a module's declared permissions
 (lib/module-permissions.js:103-209).  A file grant covers its path and everything under it; a
 host grant covers the hosts its pattern matches, on its ports or on all.
 */
module Permissions {
  import opened Wrappers

  datatype Access = Read | ReadWrite

  function Rank(a: Access): nat { if a.Read? then 1 else 2 }

  datatype FsGrant = FsGrant(path: string, access: Access)

  datatype NetGrant = NetGrant(host: string, ports: Option<seq<int>>)

  /** One entry of a policy's list, as it was written: a part of the wrong type is absent. */
  datatype WantedFs = WantedFs(path: Option<string>, access: Option<string>)

  datatype WantedNet = WantedNet(host: Option<string>, ports: Option<seq<int>>)

  type Limits = map<string, int>

  const DEFAULT_LIMITS: Limits :=
    map["heapMb" := 256, "externalMb" := 256, "maxBlockMs" := 10000, "diskMb" := 1024, "diskEntries" := 100000]

  datatype Declared = Declared(fs: seq<FsGrant>, net: seq<NetGrant>, env: seq<string>, limits: Limits)

  /** A module's policy entry: `env` holds each name it lists, with the value if that is a string. */
  datatype Entry = Entry(asDeclared: bool, fs: seq<WantedFs>, net: seq<WantedNet>, env: map<string, Option<string>>, limits: Limits)

  datatype Mode = Off | Audit | Enforce

  datatype Narrowed = Narrowed(
    fs: seq<FsGrant>, net: seq<NetGrant>, envNames: set<string>, envOverrides: map<string, string>,
    limits: Limits, approved: bool)

  // ----- hosts -----

  function LowerChar(c: char): char { if 'A' <= c <= 'Z' then (c as int + 32) as char else c }

  function Lower(s: string): string { seq(|s|, i requires 0 <= i < |s| => LowerChar(s[i])) }

  predicate EndsWith(s: string, t: string) { |t| <= |s| && s[|s| - |t|..] == t }

  predicate HostMatches(pattern: string, host: string) {
    if !("*." <= pattern) then pattern == host
    else
      var suffix := pattern[1..];
      EndsWith(host, suffix) && |host| > |suffix| && '.' !in host[..|host| - |suffix|]
  }

  /** A wildcard stands for exactly one label. */
  lemma WildcardIsOneLabel(rest: string, host: string)
    ensures HostMatches("*." + rest, host) <==> exists part :: part != "" && '.' !in part && host == part + "." + rest
  {
  }

  predicate CoversHost(g: NetGrant, host: string, port: int) {
    HostMatches(g.host, host) && (g.ports.None? || port in g.ports.value)
  }

  predicate HostAllowed(net: seq<NetGrant>, hostname: string, port: int) {
    exists i :: 0 <= i < |net| && CoversHost(net[i], Lower(hostname), port)
  }

  // ----- paths -----

  predicate Under(path: string, root: string) { path == root || root + "/" <= path }

  /** The parts of the path begin with those of the root: a name that only begins alike is not under it. */
  lemma UnderIff(path: string, root: string)
    ensures Under(path, root) <==> path == root || exists rest :: path == root + "/" + rest
  {
    if root + "/" <= path { assert path == root + "/" + path[|root| + 1..]; }
  }

  predicate CoversPath(g: FsGrant, path: string, access: Access) { Under(path, g.path) && Rank(access) <= Rank(g.access) }

  predicate PathAllowed(fs: seq<FsGrant>, path: string, access: Access) {
    exists i :: 0 <= i < |fs| && CoversPath(fs[i], path, access)
  }

  /** The parts of a path between slashes. */
  function Segments(p: string): (parts: seq<string>)
    ensures parts != []
  {
    if p == "" then [""]
    else
      var front := Segments(p[..|p| - 1]);
      if p[|p| - 1] == '/' then front + [""]
      else front[..|front| - 1] + [front[|front| - 1] + [p[|p| - 1]]]
  }

  /** Absolute and normalized, without a trailing slash. */
  predicate IsValidPolicyPath(p: string) {
    p == "/" || ("/" <= p && forall s :: s in Segments(p)[1..] ==> s != "" && s != "." && s != "..")
  }

  lemma {:induction false} SecondEmpty(p: string)
    requires "//" <= p
    ensures |Segments(p)| >= 3 && Segments(p)[1] == "" && "" in Segments(p)[1..]
    decreases |p|
  {
    if |p| > 2 {
      SecondEmpty(p[..|p| - 1]);
    } else {
      var one := p[..1];
      assert p == "//" && one == "/" && one[..0] == "";
      assert Segments(one[..0]) == [""];
      assert Segments(one) == ["", ""];
      assert Segments(p) == Segments(one) + [""];
    }
    assert Segments(p)[1..][0] == "";
  }

  /**
   Nothing but the root itself is under the root: of a declared grant of `/`, an entry can keep `/` only,
   and no narrower path.
   */
  lemma {:induction false} RootCoversItself(p: string)
    requires IsValidPolicyPath(p)
    ensures Under(p, "/") <==> p == "/"
  {
    if "//" <= p {
      SecondEmpty(p);
    }
  }

  // ----- narrowing one list -----

  function AccessOf(s: string): Option<Access> { if s == "r" then Some(Read) else if s == "rw" then Some(ReadWrite) else None }

  predicate FsWithin(declared: seq<FsGrant>, path: string, access: Access) {
    exists i :: 0 <= i < |declared| && Under(path, declared[i].path) && Rank(access) <= Rank(declared[i].access)
  }

  /** The grant an entry asks for, if it is well formed and within the declaration. */
  function KeptFs(declared: seq<FsGrant>, w: WantedFs): Option<FsGrant> {
    if w.path.None? || !IsValidPolicyPath(w.path.value) || w.access.None? || AccessOf(w.access.value).None? then None
    else if FsWithin(declared, w.path.value, AccessOf(w.access.value).value)
    then Some(FsGrant(w.path.value, AccessOf(w.access.value).value)) else None
  }

  predicate NetWithin(declared: seq<NetGrant>, host: string, ports: Option<seq<int>>) {
    exists i :: 0 <= i < |declared| && HostMatches(declared[i].host, host) &&
      (declared[i].ports.None? || (ports.Some? && forall p :: p in ports.value ==> p in declared[i].ports.value))
  }

  function KeptNet(declared: seq<NetGrant>, w: WantedNet): Option<NetGrant> {
    if w.host.None? || "*." <= Lower(w.host.value) then None
    else if NetWithin(declared, Lower(w.host.value), w.ports) then Some(NetGrant(Lower(w.host.value), w.ports)) else None
  }

  /** The entries kept, in order. */
  function KeptAllFs(declared: seq<FsGrant>, wanted: seq<WantedFs>): seq<FsGrant> {
    if wanted == [] then []
    else
      var g := KeptFs(declared, wanted[|wanted| - 1]);
      KeptAllFs(declared, wanted[..|wanted| - 1]) + if g.Some? then [g.value] else []
  }

  function KeptAllNet(declared: seq<NetGrant>, wanted: seq<WantedNet>): seq<NetGrant> {
    if wanted == [] then []
    else
      var g := KeptNet(declared, wanted[|wanted| - 1]);
      KeptAllNet(declared, wanted[..|wanted| - 1]) + if g.Some? then [g.value] else []
  }

  lemma {:induction false} KeptFsWithin(declared: seq<FsGrant>, wanted: seq<WantedFs>, i: nat)
    requires i < |KeptAllFs(declared, wanted)|
    ensures var g := KeptAllFs(declared, wanted)[i]; FsWithin(declared, g.path, g.access)
    decreases |wanted|
  {
    var n := |wanted| - 1;
    if i < |KeptAllFs(declared, wanted[..n])| { KeptFsWithin(declared, wanted[..n], i); }
  }

  lemma {:induction false} KeptNetWithin(declared: seq<NetGrant>, wanted: seq<WantedNet>, i: nat)
    requires i < |KeptAllNet(declared, wanted)|
    ensures var g := KeptAllNet(declared, wanted)[i]; NetWithin(declared, g.host, g.ports) && !("*." <= g.host)
    decreases |wanted|
  {
    var n := |wanted| - 1;
    if i < |KeptAllNet(declared, wanted[..n])| { KeptNetWithin(declared, wanted[..n], i); }
  }

  method NarrowFs(declared: seq<FsGrant>, wanted: seq<WantedFs>) returns (out: seq<FsGrant>, ignored: nat)
    ensures out == KeptAllFs(declared, wanted) && ignored == |wanted| - |out|
  {
    out, ignored := [], 0;
    for i := 0 to |wanted|
      invariant out == KeptAllFs(declared, wanted[..i]) && ignored == i - |out|
    {
      assert wanted[..i + 1][..i] == wanted[..i];
      var g := KeptFs(declared, wanted[i]);
      if g.Some? { out := out + [g.value]; } else { ignored := ignored + 1; }
    }
    assert wanted[..|wanted|] == wanted;
  }

  method NarrowNet(declared: seq<NetGrant>, wanted: seq<WantedNet>) returns (out: seq<NetGrant>, ignored: nat)
    ensures out == KeptAllNet(declared, wanted) && ignored == |wanted| - |out|
  {
    out, ignored := [], 0;
    for i := 0 to |wanted|
      invariant out == KeptAllNet(declared, wanted[..i]) && ignored == i - |out|
    {
      assert wanted[..i + 1][..i] == wanted[..i];
      var g := KeptNet(declared, wanted[i]);
      if g.Some? { out := out + [g.value]; } else { ignored := ignored + 1; }
    }
    assert wanted[..|wanted|] == wanted;
  }

  // ----- limits -----

  function Min(a: int, b: int): int { if a < b then a else b }

  /** The least of the caps on limit `k`: the ceiling, or the default without a usable one, and the entry's. */
  function Cap(k: string, ceilings: Limits, entry: Limits): int
    requires k in DEFAULT_LIMITS
  {
    var top := if k in ceilings && ceilings[k] > 0 then ceilings[k] else DEFAULT_LIMITS[k];
    if k in entry && entry[k] > 0 then Min(top, entry[k]) else top
  }

  function NarrowLimits(requested: Limits, ceilings: Limits, entry: Limits): Limits {
    map k | k in DEFAULT_LIMITS :: if k in requested then Min(requested[k], Cap(k, ceilings, entry)) else Cap(k, ceilings, entry)
  }

  // ----- narrow -----

  function EnvKept(declared: seq<string>, env: map<string, Option<string>>): set<string> { set n | n in env && n in declared }

  function Overrides(declared: seq<string>, env: map<string, Option<string>>): map<string, string> {
    map n | n in env && n in declared && env[n].Some? :: env[n].value
  }

  function Narrow(d: Declared, entry: Option<Entry>, ceilings: Limits, mode: Mode): Narrowed {
    var limits := NarrowLimits(d.limits, ceilings, if entry.Some? then entry.value.limits else map[]);
    if entry.None? then
      if mode != Enforce then Narrowed(d.fs, d.net, (set n | n in d.env), map[], limits, d.fs == [] && d.net == [] && d.env == [])
      else Narrowed([], [], {}, map[], limits, d.fs == [] && d.net == [] && d.env == [])
    else
      var e := entry.value;
      if e.asDeclared then Narrowed(d.fs, d.net, (set n | n in d.env), Overrides(d.env, e.env), limits, true)
      else Narrowed(KeptAllFs(d.fs, e.fs), KeptAllNet(d.net, e.net),
                    EnvKept(d.env, e.env), Overrides(d.env, e.env), limits, true)
  }

  /** How much of the policy entry is ignored: names that are not declared, and entries wider than the declaration. */
  function Ignored(d: Declared, e: Entry): nat {
    KeptAtMost(d, e);
    |Undeclared(d.env, e.env)| +
    if e.asDeclared then 0 else (|e.fs| - |KeptAllFs(d.fs, e.fs)|) + (|e.net| - |KeptAllNet(d.net, e.net)|)
  }

  function Undeclared(declared: seq<string>, env: map<string, Option<string>>): set<string> { set n | n in env && n !in declared }

  lemma KeptAtMost(d: Declared, e: Entry)
    ensures |KeptAllFs(d.fs, e.fs)| <= |e.fs| && |KeptAllNet(d.net, e.net)| <= |e.net|
  {
    KeptFsAtMost(d.fs, e.fs);
    KeptNetAtMost(d.net, e.net);
  }

  lemma {:induction false} KeptFsAtMost(declared: seq<FsGrant>, wanted: seq<WantedFs>)
    ensures |KeptAllFs(declared, wanted)| <= |wanted|
    decreases |wanted|
  {
    if wanted != [] { KeptFsAtMost(declared, wanted[..|wanted| - 1]); }
  }

  lemma {:induction false} KeptNetAtMost(declared: seq<NetGrant>, wanted: seq<WantedNet>)
    ensures |KeptAllNet(declared, wanted)| <= |wanted|
    decreases |wanted|
  {
    if wanted != [] { KeptNetAtMost(declared, wanted[..|wanted| - 1]); }
  }

  /** The two sums over the names that are done. */
  function OverridesOf(declared: seq<string>, env: map<string, Option<string>>, done: set<string>): map<string, string> {
    map n | n in env && n in done && n in declared && env[n].Some? :: env[n].value
  }

  function UndeclaredOf(declared: seq<string>, env: map<string, Option<string>>, done: set<string>): set<string> {
    set n | n in env && n in done && n !in declared
  }

  lemma OneMore(declared: seq<string>, env: map<string, Option<string>>, done: set<string>, name: string)
    requires name in env && name !in done
    ensures var os := OverridesOf(declared, env, done);
      OverridesOf(declared, env, done + {name}) == if name in declared && env[name].Some? then os[name := env[name].value] else os
    ensures var us := UndeclaredOf(declared, env, done);
      UndeclaredOf(declared, env, done + {name}) == (if name in declared then us else us + {name}) && name !in us
  {
  }

  /** The names of the entry, in any order: those not declared are counted as ignored. */
  method NarrowEnv(declared: seq<string>, env: map<string, Option<string>>) returns (overrides: map<string, string>, ignored: nat)
    ensures overrides == Overrides(declared, env) && ignored == |Undeclared(declared, env)|
  {
    overrides, ignored := map[], 0;
    var rest := env.Keys;
    ghost var done: set<string> := {};
    while rest != {}
      invariant rest + done == env.Keys && rest !! done
      invariant overrides == OverridesOf(declared, env, done) && ignored == |UndeclaredOf(declared, env, done)|
      decreases rest
    {
      var name :| name in rest;
      OneMore(declared, env, done, name);
      rest := rest - {name};
      if name !in declared {
        ignored := ignored + 1;
      } else if env[name].Some? {
        overrides := overrides[name := env[name].value];
      }
      done := done + {name};
    }
    assert OverridesOf(declared, env, done) == Overrides(declared, env);
    assert UndeclaredOf(declared, env, done) == Undeclared(declared, env);
  }

  method NarrowDeclaration(d: Declared, entry: Option<Entry>, ceilings: Limits, mode: Mode) returns (r: Narrowed, ignored: nat)
    ensures r == Narrow(d, entry, ceilings, mode)
    ensures ignored == if entry.Some? then Ignored(d, entry.value) else 0
  {
    var limits := NarrowLimits(d.limits, ceilings, if entry.Some? then entry.value.limits else map[]);
    var needsApproval := d.fs != [] || d.net != [] || d.env != [];
    ignored := 0;
    if entry.None? {
      if mode == Enforce {
        r := Narrowed([], [], {}, map[], limits, !needsApproval);
      } else {
        r := Narrowed(d.fs, d.net, (set n | n in d.env), map[], limits, !needsApproval);
      }
      return;
    }
    var e := entry.value;
    var overrides, ignoredEnv := NarrowEnv(d.env, e.env);
    ignored := ignoredEnv;
    if e.asDeclared {
      r := Narrowed(d.fs, d.net, (set n | n in d.env), overrides, limits, true);
      return;
    }
    var fs, ignoredFs := NarrowFs(d.fs, e.fs);
    var net, ignoredNet := NarrowNet(d.net, e.net);
    r := Narrowed(fs, net, EnvKept(d.env, e.env), overrides, limits, true);
    ignored := ignoredEnv + ignoredFs + ignoredNet;
  }

  function ResolveEnv(names: set<string>, overrides: map<string, string>, server: map<string, string>): map<string, string> {
    map n | n in names && (n in overrides || n in server) :: if n in overrides then overrides[n] else server[n]
  }

  // ----- the results -----

  lemma UnderTrans(p: string, q: string, r: string)
    requires Under(p, q) && Under(q, r)
    ensures Under(p, r)
  {
  }

  /** Whatever path and access the result allows, the declaration allows. */
  lemma {:induction false} FsOnlyNarrows(d: Declared, entry: Option<Entry>, ceilings: Limits, mode: Mode, path: string, access: Access)
    requires PathAllowed(Narrow(d, entry, ceilings, mode).fs, path, access)
    ensures PathAllowed(d.fs, path, access)
  {
    var fs := Narrow(d, entry, ceilings, mode).fs;
    var i :| 0 <= i < |fs| && CoversPath(fs[i], path, access);
    if entry.Some? && !entry.value.asDeclared {
      KeptFsWithin(d.fs, entry.value.fs, i);
      var k :| 0 <= k < |d.fs| && Under(fs[i].path, d.fs[k].path) && Rank(fs[i].access) <= Rank(d.fs[k].access);
      UnderTrans(path, fs[i].path, d.fs[k].path);
      assert CoversPath(d.fs[k], path, access);
    }
  }

  /** Whatever host and port the result allows, the declaration allows. */
  lemma {:induction false} NetOnlyNarrows(d: Declared, entry: Option<Entry>, ceilings: Limits, mode: Mode, host: string, port: int)
    requires HostAllowed(Narrow(d, entry, ceilings, mode).net, host, port)
    ensures HostAllowed(d.net, host, port)
  {
    var net := Narrow(d, entry, ceilings, mode).net;
    var i :| 0 <= i < |net| && CoversHost(net[i], Lower(host), port);
    if entry.Some? && !entry.value.asDeclared {
      KeptNetWithin(d.net, entry.value.net, i);
      var k :| 0 <= k < |d.net| && HostMatches(d.net[k].host, net[i].host) &&
        (d.net[k].ports.None? || (net[i].ports.Some? && forall p :: p in net[i].ports.value ==> p in d.net[k].ports.value));
      assert CoversHost(d.net[k], Lower(host), port);
    }
  }

  /** A well-formed entry of the policy's list asks for this. */
  ghost predicate AsksPath(w: WantedFs, path: string, access: Access) {
    && w.path.Some? && w.access.Some? && AccessOf(w.access.value).Some? && IsValidPolicyPath(w.path.value)
    && CoversPath(FsGrant(w.path.value, AccessOf(w.access.value).value), path, access)
  }

  ghost predicate AsksHost(w: WantedNet, host: string, port: int) {
    && w.host.Some? && !("*." <= Lower(w.host.value)) && Lower(host) == Lower(w.host.value)
    && (w.ports.None? || port in w.ports.value)
  }

  /** Whatever the entry asks for, this one grant of the declaration covers. */
  ghost predicate FsWider(g: FsGrant, w: WantedFs) { forall p, a :: AsksPath(w, p, a) ==> CoversPath(g, p, a) }

  ghost predicate NetWider(g: NetGrant, w: WantedNet) { forall h, p :: AsksHost(w, h, p) ==> CoversHost(g, Lower(h), p) }

  ghost predicate FsAsked(d: Declared, e: Entry, path: string, access: Access) {
    exists w, g :: w in e.fs && g in d.fs && AsksPath(w, path, access) && FsWider(g, w)
  }

  ghost predicate NetAsked(d: Declared, e: Entry, host: string, port: int) {
    exists w, g :: w in e.net && g in d.net && AsksHost(w, host, port) && NetWider(g, w)
  }

  lemma {:induction false} KeptFsMeans(declared: seq<FsGrant>, w: WantedFs, path: string, access: Access)
    requires AsksPath(w, path, access)
    ensures KeptFs(declared, w).Some? <==> exists g :: g in declared && FsWider(g, w)
  {
    var a := AccessOf(w.access.value).value;
    if KeptFs(declared, w).Some? {
      var i :| 0 <= i < |declared| && Under(w.path.value, declared[i].path) && Rank(a) <= Rank(declared[i].access);
      forall p, x | AsksPath(w, p, x) ensures CoversPath(declared[i], p, x) { UnderTrans(p, w.path.value, declared[i].path); }
      assert declared[i] in declared && FsWider(declared[i], w);
    }
    if g :| g in declared && FsWider(g, w) {
      assert AsksPath(w, w.path.value, a);
      var i :| 0 <= i < |declared| && declared[i] == g;
      assert CoversPath(declared[i], w.path.value, a);
    }
  }

  lemma {:induction false} SomePortLeft(ports: seq<int>) returns (p: int)
    ensures p !in ports && forall q :: q in ports ==> q < p
  {
    p := 0;
    for i := 0 to |ports|
      invariant forall k :: 0 <= k < i ==> ports[k] < p
    {
      if ports[i] >= p { p := ports[i] + 1; }
    }
  }

  lemma {:induction false} KeptNetMeans(declared: seq<NetGrant>, w: WantedNet, host: string, port: int)
    requires AsksHost(w, host, port)
    ensures KeptNet(declared, w).Some? <==> exists g :: g in declared && NetWider(g, w)
  {
    if KeptNet(declared, w).Some? {
      var i :| 0 <= i < |declared| && HostMatches(declared[i].host, Lower(w.host.value)) &&
        (declared[i].ports.None? || (w.ports.Some? && forall p :: p in w.ports.value ==> p in declared[i].ports.value));
      assert declared[i] in declared && NetWider(declared[i], w);
    }
    if g :| g in declared && NetWider(g, w) {
      var i :| 0 <= i < |declared| && declared[i] == g;
      assert CoversHost(g, Lower(host), port);
      if g.ports.Some? {
        if w.ports.None? {
          var q := SomePortLeft(g.ports.value);
          assert AsksHost(w, host, q);
        } else {
          forall p | p in w.ports.value ensures p in g.ports.value { assert AsksHost(w, host, p); }
        }
      }
    }
  }

  lemma {:induction false} KeptAllFsHas(declared: seq<FsGrant>, wanted: seq<WantedFs>, g: FsGrant)
    ensures g in KeptAllFs(declared, wanted) <==> exists w :: w in wanted && KeptFs(declared, w) == Some(g)
    decreases |wanted|
  {
    if wanted != [] {
      var n := |wanted| - 1;
      KeptAllFsHas(declared, wanted[..n], g);
      assert wanted == wanted[..n] + [wanted[n]];
    }
  }

  lemma {:induction false} KeptAllNetHas(declared: seq<NetGrant>, wanted: seq<WantedNet>, g: NetGrant)
    ensures g in KeptAllNet(declared, wanted) <==> exists w :: w in wanted && KeptNet(declared, w) == Some(g)
    decreases |wanted|
  {
    if wanted != [] {
      var n := |wanted| - 1;
      KeptAllNetHas(declared, wanted[..n], g);
      assert wanted == wanted[..n] + [wanted[n]];
    }
  }

  /**
   A path and access are allowed exactly if the declaration allows them and the module needs no entry,
   or has one that approves the declaration as it is; or if its entry has a well-formed grant that
   covers them, and all that this grant covers is covered by one grant of the declaration.
   */
  lemma {:induction false} FsGrantedIff(d: Declared, entry: Option<Entry>, ceilings: Limits, mode: Mode, path: string, access: Access)
    ensures PathAllowed(Narrow(d, entry, ceilings, mode).fs, path, access) <==>
      if entry.None? then mode != Enforce && PathAllowed(d.fs, path, access)
      else if entry.value.asDeclared then PathAllowed(d.fs, path, access)
      else FsAsked(d, entry.value, path, access)
  {
    if entry.Some? && !entry.value.asDeclared {
      var e, fs := entry.value, Narrow(d, entry, ceilings, mode).fs;
      if PathAllowed(fs, path, access) {
        var i :| 0 <= i < |fs| && CoversPath(fs[i], path, access);
        KeptAllFsHas(d.fs, e.fs, fs[i]);
        var w :| w in e.fs && KeptFs(d.fs, w) == Some(fs[i]);
        KeptFsMeans(d.fs, w, path, access);
        var g :| g in d.fs && FsWider(g, w);
      }
      if w, g :| w in e.fs && g in d.fs && AsksPath(w, path, access) && FsWider(g, w) {
        KeptFsMeans(d.fs, w, path, access);
        KeptAllFsHas(d.fs, e.fs, KeptFs(d.fs, w).value);
        var i :| 0 <= i < |fs| && fs[i] == KeptFs(d.fs, w).value;
        assert CoversPath(fs[i], path, access);
      }
    }
  }

  /** The same of a host and port. */
  lemma {:induction false} NetGrantedIff(d: Declared, entry: Option<Entry>, ceilings: Limits, mode: Mode, host: string, port: int)
    ensures HostAllowed(Narrow(d, entry, ceilings, mode).net, host, port) <==>
      if entry.None? then mode != Enforce && HostAllowed(d.net, host, port)
      else if entry.value.asDeclared then HostAllowed(d.net, host, port)
      else NetAsked(d, entry.value, host, port)
  {
    if entry.Some? && !entry.value.asDeclared {
      var e, net := entry.value, Narrow(d, entry, ceilings, mode).net;
      if HostAllowed(net, host, port) {
        var i :| 0 <= i < |net| && CoversHost(net[i], Lower(host), port);
        KeptAllNetHas(d.net, e.net, net[i]);
        var w :| w in e.net && KeptNet(d.net, w) == Some(net[i]);
        KeptNetMeans(d.net, w, host, port);
        var g :| g in d.net && NetWider(g, w);
      }
      if w, g :| w in e.net && g in d.net && AsksHost(w, host, port) && NetWider(g, w) {
        KeptNetMeans(d.net, w, host, port);
        KeptAllNetHas(d.net, e.net, KeptNet(d.net, w).value);
        var i :| 0 <= i < |net| && net[i] == KeptNet(d.net, w).value;
        assert CoversHost(net[i], Lower(host), port);
      }
    }
  }

  /** A module runs unapproved exactly if it has no entry and declares something that needs one. */
  lemma ApprovedIff(d: Declared, entry: Option<Entry>, ceilings: Limits, mode: Mode)
    ensures Narrow(d, entry, ceilings, mode).approved <==> entry.Some? || (|d.fs| == 0 && |d.net| == 0 && |d.env| == 0)
  {
  }

  /**
   A variable is passed on exactly if it is declared, the entry lists it or approves the declaration as
   it is (or there is none and the policy is not enforced), and there is a value for it: the policy's
   if it gives one and else the server's.
   */
  lemma EnvOnlyDeclared(d: Declared, entry: Option<Entry>, ceilings: Limits, mode: Mode, server: map<string, string>, name: string)
    ensures var r := Narrow(d, entry, ceilings, mode); var env := ResolveEnv(r.envNames, r.envOverrides, server);
      var own := entry.Some? && name in entry.value.env && entry.value.env[name].Some?;
      && (name in env <==>
            && name in d.env && (own || name in server)
            && if entry.Some? then entry.value.asDeclared || name in entry.value.env else mode != Enforce)
      && (name in env ==> env[name] == if own then entry.value.env[name].value else server[name])
  {
  }

  /** `x` is the least of what was requested, the entry's limit and the ceiling (or the default). */
  ghost predicate Least(x: int, k: string, requested: Limits, entry: Limits, ceilings: Limits)
    requires k in DEFAULT_LIMITS
  {
    var ceiling := if k in ceilings && ceilings[k] > 0 then ceilings[k] else DEFAULT_LIMITS[k];
    var own := k in entry && entry[k] > 0;
    && x <= ceiling && (k in requested ==> x <= requested[k]) && (own ==> x <= entry[k])
    && (x == ceiling || (k in requested && x == requested[k]) || (own && x == entry[k]))
  }

  /** Every limit is set, to the least of the limits that apply. */
  lemma LimitIsLeast(d: Declared, entry: Option<Entry>, ceilings: Limits, mode: Mode, k: string)
    ensures var limits := Narrow(d, entry, ceilings, mode).limits;
      (k in limits <==> k in DEFAULT_LIMITS) &&
      (k in limits ==> Least(limits[k], k, d.limits, if entry.Some? then entry.value.limits else map[], ceilings))
  {
  }

  /** What enforcing allows, auditing allows. */
  lemma {:induction false} EnforceWithinAudit(d: Declared, entry: Option<Entry>, ceilings: Limits)
    ensures var e, a := Narrow(d, entry, ceilings, Enforce), Narrow(d, entry, ceilings, Audit);
      && (forall path, access :: PathAllowed(e.fs, path, access) ==> PathAllowed(a.fs, path, access))
      && (forall host, port :: HostAllowed(e.net, host, port) ==> HostAllowed(a.net, host, port))
      && e.envNames <= a.envNames && e.limits == a.limits && (e.approved <==> a.approved)
  {
  }
}
