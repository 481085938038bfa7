/** The event facility that Tools.composite.event installs on every container,
    page and component (flip.js:1342-1389). The object's `event` property is
    modelled as a value: the names in the order they were registered and a
    map from each name to its handler list. A name deleted by `off(name)`
    and registered again goes to the end. That is the order a `for ... in`
    walk visits names that are not array indices; event names are taken to
    be neither array indices nor members of Object.prototype. Handlers are opaque tokens; a dispatch is the sequence
    of tokens it runs. */
module Events {

  /** A function handed to `on` or `one`: an opaque user token, or the
      component initialiser that Tools.composite.components subscribes. */
  datatype Callback = User(token: nat) | InitComponents

  /** An element of a handler list: the callback itself (registered by `on`)
      or the self-removing wrapper that `one` builds around it. Every wrapper
      is a fresh closure, so each carries a fresh identity. */
  datatype Handler = Plain(cb: Callback) | Once(cb: Callback, wrapper: nat)

  /** One step of a dispatch: a handler's callback ran, or the object's own
      `on<type>` method ran. */
  datatype Fired = Ran(cb: Callback) | Method(kind: string)

  datatype Bus = Bus(names: seq<string>, table: map<string, seq<Handler>>, wrappers: nat)
  {
    /** Names are listed once each, exactly the keys of the table, and every
        wrapper identity in use is below the next fresh one. */
    ghost predicate Valid() {
      (forall i, j :: 0 <= i < j < |names| ==> names[i] != names[j])
      && (forall e :: e in table <==> e in names)
      && (forall e, h :: e in table && h in table[e] && h.Once? ==> h.wrapper < wrappers)
    }
  }

  /** `target.event = {}` */
  const Empty: Bus := Bus([], map[], 0)

  /** A handler registered under `name` runs for `trigger(kind)` exactly when
      `(name + '.').indexOf(kind + '.') === 0` (flip.js:1373). */
  predicate Matches(name: string, kind: string) {
    kind + "." <= name + "."
  }

  /** The namespace reading of the test: `kind` itself or a dotted child of it. */
  lemma MatchesIff(name: string, kind: string)
    ensures Matches(name, kind) <==> name == kind || kind + "." <= name
  {
    var k, n := kind + ".", name + ".";
    if Matches(name, kind) {
      if |kind| < |name| {
        assert k == n[..|k|];
        assert n[..|k|] == name[..|k|];
      } else {
        assert |k| == |n|;
        assert kind == k[..|kind|] && name == n[..|name|];
      }
    }
    if kind + "." <= name {
      assert k == name[..|k|];
      assert name[..|k|] == n[..|k|];
    }
  }

  /** The matching is one-directional: a child name matches its parent's
      trigger, never the reverse, and a longer word is not a child. */
  lemma NamespaceDirection()
    ensures Matches("init.call", "init")
    ensures !Matches("init", "init.call")
    ensures !Matches("loadx", "load")
  {
    MatchesIff("init.call", "init");
    assert ("load" + ".")[4] == '.' && ("loadx" + ".")[4] == 'x';
    assert ("init.call" + ".")[4] == '.' && ("init" + ".")[4] == '.';
    assert |"init.call" + "."| > |"init" + "."|;
  }

  /** Only `trigger('init')` itself reaches handlers registered as `init`. */
  lemma MatchesInit(kind: string)
    ensures Matches("init", kind) <==> kind == "init"
  {
    if Matches("init", kind) {
      var n := "init" + ".";
      assert (kind + ".")[|kind|] == '.';
      assert n[|kind|] == '.';
      assert n[0] == 'i' && n[1] == 'n' && n[2] == 'i' && n[3] == 't';
      assert kind == (kind + ".")[..|kind|] == n[..|kind|];
    }
  }

  /** The handlers the dispatch loop visits: the lists of the matching names,
      in name order, each list in its own order. */
  function Selected(names: seq<string>, table: map<string, seq<Handler>>, kind: string): seq<Handler>
    requires forall e :: e in names ==> e in table
  {
    if names == [] then []
    else
      var e := names[|names| - 1];
      Selected(names[..|names| - 1], table, kind) + (if Matches(e, kind) then table[e] else [])
  }

  function Runs(hs: seq<Handler>): seq<Fired> {
    seq(|hs|, i requires 0 <= i < |hs| => Ran(hs[i].cb))
  }

  /** What `trigger(kind)` runs: every matching handler, then `on<kind>` if
      the object has such a method. */
  function Dispatched(bus: Bus, kind: string, hooks: set<string>): seq<Fired>
    requires bus.Valid()
  {
    Runs(Selected(bus.names, bus.table, kind)) + (if kind in hooks then [Method(kind)] else [])
  }

  /** A handler list with every `one` wrapper gone. */
  function Spent(hs: seq<Handler>): seq<Handler> {
    if hs == [] then []
    else Spent(hs[..|hs| - 1]) + (if hs[|hs| - 1].Once? then [] else [hs[|hs| - 1]])
  }

  /** The table after `trigger(kind)`: every wrapper on a matching list has
      removed itself; the other lists and all names stay. */
  function Drained(bus: Bus, kind: string): (after: Bus)
    requires bus.Valid()
    ensures after.Valid()
  {
    var t := map e | e in bus.table :: if Matches(e, kind) then Spent(bus.table[e]) else bus.table[e];
    assert forall e, h :: e in t && h in t[e] ==> h in bus.table[e] by {
      forall e | e in t ensures forall h :: h in t[e] ==> h in bus.table[e] {
        SpentSubset(bus.table[e]);
      }
    }
    bus.(table := t)
  }

  /** A list with every occurrence of `h` gone (`this.event[event][i] !== callback`). */
  function Remove(hs: seq<Handler>, h: Handler): seq<Handler> {
    if hs == [] then []
    else Remove(hs[..|hs| - 1], h) + (if hs[|hs| - 1] == h then [] else [hs[|hs| - 1]])
  }

  /** `off(name, h)` as a value: a name that is not registered is left alone. */
  function Detach(bus: Bus, name: string, h: Handler): (after: Bus)
    requires bus.Valid()
    ensures after.Valid()
  {
    if name in bus.table then
      RemoveSpec(bus.table[name], h);
      bus.(table := bus.table[name := Remove(bus.table[name], h)])
    else bus
  }

  /** `on(name, h)`: a new name goes to the end of the name order; the
      handler goes to the end of its list. The name is not an Object.prototype
      member, whose inherited value would make the source's `push` throw. */
  function On(bus: Bus, name: string, h: Handler): (after: Bus)
    requires bus.Valid()
    requires h.Once? ==> h.wrapper < bus.wrappers
    ensures after.Valid()
    ensures name in after.table && after.table[name] == (if name in bus.table then bus.table[name] else []) + [h]
    ensures forall e :: e != name ==> (e in after.table <==> e in bus.table) && (e in bus.table ==> after.table[e] == bus.table[e])
    ensures after.names == if name in bus.table then bus.names else bus.names + [name]
  {
    if name in bus.table then bus.(table := bus.table[name := bus.table[name] + [h]])
    else bus.(names := bus.names + [name], table := bus.table[name := [h]])
  }

  /** `one(name, cb)`: subscribes a fresh wrapper. */
  function One(bus: Bus, name: string, cb: Callback): (after: Bus)
    requires bus.Valid()
    ensures after.Valid()
  {
    On(bus.(wrappers := bus.wrappers + 1), name, Once(cb, bus.wrappers))
  }

  function Erase(names: seq<string>, name: string): seq<string> {
    if names == [] then []
    else Erase(names[..|names| - 1], name) + (if names[|names| - 1] == name then [] else [names[|names| - 1]])
  }

  /** `off(name)` with no callback: `delete this.event[event]`. */
  function OffAll(bus: Bus, name: string): (after: Bus)
    requires bus.Valid()
    ensures after.Valid()
    ensures name !in after.table
    ensures forall e :: e != name ==> (e in after.table <==> e in bus.table)
    ensures forall e :: e != name && e in bus.table ==> after.table[e] == bus.table[e]
    ensures name !in bus.table ==> after == bus
  {
    if name in bus.table then
      EraseSpec(bus.names, name);
      bus.(names := Erase(bus.names, name), table := bus.table - {name})
    else bus
  }

  /** `off(name, h)`: rebuilds the list without `h` (flip.js:1351-1363). */
  method Off(bus: Bus, name: string, h: Handler) returns (after: Bus)
    requires bus.Valid()
    ensures after.Valid()
    ensures after == Detach(bus, name, h)
    ensures name in bus.table ==> h !in after.table[name]
  {
    after := bus;
    if name in bus.table {
      var list := bus.table[name];
      var temp: seq<Handler> := [];
      var i := 0;
      while i < |list|
        invariant 0 <= i <= |list|
        invariant temp == Remove(list[..i], h)
      {
        assert list[..i + 1][..i] == list[..i];
        if list[i] != h {
          temp := temp + [list[i]];
        }
        i := i + 1;
      }
      assert list[..i] == list;
      RemoveSpec(list, h);
      after := bus.(table := bus.table[name := temp]);
    }
  }

  /** The dispatch loop of flip.js:1372-1378: the names in order, and for
      each matching name the walk over its list. */
  method Trigger(bus: Bus, kind: string, hooks: set<string>) returns (fired: seq<Fired>, after: Bus)
    requires bus.Valid()
    ensures after.Valid()
    ensures fired == Dispatched(bus, kind, hooks)
    ensures after == Drained(bus, kind)
  {
    fired, after := [], bus;
    var i := 0;
    assert after == DrainedUpTo(bus, kind, 0);
    while i < |bus.names|
      invariant 0 <= i <= |bus.names|
      invariant after == DrainedUpTo(bus, kind, i)
      invariant fired == Runs(Selected(bus.names[..i], bus.table, kind))
    {
      var ran;
      ran, after := Visit(bus, kind, i, after);
      fired := fired + ran;
      i := i + 1;
    }
    assert bus.names[..i] == bus.names;
    DrainedAll(bus, kind);
    if kind in hooks {
      fired := fired + [Method(kind)];
    }
  }

  /** One round of the dispatch loop: the walk over the list of name `i`
      when that name matches. */
  method Visit(bus: Bus, kind: string, i: nat, before: Bus) returns (ran: seq<Fired>, after: Bus)
    requires bus.Valid() && i < |bus.names| && before == DrainedUpTo(bus, kind, i)
    ensures after == DrainedUpTo(bus, kind, i + 1)
    ensures Runs(Selected(bus.names[..i + 1], bus.table, kind)) == Runs(Selected(bus.names[..i], bus.table, kind)) + ran
  {
    var e := bus.names[i];
    SelectedStep(bus.names, bus.table, kind, i);
    DrainStep(bus, kind, i);
    if Matches(e, kind) {
      ran, after := Walk(before, e);
      RunsConcat(Selected(bus.names[..i], bus.table, kind), bus.table[e]);
    } else {
      ran, after := [], before;
      assert Selected(bus.names[..i], bus.table, kind) + [] == Selected(bus.names[..i], bus.table, kind);
    }
  }

  /** The dispatch over one more name visits that name's list last, when it matches. */
  lemma SelectedStep(names: seq<string>, table: map<string, seq<Handler>>, kind: string, i: nat)
    requires (forall e :: e in names ==> e in table) && i < |names|
    ensures Selected(names[..i + 1], table, kind) == Selected(names[..i], table, kind) + (if Matches(names[i], kind) then table[names[i]] else [])
  {
    assert names[..i + 1][..i] == names[..i];
  }

  /** The lists once the dispatch has walked the names in `done`. */
  ghost function DrainedTable(table: map<string, seq<Handler>>, done: seq<string>, kind: string): (t: map<string, seq<Handler>>)
    ensures t.Keys == table.Keys
  {
    map e | e in table :: if e in done && Matches(e, kind) then Spent(table[e]) else table[e]
  }

  /** The table once the dispatch has walked the first `i` names. */
  ghost function DrainedUpTo(bus: Bus, kind: string, i: nat): (after: Bus)
    requires bus.Valid() && i <= |bus.names|
    ensures after.Valid()
  {
    var t := DrainedTable(bus.table, bus.names[..i], kind);
    assert forall e, h :: e in t && h in t[e] ==> h in bus.table[e] by {
      forall e | e in t ensures forall h :: h in t[e] ==> h in bus.table[e] {
        SpentSubset(bus.table[e]);
      }
    }
    bus.(table := t)
  }

  /** Walking one more name drains that name's list, when it matches. */
  lemma DrainTableStep(table: map<string, seq<Handler>>, done: seq<string>, next: seq<string>, e: string, kind: string)
    requires e in table && e !in done
    requires forall d :: d in next <==> d in done || d == e
    ensures DrainedTable(table, done, kind)[e] == table[e]
    ensures DrainedTable(table, next, kind)
            == if Matches(e, kind) then DrainedTable(table, done, kind)[e := Spent(table[e])] else DrainedTable(table, done, kind)
  {
    var before, after := DrainedTable(table, done, kind), DrainedTable(table, next, kind);
    if Matches(e, kind) {
      assert after == before[e := Spent(table[e])];
    } else {
      assert after == before;
    }
  }

  lemma DrainStep(bus: Bus, kind: string, i: nat)
    requires bus.Valid() && i < |bus.names|
    ensures
      var e := bus.names[i];
      var prior := DrainedUpTo(bus, kind, i);
      e in prior.table && prior.table[e] == bus.table[e]
      && DrainedUpTo(bus, kind, i + 1) ==
        if Matches(e, kind) then prior.(table := prior.table[e := Spent(bus.table[e])]) else prior
  {
    var e := bus.names[i];
    assert bus.names[..i + 1] == bus.names[..i] + [e];
    assert e !in bus.names[..i];
    DrainTableStep(bus.table, bus.names[..i], bus.names[..i + 1], e, kind);
  }

  lemma DrainedAll(bus: Bus, kind: string)
    requires bus.Valid()
    ensures DrainedUpTo(bus, kind, |bus.names|) == Drained(bus, kind)
  {
    assert bus.names[..|bus.names|] == bus.names;
    var a, b := DrainedUpTo(bus, kind, |bus.names|).table, Drained(bus, kind).table;
    assert a.Keys == b.Keys;
    forall d | d in a ensures a[d] == b[d] {
      assert d in bus.names;
    }
    assert a == b;
  }

  lemma RunsConcat(a: seq<Handler>, b: seq<Handler>)
    ensures Runs(a + b) == Runs(a) + Runs(b)
  {
  }

  /** The inner loop of the dispatch: it walks a snapshot of the list under
      `e`; a wrapper that runs calls `off`, which replaces the live list, so
      the walk still visits every handler of the snapshot. */
  method Walk(bus: Bus, e: string) returns (ran: seq<Fired>, after: Bus)
    requires bus.Valid() && e in bus.table
    ensures after.Valid()
    ensures ran == Runs(bus.table[e])
    ensures after == bus.(table := bus.table[e := Spent(bus.table[e])])
  {
    var list := bus.table[e];
    ran, after := [], bus;
    var j := 0;
    ghost var gone: set<Handler> := {};
    WithoutNone(list);
    while j < |list|
      invariant 0 <= j <= |list|
      invariant forall k :: 0 <= k < j && list[k].Once? ==> list[k] in gone
      invariant after == bus.(table := bus.table[e := Without(list, gone)])
      invariant ran == Runs(list[..j])
    {
      assert list[..j + 1] == list[..j] + [list[j]];
      RunsConcat(list[..j], [list[j]]);
      ran := ran + [Ran(list[j].cb)];
      if list[j].Once? {
        after := Action(after, e, list[j], bus, gone);
        gone := gone + {list[j]};
      }
      j := j + 1;
    }
    Walked(bus, e, gone);
  }

  /** Once the walk is over, every wrapper of the snapshot is gone. */
  lemma Walked(bus: Bus, e: string, gone: set<Handler>)
    requires bus.Valid() && e in bus.table
    requires forall k :: 0 <= k < |bus.table[e]| && bus.table[e][k].Once? ==> bus.table[e][k] in gone
    ensures Without(bus.table[e], gone) == Spent(bus.table[e])
    ensures bus.(table := bus.table[e := Spent(bus.table[e])]).Valid()
  {
    WithoutCovered(bus.table[e], gone);
    SpentSubset(bus.table[e]);
    Replaced(bus, e, Spent(bus.table[e]));
  }

  /** The wrapper that `one` subscribes (flip.js:1382-1386): after its
      callback it calls `off` with itself on the live list, which is the
      snapshot of `bus` less the wrappers in `gone`. */
  method Action(live: Bus, e: string, h: Handler, ghost bus: Bus, ghost gone: set<Handler>) returns (after: Bus)
    requires bus.Valid() && e in bus.table && h.Once?
    requires live == bus.(table := bus.table[e := Without(bus.table[e], gone)])
    ensures after == bus.(table := bus.table[e := Without(bus.table[e], gone + {h})])
  {
    Unwound(bus, e, gone, h);
    after := Off(live, e, h);
  }

  /** Running a wrapper of the snapshot takes it out of the live list. */
  lemma Unwound(bus: Bus, e: string, gone: set<Handler>, h: Handler)
    requires bus.Valid() && e in bus.table && h.Once?
    ensures bus.(table := bus.table[e := Without(bus.table[e], gone)]).Valid()
    ensures Detach(bus.(table := bus.table[e := Without(bus.table[e], gone)]), e, h)
            == bus.(table := bus.table[e := Without(bus.table[e], gone + {h})])
  {
    var list := bus.table[e];
    WithoutSubset(list, gone);
    Replaced(bus, e, Without(list, gone));
    WithoutStep(list, gone, h);
    Overwritten(bus.table, e, Without(list, gone), Without(list, gone + {h}));
  }

  lemma Overwritten(table: map<string, seq<Handler>>, e: string, a: seq<Handler>, b: seq<Handler>)
    ensures table[e := a][e := b] == table[e := b]
  {
  }

  /** Replacing a list by one made of its own handlers keeps the table valid. */
  lemma Replaced(bus: Bus, e: string, hs: seq<Handler>)
    requires bus.Valid() && e in bus.table
    requires forall h :: h in hs ==> h in bus.table[e]
    ensures bus.(table := bus.table[e := hs]).Valid()
  {
  }

  /** The live list during the walk: the snapshot minus the wrappers in
      `gone`, those already run. */
  ghost function Without(hs: seq<Handler>, gone: set<Handler>): seq<Handler> {
    if hs == [] then []
    else
      var h := hs[|hs| - 1];
      Without(hs[..|hs| - 1], gone) + (if h.Once? && h in gone then [] else [h])
  }

  lemma {:induction false} WithoutSubset(hs: seq<Handler>, gone: set<Handler>)
    ensures forall h :: h in Without(hs, gone) ==> h in hs
  {
    if hs != [] {
      WithoutSubset(hs[..|hs| - 1], gone);
    }
  }

  lemma {:induction false} WithoutNone(hs: seq<Handler>)
    ensures Without(hs, {}) == hs
  {
    if hs != [] {
      WithoutNone(hs[..|hs| - 1]);
    }
  }

  /** Running wrapper `h` removes it from the live list. */
  lemma {:induction false} WithoutStep(hs: seq<Handler>, gone: set<Handler>, h: Handler)
    requires h.Once?
    ensures Remove(Without(hs, gone), h) == Without(hs, gone + {h})
  {
    if hs != [] {
      var init := hs[..|hs| - 1];
      WithoutStep(init, gone, h);
      var x := hs[|hs| - 1];
      RemoveConcat(Without(init, gone), if x.Once? && x in gone then [] else [x], h);
    }
  }

  lemma {:induction false} WithoutCovered(hs: seq<Handler>, gone: set<Handler>)
    requires forall h :: h in hs && h.Once? ==> h in gone
    ensures Without(hs, gone) == Spent(hs)
  {
    if hs != [] {
      WithoutCovered(hs[..|hs| - 1], gone);
    }
  }

  lemma {:induction false} SpentSubset(hs: seq<Handler>)
    ensures forall h :: h in Spent(hs) ==> h in hs && h.Plain?
  {
    if hs != [] {
      SpentSubset(hs[..|hs| - 1]);
    }
  }

  lemma {:induction false} EraseSpec(names: seq<string>, name: string)
    requires forall i, j :: 0 <= i < j < |names| ==> names[i] != names[j]
    ensures forall e :: e in Erase(names, name) <==> e in names && e != name
    ensures forall i, j :: 0 <= i < j < |Erase(names, name)| ==> Erase(names, name)[i] != Erase(names, name)[j]
  {
    if names != [] {
      EraseSpec(names[..|names| - 1], name);
      assert names[|names| - 1] !in names[..|names| - 1];
    }
  }

  /** `off(name, h)` leaves no occurrence of `h` and every other handler
      exactly as often as before. */
  lemma {:induction false} RemoveSpec(hs: seq<Handler>, h: Handler)
    ensures h !in Remove(hs, h)
    ensures forall x :: x != h ==> multiset(Remove(hs, h))[x] == multiset(hs)[x]
    ensures forall x :: x in Remove(hs, h) ==> x in hs
  {
    if hs != [] {
      var init := hs[..|hs| - 1];
      RemoveSpec(init, h);
      assert hs == init + [hs[|hs| - 1]];
    }
  }

  /** Removal works piecewise, so the survivors keep their relative order. */
  lemma {:induction false} RemoveConcat(a: seq<Handler>, b: seq<Handler>, h: Handler)
    ensures Remove(a + b, h) == Remove(a, h) + Remove(b, h)
  {
    if b != [] {
      var init := b[..|b| - 1];
      assert (a + b)[..|a + b| - 1] == a + init;
      RemoveConcat(a, init, h);
    } else {
      assert a + b == a;
    }
  }

  /** Removing a handler that is not there changes nothing. */
  lemma {:induction false} RemoveAbsent(hs: seq<Handler>, h: Handler)
    requires h !in hs
    ensures Remove(hs, h) == hs
  {
    if hs != [] {
      RemoveAbsent(hs[..|hs| - 1], h);
    }
  }

  /** `trigger(kind)` runs a handler exactly when it is registered under some
      matching name. */
  lemma {:induction false} SelectedMembers(names: seq<string>, table: map<string, seq<Handler>>, kind: string, h: Handler)
    requires forall e :: e in names ==> e in table
    ensures h in Selected(names, table, kind) <==> exists e :: e in names && Matches(e, kind) && h in table[e]
  {
    if names != [] {
      var init, e := names[..|names| - 1], names[|names| - 1];
      SelectedMembers(init, table, kind, h);
      assert names == init + [e];
    }
  }

  /** Within the dispatch, the handlers of one matching name appear as one
      block, in the list's (registration) order. */
  lemma {:induction false} SelectedBlock(names: seq<string>, table: map<string, seq<Handler>>, kind: string, e: string)
    returns (before: seq<Handler>, after: seq<Handler>)
    requires forall d :: d in names ==> d in table
    requires forall i, j :: 0 <= i < j < |names| ==> names[i] != names[j]
    requires e in names && Matches(e, kind)
    ensures Selected(names, table, kind) == before + table[e] + after
  {
    var init, last := names[..|names| - 1], names[|names| - 1];
    if last == e {
      before, after := Selected(init, table, kind), [];
    } else {
      assert e in init;
      before, after := SelectedBlock(init, table, kind, e);
      after := after + (if Matches(last, kind) then table[last] else []);
    }
  }

  /** A handler subscribed with `on` runs on the next matching trigger, after
      every handler already registered under the same name. */
  lemma OnRunsLast(bus: Bus, name: string, cb: Callback, kind: string)
    requires bus.Valid() && Matches(name, kind)
    ensures
      var after := On(bus, name, Plain(cb));
      var prior := if name in bus.table then bus.table[name] else [];
      exists before, rest :: Selected(after.names, after.table, kind) == before + prior + [Plain(cb)] + rest
  {
    var after := On(bus, name, Plain(cb));
    var prior := if name in bus.table then bus.table[name] else [];
    assert after.Valid() && name in after.names;
    BlockAt(after.names, after.table, kind, name, prior, Plain(cb));
  }

  lemma BlockAt(names: seq<string>, table: map<string, seq<Handler>>, kind: string, e: string, prior: seq<Handler>, h: Handler)
    requires forall d :: d in table <==> d in names
    requires forall i, j :: 0 <= i < j < |names| ==> names[i] != names[j]
    requires e in names && Matches(e, kind) && table[e] == prior + [h]
    ensures exists before, rest :: Selected(names, table, kind) == before + prior + [h] + rest
  {
    var before, rest := SelectedBlock(names, table, kind, e);
    assert before + table[e] + rest == before + prior + [h] + rest;
  }

  /** A `one` handler runs on the first matching trigger and is gone from
      every list afterwards, so no later trigger can run it again. */
  lemma OneRunsOnce(bus: Bus, name: string, cb: Callback, kind: string, later: string)
    requires bus.Valid() && Matches(name, kind)
    ensures
      var w := Once(cb, bus.wrappers);
      var armed := One(bus, name, cb);
      w in Selected(armed.names, armed.table, kind)
      && w !in Selected(Drained(armed, kind).names, Drained(armed, kind).table, later)
  {
    var w := Once(cb, bus.wrappers);
    var armed := One(bus, name, cb);
    assert w in armed.table[name];
    SelectedMembers(armed.names, armed.table, kind, w);
    OneGone(bus, name, cb, kind);
    var spent := Drained(armed, kind);
    SelectedMembers(spent.names, spent.table, later, w);
  }

  lemma OneGone(bus: Bus, name: string, cb: Callback, kind: string)
    requires bus.Valid() && Matches(name, kind)
    ensures
      var spent := Drained(One(bus, name, cb), kind);
      forall e :: e in spent.table ==> Once(cb, bus.wrappers) !in spent.table[e]
  {
    var w := Once(cb, bus.wrappers);
    var armed := One(bus, name, cb);
    var spent := Drained(armed, kind);
    forall e | e in spent.table ensures w !in spent.table[e] {
      SpentSubset(armed.table[e]);
      if e != name {
        FreshAbsent(bus, e, w);
      }
    }
  }

  lemma FreshAbsent(bus: Bus, e: string, w: Handler)
    requires bus.Valid() && w.Once? && w.wrapper == bus.wrappers
    ensures e in bus.table ==> w !in bus.table[e]
  {
  }

  /** `off(name, cb)` after `on(name, cb)` leaves no copy of `cb` under
      `name`, and `off` on an unregistered name is a no-op. */
  lemma OffUndoesOn(bus: Bus, name: string, cb: Callback)
    requires bus.Valid()
    ensures Plain(cb) !in Detach(On(bus, name, Plain(cb)), name, Plain(cb)).table[name]
    ensures name !in bus.table ==> Detach(bus, name, Plain(cb)) == bus
  {
    RemoveSpec(On(bus, name, Plain(cb)).table[name], Plain(cb));
  }
}
