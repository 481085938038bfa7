/** Component composition, Tools.composite.components (flip.js:1394-1407):
    every component registered on the class is instantiated on each new
    container or page, and a `one('init', ...)` subscription runs the
    components' own `init` methods on the owner's first `init` event. */
module Components {
  import opened Events

  /** A registry entry (`Flip.components.<name>`, `Page.components.<name>`):
      the constructor's name and whether its instances have an `init` method. */
  datatype Component = Component(name: string, hasInit: bool)

  /** The components whose `init` the subscribed callback calls, in the
      order they were registered, which is the order the `for ... in` walk
      visits names that are not array indices. */
  function Booted(registry: seq<Component>): (names: seq<string>)
    ensures forall n :: n in names <==> exists c :: c in registry && c.hasInit && c.name == n
  {
    if registry == [] then []
    else
      var c := registry[|registry| - 1];
      assert registry == registry[..|registry| - 1] + [c];
      Booted(registry[..|registry| - 1]) + (if c.hasInit then [c.name] else [])
  }

  /** The table of a freshly composed owner: Tools.composite.event starts it
      empty, then the initialiser is subscribed with `one`. */
  function Composed(): (bus: Bus)
    ensures bus.Valid()
  {
    One(Empty, "init", InitComponents)
  }

  /** What callers can do to an owner's table after construction: subscribe
      and unsubscribe their own callbacks, delete a whole name with
      `off(name)`, and trigger events. */
  datatype Op = Listen(name: string, token: nat) | ListenOnce(name: string, token: nat)
              | Unlisten(name: string, token: nat) | UnlistenAll(name: string) | Emit(kind: string)

  /** Everything run by a sequence of operations, in order. */
  function Replay(bus: Bus, ops: seq<Op>, hooks: set<string>): seq<Fired>
    requires bus.Valid()
    decreases |ops|
  {
    if ops == [] then []
    else match ops[0]
      case Listen(n, t) => Replay(On(bus, n, Plain(User(t))), ops[1..], hooks)
      case ListenOnce(n, t) => Replay(One(bus, n, User(t)), ops[1..], hooks)
      case Unlisten(n, t) => Replay(Detach(bus, n, Plain(User(t))), ops[1..], hooks)
      case UnlistenAll(n) => Replay(OffAll(bus, n), ops[1..], hooks)
      case Emit(k) => Dispatched(bus, k, hooks) + Replay(Drained(bus, k), ops[1..], hooks)
  }

  /** Some `trigger(kind)` comes before the first `off(kind)` that deletes
      the whole name. */
  predicate EmitsFirst(ops: seq<Op>, kind: string) {
    exists i :: 0 <= i < |ops| && ops[i] == Emit(kind)
      && forall j :: 0 <= j < i ==> ops[j] != UnlistenAll(kind)
  }

  /** How many times the component initialiser ran. */
  function Starts(fs: seq<Fired>): nat {
    if fs == [] then 0
    else Starts(fs[..|fs| - 1]) + (if fs[|fs| - 1] == Ran(InitComponents) then 1 else 0)
  }

  /** How many subscriptions of the component initialiser a list holds. */
  function Pending(hs: seq<Handler>): nat {
    if hs == [] then 0
    else Pending(hs[..|hs| - 1]) + (if hs[|hs| - 1].cb == InitComponents then 1 else 0)
  }

  /** The initialiser is subscribed `a` times, only under `init`, and only
      through a self-removing wrapper. */
  ghost predicate Armed(bus: Bus, a: nat) {
    bus.Valid() && (a != 0 ==> "init" in bus.table)
    && (forall e :: e in bus.table ==> Pending(bus.table[e]) == if e == "init" then a else 0)
    && (forall e, h :: e in bus.table && h in bus.table[e] && h.cb == InitComponents ==> h.Once?)
  }

  /** Each component's `init` runs exactly once when the owner sees an `init`
      event before any `off('init')`, and never otherwise: the initialiser
      runs once per `trigger('init')` that finds it subscribed, its first run
      removes it, and `off('init')` deletes it unrun. */
  lemma ComponentsStartOnce(ops: seq<Op>, hooks: set<string>)
    ensures Starts(Replay(Composed(), ops, hooks)) == if EmitsFirst(ops, "init") then 1 else 0
  {
    var bus := Composed();
    assert bus.table["init"] == [Once(InitComponents, 0)];
    assert Pending(bus.table["init"]) == 1;
    ReplayStarts(bus, ops, hooks, 1);
  }

  lemma {:induction false} ReplayStarts(bus: Bus, ops: seq<Op>, hooks: set<string>, a: nat)
    requires Armed(bus, a) && a <= 1
    ensures Starts(Replay(bus, ops, hooks)) == if a == 1 && EmitsFirst(ops, "init") then 1 else 0
    decreases |ops|
  {
    if ops != [] {
      var rest := ops[1..];
      EmitsFirstCons(ops, "init");
      match ops[0]
      case Listen(n, t) =>
        ArmedOn(bus, a, n, Plain(User(t)));
        ReplayStarts(On(bus, n, Plain(User(t))), rest, hooks, a);
      case ListenOnce(n, t) =>
        var b := bus.(wrappers := bus.wrappers + 1);
        ArmedOn(b, a, n, Once(User(t), bus.wrappers));
        ReplayStarts(One(bus, n, User(t)), rest, hooks, a);
      case Unlisten(n, t) =>
        ArmedDetach(bus, a, n, Plain(User(t)));
        ReplayStarts(Detach(bus, n, Plain(User(t))), rest, hooks, a);
      case UnlistenAll(n) =>
        ArmedOffAll(bus, a, n);
        ReplayStarts(OffAll(bus, n), rest, hooks, if n == "init" then 0 else a);
      case Emit(k) =>
        var d := Drained(bus, k);
        StartsConcat(Dispatched(bus, k, hooks), Replay(d, rest, hooks));
        EmitStarts(bus, k, hooks, a);
        ReplayStarts(d, rest, hooks, if k == "init" then 0 else a);
    }
  }

  lemma EmitsFirstCons(ops: seq<Op>, kind: string)
    requires ops != []
    ensures EmitsFirst(ops, kind) <==>
      ops[0] == Emit(kind) || (ops[0] != UnlistenAll(kind) && EmitsFirst(ops[1..], kind))
  {
    var rest := ops[1..];
    if ops[0] != UnlistenAll(kind) && EmitsFirst(rest, kind) {
      var i :| 0 <= i < |rest| && rest[i] == Emit(kind)
        && forall j :: 0 <= j < i ==> rest[j] != UnlistenAll(kind);
      assert forall j :: 0 <= j < i + 1 ==> ops[j] != UnlistenAll(kind) by {
        forall j | 0 <= j < i + 1 ensures ops[j] != UnlistenAll(kind) {
          if j > 0 { assert ops[j] == rest[j - 1]; }
        }
      }
      assert ops[i + 1] == Emit(kind);
    }
    if EmitsFirst(ops, kind) && ops[0] != Emit(kind) {
      var i :| 0 <= i < |ops| && ops[i] == Emit(kind)
        && forall j :: 0 <= j < i ==> ops[j] != UnlistenAll(kind);
      assert i > 0 && ops[0] != UnlistenAll(kind);
      assert rest[i - 1] == Emit(kind);
      assert forall j :: 0 <= j < i - 1 ==> rest[j] != UnlistenAll(kind) by {
        forall j | 0 <= j < i - 1 ensures rest[j] != UnlistenAll(kind) {
          assert rest[j] == ops[j + 1];
        }
      }
    }
  }

  /** One `trigger(k)`: it starts the components once when `k` is "init" and
      they are armed, and leaves them armed unless it did. */
  lemma EmitStarts(bus: Bus, k: string, hooks: set<string>, a: nat)
    requires Armed(bus, a) && a <= 1
    ensures Starts(Dispatched(bus, k, hooks)) == if a == 1 && k == "init" then 1 else 0
    ensures Armed(Drained(bus, k), if k == "init" then 0 else a)
  {
    StartsConcat(Runs(Selected(bus.names, bus.table, k)), if k in hooks then [Method(k)] else []);
    StartsRuns(Selected(bus.names, bus.table, k));
    PendingSelected(bus, a, bus.names, k);
    assert bus.names[..|bus.names|] == bus.names;
    MatchesInit(k);
    ArmedDrained(bus, a, k);
  }

  lemma {:induction false} StartsConcat(a: seq<Fired>, b: seq<Fired>)
    ensures Starts(a + b) == Starts(a) + Starts(b)
    decreases |b|
  {
    if b != [] {
      assert (a + b)[..|a + b| - 1] == a + b[..|b| - 1];
      StartsConcat(a, b[..|b| - 1]);
    } else {
      assert a + b == a;
    }
  }

  lemma {:induction false} StartsRuns(hs: seq<Handler>)
    ensures Starts(Runs(hs)) == Pending(hs)
  {
    if hs != [] {
      assert Runs(hs)[..|hs| - 1] == Runs(hs[..|hs| - 1]);
      StartsRuns(hs[..|hs| - 1]);
    }
  }

  lemma {:induction false} PendingConcat(a: seq<Handler>, b: seq<Handler>)
    ensures Pending(a + b) == Pending(a) + Pending(b)
    decreases |b|
  {
    if b != [] {
      assert (a + b)[..|a + b| - 1] == a + b[..|b| - 1];
      PendingConcat(a, b[..|b| - 1]);
    } else {
      assert a + b == a;
    }
  }

  lemma {:induction false} PendingNone(hs: seq<Handler>)
    ensures Pending(hs) == 0 <==> forall h :: h in hs ==> h.cb != InitComponents
  {
    if hs != [] {
      PendingNone(hs[..|hs| - 1]);
      assert hs == hs[..|hs| - 1] + [hs[|hs| - 1]];
    }
  }

  /** Only `init` can carry the initialiser into a dispatch. */
  lemma {:induction false} PendingSelected(bus: Bus, a: nat, names: seq<string>, k: string)
    requires Armed(bus, a) && forall e :: e in names ==> e in bus.names
    requires forall i, j :: 0 <= i < j < |names| ==> names[i] != names[j]
    ensures Pending(Selected(names, bus.table, k)) == if "init" in names && Matches("init", k) then a else 0
  {
    if names != [] {
      var init, e := names[..|names| - 1], names[|names| - 1];
      PendingSelected(bus, a, init, k);
      PendingConcat(Selected(init, bus.table, k), if Matches(e, k) then bus.table[e] else []);
      assert names == init + [e];
      assert e !in init;
    }
  }

  lemma ArmedOn(bus: Bus, a: nat, n: string, h: Handler)
    requires Armed(bus, a) && h.cb != InitComponents && (h.Once? ==> h.wrapper < bus.wrappers)
    ensures Armed(On(bus, n, h), a)
  {
    var after := On(bus, n, h);
    var before := if n in bus.table then bus.table[n] else [];
    PendingConcat(before, [h]);
    assert [h][..0] == [];
    assert after.table[n] == before + [h];
  }

  /** `off(name)` deletes a name's list: deleting `init` drops the initialiser unrun. */
  lemma ArmedOffAll(bus: Bus, a: nat, n: string)
    requires Armed(bus, a)
    ensures Armed(OffAll(bus, n), if n == "init" then 0 else a)
  {
  }

  lemma ArmedDetach(bus: Bus, a: nat, n: string, h: Handler)
    requires Armed(bus, a) && h.cb != InitComponents
    ensures Armed(Detach(bus, n, h), a)
  {
    if n in bus.table {
      PendingRemove(bus.table[n], h);
      RemoveSpec(bus.table[n], h);
    }
  }

  lemma {:induction false} PendingRemove(hs: seq<Handler>, h: Handler)
    requires h.cb != InitComponents
    ensures Pending(Remove(hs, h)) == Pending(hs)
  {
    if hs != [] {
      var init, x := hs[..|hs| - 1], hs[|hs| - 1];
      PendingRemove(init, h);
      if x != h {
        var r := Remove(init, h) + [x];
        assert Remove(hs, h) == r;
        assert r[..|r| - 1] == Remove(init, h) && r[|r| - 1] == x;
        assert Pending(r) == Pending(Remove(init, h)) + (if x.cb == InitComponents then 1 else 0);
        assert Pending(hs) == Pending(init) + (if x.cb == InitComponents then 1 else 0);
        assert Pending(Remove(init, h)) == Pending(init);
      } else {
        assert Remove(hs, h) == Remove(init, h) + [];
        assert Remove(init, h) + [] == Remove(init, h);
      }
    }
  }

  lemma ArmedDrained(bus: Bus, a: nat, k: string)
    requires Armed(bus, a)
    ensures Armed(Drained(bus, k), if k == "init" then 0 else a)
  {
    var d := Drained(bus, k);
    forall e | e in d.table
      ensures Pending(d.table[e]) == if e == "init" then (if k == "init" then 0 else a) else 0
      ensures forall h :: h in d.table[e] && h.cb == InitComponents ==> h.Once?
    {
      DrainedList(bus, a, k, e);
    }
  }

  /** The same, one list at a time. */
  lemma DrainedList(bus: Bus, a: nat, k: string, e: string)
    requires Armed(bus, a) && e in bus.table
    ensures var l := Drained(bus, k).table[e];
      Pending(l) == (if e == "init" then (if k == "init" then 0 else a) else 0)
      && forall h :: h in l && h.cb == InitComponents ==> h.Once?
  {
    MatchesInit(k);
    var l := Drained(bus, k).table[e];
    if Matches(e, k) {
      SpentSubset(bus.table[e]);
      PendingNone(l);
      if e != "init" {
        PendingNone(bus.table[e]);
      }
    }
  }

}
