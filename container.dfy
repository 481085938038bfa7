/** The container (`Flip`, flip.js:32-520) and its pages (`Page`,
    flip.js:526-1057), with the browser globals the code touches: the
    address-bar fragment (`location.hash`), the global `window.page`, the
    requests in flight, and a log of what became visible to the outside
    (events fired, content written, timers armed). Rendering, animation and
    input handling are left to the host; an animation that `goto` starts is
    queued and completed by an explicit external step, as is every fetch. */
module Container {
  import opened Events
  import opened Markers
  import Attributes
  import Components

  /** An event table as every owner holds it: always well formed. */
  type Table = b: Bus | b.Valid() witness Empty

  datatype Owner = Box | Sheet(page: Page)

  /** `page.data`: nothing, a string, or an object whose `content` is shown. */
  datatype Data = Null | Content(s: string) | Record(content: string)

  predicate Truthy(d: Data) {
    match d
    case Null => false
    case Content(s) => s != ""
    case Record(_) => true
  }

  /** What `mount` writes into the page element: a template rendered with
      the page data (by Mustache or Handlebars, or the template itself), or
      text taken from the data. */
  datatype Markup = Rendered(template: string, data: Data) | Raw(html: string)

  datatype Effect =
    | Emitted(owner: Owner, kind: string, fired: seq<Fired>)
    | Html(page: Page, markup: Markup)
    | TimerSet(page: Page)
    | TimerCleared(page: Page)

  /** `origin == 'user'` or anything else. */
  datatype Origin = User | Program

  /** The argument of `goto`: an index, or a page object. */
  datatype Target = At(n: int) | To(p: Page)

  /** A request in flight: a script loaded through `require` (with the
      `window.page` value `fetch` saved), or a `$.ajax` call. */
  datatype Fetch = Script(page: Page, url: string, saved: Page?) | Ajax(page: Page, url: string)

  /** An animation `goto` started; its completion callback is still to run. */
  datatype Move = Move(next: Page, prev: Page?, duration: int)

  /** The browser-side state. */
  datatype Env = Env(page: Page?, fragment: string, log: seq<Effect>, fetches: seq<Fetch>)

  /** The part of a page that its methods change; `marks` is the number of
      `.step` elements its element holds. */
  datatype Life = Life(timer: bool, required: int, loaded: bool, steps: nat, step: int, event: Table, marks: nat)

  /** A snapshot of every page of a container and of the browser. */
  datatype World = World(lives: map<Page, Life>, env: Env)

  /** The container's own navigation state. */
  datatype Place = Place(page: Page?, current: int, flips: nat, moves: seq<Move>, event: Table)

  /** Everything `goto` reads or changes: the listed pages, the container's
      own `on<t>` methods and navigation state, and the pages' lifecycle
      with the browser. */
  datatype Scene = Scene(pages: seq<Page>, hooks: set<string>, place: Place, world: World)

  /** The four ends of `goto` after its target is resolved. */
  datatype Outcome = Rejected | Stepped | Vetoed | Committed

  /** The walk `goto` asks of a page with steps: forward for a later page. */
  function Toward(current: int, n: int): int {
    if n > current then 1 else -1
  }

  /** `mount` returns false, returns true, or throws reading `null.content`. */
  datatype Mounting = NotReady | Mounted | NoContent

  /** What the completion of a fetch did. */
  datatype Arrival = Waiting | Done(m: Mounting) | NoGlobalPage

  /** The argument of `get`: a page object, a number or a string. */
  datatype Key = ByRef(p: Page) | ById(n: int) | ByName(s: string)

  /** `url.match(/\.js\b/)`: ".js" followed by the end or by a non-word character. */
  predicate IsScript(url: string) {
    exists i :: 0 <= i <= |url| - 3 && ScriptAt(url, i)
  }

  predicate ScriptAt(url: string, i: int)
    requires 0 <= i <= |url| - 3
  {
    url[i..i + 3] == ".js" && (i + 3 == |url| || !WordChar(url[i + 3]))
  }

  predicate WordChar(c: char) {
    'a' <= c <= 'z' || 'A' <= c <= 'Z' || '0' <= c <= '9' || c == '_'
  }

  /** How many requests in flight belong to `p`. */
  function Outstanding(fs: seq<Fetch>, p: Page): nat {
    if fs == [] then 0
    else Outstanding(fs[..|fs| - 1], p) + (if fs[|fs| - 1].page == p then 1 else 0)
  }

  lemma {:induction false} OutstandingConcat(a: seq<Fetch>, b: seq<Fetch>, p: Page)
    ensures Outstanding(a + b, p) == Outstanding(a, p) + Outstanding(b, p)
    decreases |b|
  {
    if b == [] {
      assert a + b == a;
    } else {
      assert (a + b)[..|a + b| - 1] == a + b[..|b| - 1];
      OutstandingConcat(a, b[..|b| - 1], p);
    }
  }

  lemma OutstandingRemove(fs: seq<Fetch>, k: nat, p: Page)
    requires k < |fs|
    ensures Outstanding(fs, p) == Outstanding(fs[..k] + fs[k + 1..], p) + (if fs[k].page == p then 1 else 0)
  {
    assert fs == fs[..k] + [fs[k]] + fs[k + 1..];
    OutstandingConcat(fs[..k] + [fs[k]], fs[k + 1..], p);
    OutstandingConcat(fs[..k], [fs[k]], p);
    OutstandingConcat(fs[..k], fs[k + 1..], p);
    assert Outstanding([fs[k]], p) == (if fs[k].page == p then 1 else 0) by {
      assert [fs[k]][..0] == [];
    }
  }

  /** `==` between a string and a number converts the string: white space
      around it is ignored, the empty string is 0, and an optionally signed
      decimal integer or an unsigned "0x" hexadecimal has its value. */
  function Numeric(s: string): Option<int> {
    var t := Trim(s);
    if t == [] then Some(0)
    else if t[0] == '-' || t[0] == '+' then
      (if |t| > 1 && AllDigits(t[1..], 10) then Some(if t[0] == '-' then -Attributes.Magnitude(t[1..], 10) else Attributes.Magnitude(t[1..], 10)) else None)
    else if |t| > 2 && t[0] == '0' && (t[1] == 'x' || t[1] == 'X') then
      (if AllDigits(t[2..], 16) then Some(Attributes.Magnitude(t[2..], 16)) else None)
    else if AllDigits(t, 10) then Some(Attributes.Magnitude(t, 10))
    else None
  }

  predicate AllDigits(s: string, radix: int) {
    forall i :: 0 <= i < |s| ==> Attributes.DigitValue(s[i], radix) >= 0
  }

  function Trim(s: string): string {
    var t := Attributes.TrimStart(s);
    TrimEnd(t)
  }

  function TrimEnd(s: string): string {
    if s != [] && Attributes.Blank(s[|s| - 1]) then TrimEnd(s[..|s| - 1]) else s
  }

  /** The page and id comparisons of `get` (flip.js:225) under `==`. A
      page compared with a string or a page compared with a name reads as
      its default text, "[object Object]"; compared with a number that
      text is NaN and equals nothing. */
  predicate Hit(q: Page, key: Key)
    reads q`id
  {
    match key
    case ByRef(p) => q == p || q.name == ObjectText
    case ById(n) => q.id == n || Numeric(q.name) == Some(n)
    case ByName(s) => s == ObjectText || Numeric(s) == Some(q.id) || q.name == s
  }

  const ObjectText: string := "[object Object]"

  /** `get` finds a page by its object, its id and its name, and the
      string "[object Object]" finds any page. */
  lemma HitKeys(q: Page)
    ensures Hit(q, ByRef(q)) && Hit(q, ById(q.id)) && Hit(q, ByName(q.name))
    ensures Hit(q, ByName(ObjectText))
  {
  }

  // ----- the page lists of a container -----

  ghost predicate Owned(s: seq<Page>, f: Flip, n: int)
    reads s`flip, s`id
  {
    forall i :: 0 <= i < |s| ==> s[i].flip == f && 1 <= s[i].id < n
  }

  /** The last index holding `p`, as `position()` scans from the end. */
  function IndexOf(s: seq<Page>, p: Page): (i: int)
    requires p in s
    ensures 0 <= i < |s| && s[i] == p
    ensures forall j :: i < j < |s| ==> s[j] != p
  {
    if s[|s| - 1] == p then |s| - 1 else IndexOf(s[..|s| - 1], p)
  }

  /** `position()` as written, run for at most `fuel` turns of its loop
      from index `i`: `pages[--i]` below 0 is `undefined`, which is no
      page, so the scan goes on past the front of the list. */
  function ScanAsWritten(s: seq<Page>, p: Page, i: int, fuel: nat): Option<int>
    decreases fuel
  {
    if fuel == 0 then None
    else if 0 <= i - 1 < |s| && s[i - 1] == p then Some(i - 1)
    else ScanAsWritten(s, p, i - 1, fuel - 1)
  }

  /** For a page that is not listed the scan never returns, however many
      turns it is given, although the doc comment promises -1. */
  lemma {:induction false} ScanNeverEnds(s: seq<Page>, p: Page, i: int, fuel: nat)
    requires p !in s
    ensures ScanAsWritten(s, p, i, fuel) == None
    decreases fuel
  {
    if fuel > 0 {
      ScanNeverEnds(s, p, i - 1, fuel - 1);
    }
  }

  /** For a listed page the scan returns its last index within |s| turns. */
  lemma {:induction false} ScanFinds(s: seq<Page>, p: Page, i: int, fuel: nat)
    requires 0 <= i <= |s| && p in s[..i] && i <= fuel
    ensures ScanAsWritten(s, p, i, fuel) == Some(IndexOf(s[..i], p))
    decreases i
  {
    var t := s[..i];
    if s[i - 1] != p {
      assert t[..i - 1] == s[..i - 1];
      assert p in s[..i - 1] by {
        var k :| 0 <= k < i && t[k] == p;
        assert s[..i - 1][k] == p;
      }
      ScanFinds(s, p, i - 1, fuel - 1);
    }
  }

  /** `position()` as its doc comment describes it: the last index holding
      `p`, or -1 when no index does. */
  function Locate(s: seq<Page>, p: Page): (i: int)
    ensures -1 <= i < |s|
    ensures i == -1 <==> p !in s
    ensures i >= 0 ==> s[i] == p && forall j :: i < j < |s| ==> s[j] != p
  {
    if s == [] then -1
    else if s[|s| - 1] == p then |s| - 1
    else
      assert s == s[..|s| - 1] + [s[|s| - 1]];
      Locate(s[..|s| - 1], p)
  }

  /** On a listed page the scan as written and the intended one agree. */
  lemma LocateListed(s: seq<Page>, p: Page)
    requires p in s
    ensures Locate(s, p) == IndexOf(s, p)
    ensures ScanAsWritten(s, p, |s|, |s|) == Some(Locate(s, p))
  {
    assert s[..|s|] == s;
    ScanFinds(s, p, |s|, |s|);
  }

  /** The lifecycle state of every page of `ps`. */
  ghost function LivesOf(ps: seq<Page>): (m: map<Page, Life>)
    reads ps`timer, ps`required, ps`loaded, ps`steps, ps`current, ps`event, ps`domSteps
    ensures forall q :: q in m ==> q in ps
    ensures forall q :: q in ps ==> q in m && m[q] == q.Now()
  {
    map q | q in ps :: q.Now()
  }

  // ----- the pages of a container and the browser, as one value -----

  /** What `goto` does to the pages and the browser, one act at a time:
      `init()`, `exit()` or `trigger(kind)` on one page; leaving a page,
      `exit()` then `beforeleave` (flip.js:310-311); the neighbours of page
      `n` of `ps` that it asks to have initialised; and entering page `n`,
      `init()` on it and its neighbours, then `beforeenter`
      (flip.js:324-337). */
  datatype Act =
    | InitOf(q: Page)
    | ExitOf(q: Page)
    | EmitOf(q: Page, kind: string)
    | LeaveOf(q: Page)
    | AroundOf(ps: seq<Page>, n: int)
    | EnterOf(ps: seq<Page>, n: int)
  {
    function Depth(): nat {
      match this
      case EnterOf(_, _) => 2
      case AroundOf(_, _) => 1
      case LeaveOf(_) => 1
      case _ => 0
    }
  }

  /** The world after act `a`. An act on a page without a lifecycle
      entry, or on a position outside `ps`, leaves the world as it is. */
  ghost function Apply(w: World, a: Act): (r: World)
    ensures r.lives.Keys == w.lives.Keys
    decreases a.Depth()
  {
    match a
    case InitOf(q) =>
      if q !in w.lives then w else
      var (s, e) := q.Initing(w.lives[q], w.env);
      World(w.lives[q := s], e)
    case ExitOf(q) =>
      if q !in w.lives then w else
      var (s, e) := q.Exiting(w.lives[q], w.env);
      World(w.lives[q := s], e)
    case EmitOf(q, kind) =>
      if q !in w.lives then w else
      var (s, e) := q.Emitting(w.lives[q], w.env, kind);
      World(w.lives[q := s], e)
    case LeaveOf(q) =>
      Apply(Apply(w, ExitOf(q)), EmitOf(q, "beforeleave"))
    case AroundOf(ps, n) =>
      if !(0 <= n < |ps|) then w else
      var w1 := if ps[n].loadPrev && n > 0 then Apply(w, InitOf(ps[n - 1])) else w;
      if ps[n].loadNext && n + 1 < |ps| then Apply(w1, InitOf(ps[n + 1])) else w1
    case EnterOf(ps, n) =>
      if !(0 <= n < |ps|) then w else
      Apply(Apply(Apply(w, InitOf(ps[n])), AroundOf(ps, n)), EmitOf(ps[n], "beforeenter"))
  }

  /** No act on the pages writes the address bar. */
  lemma {:induction false} ApplyFragment(w: World, a: Act)
    ensures Apply(w, a).env.fragment == w.env.fragment
    decreases a.Depth()
  {
    match a
    case LeaveOf(q) =>
      ApplyFragment(w, ExitOf(q));
      ApplyFragment(Apply(w, ExitOf(q)), EmitOf(q, "beforeleave"));
    case AroundOf(ps, n) =>
      if 0 <= n < |ps| {
        var w1 := if ps[n].loadPrev && n > 0 then Apply(w, InitOf(ps[n - 1])) else w;
        if ps[n].loadPrev && n > 0 {
          ApplyFragment(w, InitOf(ps[n - 1]));
        }
        if ps[n].loadNext && n + 1 < |ps| {
          ApplyFragment(w1, InitOf(ps[n + 1]));
        }
      }
    case EnterOf(ps, n) =>
      if 0 <= n < |ps| {
        var w1 := Apply(w, InitOf(ps[n]));
        var w2 := Apply(w1, AroundOf(ps, n));
        ApplyFragment(w, InitOf(ps[n]));
        ApplyFragment(w1, AroundOf(ps, n));
        ApplyFragment(w2, EmitOf(ps[n], "beforeenter"));
      }
    case _ => StepFragment(w, a);
  }

  /** The same for `init`, `exit` and one `trigger`. */
  lemma StepFragment(w: World, a: Act)
    requires a.InitOf? || a.ExitOf? || a.EmitOf?
    ensures Apply(w, a).env.fragment == w.env.fragment
  {}

  lemma Entering(w: World, ps: seq<Page>, n: int)
    requires 0 <= n < |ps|
    ensures Apply(w, EnterOf(ps, n)) == Apply(Apply(Apply(w, InitOf(ps[n])), AroundOf(ps, n)), EmitOf(ps[n], "beforeenter"))
  {}

  lemma Leaving(w: World, q: Page)
    ensures Apply(w, LeaveOf(q)) == Apply(Apply(w, ExitOf(q)), EmitOf(q, "beforeleave"))
  {}

  /** What leaving `q` in state `l` adds to the log: the refresh timer
      cleared when `exit` clears it, then `beforeleave` with the handlers
      it ran. */
  function Departure(q: Page, l: Life): seq<Effect> {
    (if q.refresh > 0 && !q.refreshHidden then [TimerCleared(q)] else [])
    + [Emitted(Sheet(q), "beforeleave", Dispatched(l.event, "beforeleave", q.hooks))]
  }

  /** Leaving a page runs its `exit` and then fires `beforeleave` on it;
      no other page and no request changes. */
  lemma LeaveEffects(w: World, q: Page)
    requires q in w.lives
    ensures var r, l := Apply(w, LeaveOf(q)), w.lives[q];
            r.env == w.env.(log := w.env.log + Departure(q, l))
            && r.lives[q] == l.(timer := l.timer && !(q.refresh > 0 && !q.refreshHidden),
                                event := Drained(l.event, "beforeleave"))
            && forall q' :: q' in w.lives && q' != q ==> r.lives[q'] == w.lives[q']
  {
    Leaving(w, q);
    var l := w.lives[q];
    var cleared := q.refresh > 0 && !q.refreshHidden;
    var w1 := World(w.lives[q := l.(timer := l.timer && !cleared)], w.env.(log := w.env.log + if cleared then [TimerCleared(q)] else []));
    ExitEffects(w, q);
    EmitEffects(w1, q, "beforeleave");
    assert w1.lives[q].event == l.event;
  }

  lemma ExitEffects(w: World, q: Page)
    requires q in w.lives
    ensures var l, cleared := w.lives[q], q.refresh > 0 && !q.refreshHidden;
            Apply(w, ExitOf(q)) == World(w.lives[q := l.(timer := l.timer && !cleared)],
                                         w.env.(log := w.env.log + if cleared then [TimerCleared(q)] else []))
  {
  }

  lemma EmitEffects(w: World, q: Page, kind: string)
    requires q in w.lives
    ensures var l := w.lives[q];
            Apply(w, EmitOf(q, kind)) == World(w.lives[q := l.(event := Drained(l.event, kind))],
                                               w.env.(log := w.env.log + [Emitted(Sheet(q), kind, Dispatched(l.event, kind, q.hooks))]))
  {
  }

  /** Every act only appends to the log and to the requests in flight. */
  lemma ApplyGrows(w: World, a: Act)
    ensures w.env.log <= Apply(w, a).env.log && w.env.fetches <= Apply(w, a).env.fetches
  {
    match a
    case LeaveOf(q) => LeaveGrows(w, q);
    case AroundOf(ps, n) => AroundGrows(w, ps, n);
    case EnterOf(ps, n) => EnterGrows(w, ps, n);
    case _ => StepGrows(w, a);
  }

  /** The same for `exit` then `beforeleave`. */
  lemma LeaveGrows(w: World, q: Page)
    ensures w.env.log <= Apply(w, LeaveOf(q)).env.log && w.env.fetches <= Apply(w, LeaveOf(q)).env.fetches
  {
    var w1 := Apply(w, ExitOf(q));
    var w2 := Apply(w1, EmitOf(q, "beforeleave"));
    Leaving(w, q);
    StepGrows(w, ExitOf(q));
    StepGrows(w1, EmitOf(q, "beforeleave"));
    Extends(w.env.log, w1.env.log, w2.env.log);
    Extends(w.env.fetches, w1.env.fetches, w2.env.fetches);
  }

  /** The same for the neighbours' `init`. */
  lemma AroundGrows(w: World, ps: seq<Page>, n: int)
    ensures w.env.log <= Apply(w, AroundOf(ps, n)).env.log && w.env.fetches <= Apply(w, AroundOf(ps, n)).env.fetches
  {
    if 0 <= n < |ps| {
      var w1 := if ps[n].loadPrev && n > 0 then Apply(w, InitOf(ps[n - 1])) else w;
      var w2 := if ps[n].loadNext && n + 1 < |ps| then Apply(w1, InitOf(ps[n + 1])) else w1;
      Surrounding(w, ps, n);
      if ps[n].loadPrev && n > 0 {
        StepGrows(w, InitOf(ps[n - 1]));
      }
      if ps[n].loadNext && n + 1 < |ps| {
        StepGrows(w1, InitOf(ps[n + 1]));
      }
      Extends(w.env.log, w1.env.log, w2.env.log);
      Extends(w.env.fetches, w1.env.fetches, w2.env.fetches);
    }
  }

  /** The same for entering page `n`. */
  lemma EnterGrows(w: World, ps: seq<Page>, n: int)
    ensures w.env.log <= Apply(w, EnterOf(ps, n)).env.log && w.env.fetches <= Apply(w, EnterOf(ps, n)).env.fetches
  {
    if 0 <= n < |ps| {
      var w1 := Apply(w, InitOf(ps[n]));
      var w2 := Apply(w1, AroundOf(ps, n));
      var w3 := Apply(w2, EmitOf(ps[n], "beforeenter"));
      Entering(w, ps, n);
      StepGrows(w, InitOf(ps[n]));
      AroundGrows(w1, ps, n);
      StepGrows(w2, EmitOf(ps[n], "beforeenter"));
      Extends(w.env.log, w1.env.log, w2.env.log);
      Extends(w.env.log, w2.env.log, w3.env.log);
      Extends(w.env.fetches, w1.env.fetches, w2.env.fetches);
      Extends(w.env.fetches, w2.env.fetches, w3.env.fetches);
    }
  }

  /** The same for `init`, `exit` and one `trigger`. */
  lemma StepGrows(w: World, a: Act)
    requires a.InitOf? || a.ExitOf? || a.EmitOf?
    ensures w.env.log <= Apply(w, a).env.log && w.env.fetches <= Apply(w, a).env.fetches
  {
    if a.InitOf? && a.q in w.lives {
      var (s1, e1) := a.q.Arming(w.lives[a.q], w.env);
      Extends(w.env.log, e1.log, Apply(w, a).env.log);
      Extends(w.env.fetches, e1.fetches, Apply(w, a).env.fetches);
    }
  }

  lemma Extends<T>(a: seq<T>, b: seq<T>, c: seq<T>)
    requires a <= b && b <= c
    ensures a <= c
  {
    assert c[..|a|] == b[..|a|];
  }

  lemma Surrounding(w: World, ps: seq<Page>, n: int)
    requires 0 <= n < |ps|
    ensures Apply(w, AroundOf(ps, n)) ==
      var w1 := if ps[n].loadPrev && n > 0 then Apply(w, InitOf(ps[n - 1])) else w;
      if ps[n].loadNext && n + 1 < |ps| then Apply(w1, InitOf(ps[n + 1])) else w1
  {}

  /** A page moved to step `k`. */
  ghost function StepW(w: World, q: Page, k: int): World
    requires q in w.lives
  {
    w.(lives := w.lives[q := w.lives[q].(step := k)])
  }

  /** `mark(m)` on a container whose events are `ev` and whose own `on<t>`
      methods are `hooks`. */
  ghost function MarkW(w: World, m: string, ev: Table, hooks: set<string>): World {
    w.(env := w.env.(fragment := Assign(m), log := w.env.log + [Emitted(Box, "mark", Dispatched(ev, "mark", hooks))]))
  }

  /** Leaving the current page of `s`. */
  ghost function LeaveS(s: Scene): Scene
    requires s.place.page != null
  {
    s.(world := Apply(s.world, LeaveOf(s.place.page)))
  }

  /** The step that `goto` toward page `n` takes inside the current page of `s`. */
  ghost function StepS(s: Scene, n: int): Scene
    requires s.place.page != null && s.place.page in s.world.lives
  {
    var p := s.place.page;
    s.(world := StepW(s.world, p, s.world.lives[p].step + Toward(s.place.current, n)))
  }

  /** The pointers of `goto` moved to page `n`: `page`, `current`, and
      the `flip` counter up by one. */
  ghost function PointS(s: Scene, n: int): Scene
    requires 0 <= n < |s.pages|
  {
    s.(place := s.place.(page := s.pages[n], current := n, flips := s.place.flips + 1))
  }

  /** Page `n` entered: it and the neighbours it asks for initialised,
      then `beforeenter`. */
  ghost function EnterS(s: Scene, n: int): Scene
    requires 0 <= n < |s.pages|
  {
    s.(world := Apply(s.world, EnterOf(s.pages, n)))
  }

  /** `mark(m)` on arriving at the current page, and the animation from
      `prev` lasting `duration` queued. */
  ghost function MarkS(s: Scene, prev: Page?, duration: int, m: string): Scene
    requires s.place.page != null
  {
    s.(place := s.place.(moves := s.place.moves + [Move(s.place.page, prev, duration)], event := Drained(s.place.event, "mark")),
       world := MarkW(s.world, m, s.place.event, s.hooks))
  }

  /** The move to page `n` committed from `s`, once the page it leaves (if
      any) is left: page `n` entered, the marker `mark` written, the `flip`
      counter up by one and an animation of `slide_duration` (0 when
      `direct`) queued. */
  ghost function ArriveS(s: Scene, n: int, direct: bool, mark: string): Scene
    requires 0 <= n < |s.pages|
  {
    MarkS(EnterS(PointS(s, n), n), s.place.page, if direct then 0 else s.pages[n].slideDuration, mark)
  }

  /** A scene a container can be in: `page` is `pages[current]` or null at
      -1, and every listed page has a lifecycle entry. */
  ghost predicate Sound(s: Scene) {
    && -1 <= s.place.current < |s.pages|
    && (s.place.current >= 0 <==> s.place.page != null)
    && (s.place.current >= 0 ==> s.place.page == s.pages[s.place.current])
    && (forall q :: q in s.pages ==> q in s.world.lives)
  }

  /** The scene `goto(n, direct, origin)` leaves behind, by its verdict `v`:
      nothing changes when rejected; one step inside the current page; the
      current page left and nothing else when the container is locked;
      otherwise the current page left and the move to page `n` committed.
      The guards only hold off scenes a container is never in. */
  ghost function Navigate(v: Outcome, s: Scene, n: int, direct: bool, mark: string): Scene {
    match v
    case Rejected => s
    case Stepped => if s.place.page != null && s.place.page in s.world.lives then StepS(s, n) else s
    case Vetoed => if s.place.page != null then LeaveS(s) else s
    case Committed => if 0 <= n < |s.pages| then ArriveS(if s.place.page != null then LeaveS(s) else s, n, direct, mark) else s
  }

  /** What each verdict of `goto` leaves behind. Every one keeps the pages
      and the `on<t>` methods; a rejected target changes nothing; a step
      changes only the step of the current page; a locked container stays
      where it is; a committed move points at page `n`, counts one more
      flip, queues its animation last and writes the marker of the page. */
  lemma NavigateOutcomes(v: Outcome, s: Scene, n: int, direct: bool, mark: string)
    requires Sound(s)
    requires v != Rejected ==> 0 <= n < |s.pages|
    requires v == Stepped || v == Vetoed ==> s.place.page != null
    ensures var t := Navigate(v, s, n, direct, mark);
            t.pages == s.pages && t.hooks == s.hooks && t.world.lives.Keys == s.world.lives.Keys && Sound(t)
    ensures v == Rejected ==> Navigate(v, s, n, direct, mark) == s
    ensures v == Stepped ==>
              var t, p := Navigate(v, s, n, direct, mark), s.place.page;
              t.place == s.place && t.world.env == s.world.env
              && (forall q :: q in s.world.lives && q != p ==> t.world.lives[q] == s.world.lives[q])
              && t.world.lives[p].step == s.world.lives[p].step + Toward(s.place.current, n)
    ensures v == Vetoed ==>
              var t := Navigate(v, s, n, direct, mark);
              t.place == s.place && t.world.env.fragment == s.world.env.fragment
    ensures v == Committed ==>
              var t := Navigate(v, s, n, direct, mark);
              t.place.page == s.pages[n] && t.place.current == n && t.place.flips == s.place.flips + 1
              && t.place.moves == s.place.moves + [Move(s.pages[n], s.place.page, if direct then 0 else s.pages[n].slideDuration)]
              && t.world.env.fragment == Assign(mark)
              && t.world.env.log[|t.world.env.log| - 1] == Emitted(Box, "mark", Dispatched(s.place.event, "mark", s.hooks))
  {
    if v == Vetoed {
      ApplyFragment(s.world, LeaveOf(s.place.page));
    }
    if v == Committed {
      var s1 := if s.place.page != null then LeaveS(s) else s;
      assert s1.place == s.place && s1.pages == s.pages && s1.world.lives.Keys == s.world.lives.Keys;
    }
  }

  /** The log ends with `beforeenter` fired on `q` and then one more entry. */
  predicate EnterThenMark(log: seq<Effect>, q: Page) {
    |log| >= 2 && var e := log[|log| - 2]; e.Emitted? && e.owner == Sheet(q) && e.kind == "beforeenter"
  }

  /** A locked container leaves its current page `p` and nothing else:
      `exit` runs on it, then `beforeleave` fires on it; no request is
      issued and no other page changes. */
  lemma VetoOutcome(s: Scene, n: int, direct: bool, mark: string)
    requires s.place.page != null && s.place.page in s.world.lives
    ensures var t, p := Navigate(Vetoed, s, n, direct, mark), s.place.page;
            t.world.env.log == s.world.env.log + Departure(p, s.world.lives[p])
            && t.world.env.fetches == s.world.env.fetches && t.world.env.page == s.world.env.page
            && t.world.lives[p].event == Drained(s.world.lives[p].event, "beforeleave")
            && (forall q :: q in s.world.lives && q != p ==> t.world.lives[q] == s.world.lives[q])
  {
    LeaveEffects(s.world, s.place.page);
  }

  /** A committed move happens in this order: the current page `p` is
      left (its `exit`, then `beforeleave`); page `n` is initialised; its
      neighbours are; `beforeenter` fires on page `n`; `mark` fires last. */
  lemma CommitOutcome(s: Scene, n: int, direct: bool, mark: string)
    requires 0 <= n < |s.pages| && forall q :: q in s.pages ==> q in s.world.lives
    requires s.place.page != null ==> s.place.page in s.world.lives
    ensures var t, p := Navigate(Committed, s, n, direct, mark), s.place.page;
            p != null ==> s.world.env.log + Departure(p, s.world.lives[p]) <= t.world.env.log
    ensures var t, p := Navigate(Committed, s, n, direct, mark), s.place.page;
            var inited := Apply(if p != null then Apply(s.world, LeaveOf(p)) else s.world, InitOf(s.pages[n]));
            inited.env.log <= t.world.env.log && inited.env.fetches <= t.world.env.fetches
            && |inited.env.log| + 2 <= |t.world.env.log| && EnterThenMark(t.world.env.log, s.pages[n])
  {
    var p := s.place.page;
    var s1 := if p != null then LeaveS(s) else s;
    assert s1.pages == s.pages && s1.world.lives.Keys == s.world.lives.Keys;
    ArriveOrder(s1, n, direct, mark);
    if p != null {
      LeaveEffects(s.world, p);
      var t := Navigate(Committed, s, n, direct, mark);
      var inited := Apply(s1.world, InitOf(s.pages[n]));
      ApplyGrows(s1.world, InitOf(s.pages[n]));
      Extends(s1.world.env.log, inited.env.log, t.world.env.log);
    }
  }

  /** After the page it leaves, a committed move initialises page `n`,
      then its neighbours, then fires `beforeenter`, then `mark`. */
  lemma ArriveOrder(s: Scene, n: int, direct: bool, mark: string)
    requires 0 <= n < |s.pages| && s.pages[n] in s.world.lives
    ensures var t, inited := ArriveS(s, n, direct, mark), Apply(s.world, InitOf(s.pages[n]));
            inited.env.log <= t.world.env.log && inited.env.fetches <= t.world.env.fetches
            && |t.world.env.log| >= |inited.env.log| + 2 && EnterThenMark(t.world.env.log, s.pages[n])
  {
    var q := s.pages[n];
    var w1 := Apply(s.world, InitOf(q));
    var w2 := Apply(w1, AroundOf(s.pages, n));
    var w3 := Apply(w2, EmitOf(q, "beforeenter"));
    Entering(s.world, s.pages, n);
    ApplyGrows(w1, AroundOf(s.pages, n));
    assert w3.env.log == w2.env.log + [Emitted(Sheet(q), "beforeenter", Dispatched(w2.lives[q].event, "beforeenter", q.hooks))];
    var t := ArriveS(s, n, direct, mark);
    assert t.world.env.log == w3.env.log + [Emitted(Box, "mark", Dispatched(s.place.event, "mark", s.hooks))];
    assert t.world.env.fetches == w3.env.fetches;
  }

  /** The callback of the animation `moves[0]` (flip.js:342-349):
      `window.page` is the page arrived at; the container fires `flip`,
      the page left fires `leave` and the page arrived at `enter`. */
  ghost function SettleS(s: Scene): Scene
    requires s.place.moves != []
  {
    var m := s.place.moves[0];
    var w := s.world.(env := s.world.env.(page := m.next, log := s.world.env.log + [Emitted(Box, "flip", Dispatched(s.place.event, "flip", s.hooks))]));
    var w1 := if m.prev != null then Apply(w, EmitOf(m.prev, "leave")) else w;
    s.(place := s.place.(moves := s.place.moves[1..], event := Drained(s.place.event, "flip")),
       world := Apply(w1, EmitOf(m.next, "enter")))
  }

  /** The callback moves the queue on and touches the two pages and the
      container only through their events and `window.page`. */
  lemma Settling(s: Scene)
    requires s.place.moves != []
    ensures SettleS(s).pages == s.pages && SettleS(s).hooks == s.hooks
    ensures SettleS(s).place == s.place.(moves := s.place.moves[1..], event := Drained(s.place.event, "flip"))
    ensures SettleS(s).world.env.page == s.place.moves[0].next && SettleS(s).world.env.fragment == s.world.env.fragment
    ensures SettleS(s).world.lives.Keys == s.world.lives.Keys
    ensures var m, log, log' := s.place.moves[0], s.world.env.log, SettleS(s).world.env.log;
            m.next in s.world.lives && (m.prev == null || m.prev in s.world.lives) ==>
              && |log'| == |log| + (if m.prev != null then 3 else 2) && log'[..|log|] == log
              && log'[|log|] == Emitted(Box, "flip", Dispatched(s.place.event, "flip", s.hooks))
              && (m.prev != null ==> log'[|log| + 1].Emitted? && log'[|log| + 1].owner == Sheet(m.prev) && log'[|log| + 1].kind == "leave")
              && log'[|log'| - 1].Emitted? && log'[|log'| - 1].owner == Sheet(m.next) && log'[|log'| - 1].kind == "enter"
  {
    var m := s.place.moves[0];
    var w := s.world.(env := s.world.env.(page := m.next, log := s.world.env.log + [Emitted(Box, "flip", Dispatched(s.place.event, "flip", s.hooks))]));
    var w1 := if m.prev != null then Apply(w, EmitOf(m.prev, "leave")) else w;
    if m.prev != null {
      ApplyFragment(w, EmitOf(m.prev, "leave"));
    }
    ApplyFragment(w1, EmitOf(m.next, "enter"));
  }

  /** No page occurs twice. */
  predicate Unique(s: seq<Page>) {
    forall i, j :: 0 <= i < j < |s| ==> s[i] != s[j]
  }

  /** No two pages of `s` share an id. */
  ghost predicate DistinctIds(s: seq<Page>)
    reads s`id
  {
    forall i, j :: 0 <= i < j < |s| ==> s[i].id != s[j].id
  }

  /** A page whose id is above every listed one keeps the ids distinct,
      whichever list it joins. */
  lemma DistinctPush(s: seq<Page>, t: seq<Page>, p: Page, f: Flip)
    requires DistinctIds(s + t) && Owned(s, f, p.id) && Owned(t, f, p.id)
    ensures DistinctIds(s + [p] + t) && DistinctIds(s + (t + [p]))
  {
    var a, b := s + [p] + t, s + (t + [p]);
    forall i, j | 0 <= i < j < |a| ensures a[i].id != a[j].id {
      if i == |s| {
        assert a[j] == t[j - |s| - 1];
      } else if j == |s| {
        assert a[i] == s[i];
      } else {
        var i', j' := if i < |s| then i else i - 1, if j < |s| then j else j - 1;
        assert a[i] == (s + t)[i'] && a[j] == (s + t)[j'];
      }
    }
    forall i, j | 0 <= i < j < |b| ensures b[i].id != b[j].id {
      if j == |s + t| {
        assert b[i] == (s + t)[i];
        assert i < |s| ==> b[i] == s[i];
        assert i >= |s| ==> b[i] == t[i - |s|];
      } else {
        assert b[i] == (s + t)[i] && b[j] == (s + t)[j];
      }
    }
  }

  lemma OwnedPush(s: seq<Page>, p: Page, f: Flip, n: int)
    requires Owned(s, f, n - 1) && p.flip == f && 1 <= p.id == n - 1
    ensures Owned(s + [p], f, n) && Owned(s, f, n)
  {
  }

  lemma UniqueAt(s: seq<Page>, t: seq<Page>, i: int, j: int)
    requires Unique(s + t) && 0 <= i < |s| && 0 <= j < |s|
    ensures s[i] == s[j] ==> i == j
  {
    assert (s + t)[i] == s[i] && (s + t)[j] == s[j];
  }

  /** A page not yet listed can go at the end of either list. */
  lemma UniquePush(s: seq<Page>, t: seq<Page>, p: Page)
    requires Unique(s + t) && p !in s && p !in t
    ensures Unique((s + [p]) + t) && Unique(s + (t + [p]))
  {
    var a, b := (s + [p]) + t, s + (t + [p]);
    forall i, j | 0 <= i < j < |a| ensures a[i] != a[j] {
      if i < |s| && j == |s| {
        assert a[i] in s;
      } else if i == |s| {
        assert a[j] == t[j - |s| - 1];
      } else if j < |s| {
        assert a[i] == (s + t)[i] && a[j] == (s + t)[j];
      } else if i < |s| {
        assert a[i] == s[i] == (s + t)[i];
        assert a[j] == t[j - |s| - 1] == (s + t)[j - 1];
      } else {
        assert a[i] == t[i - |s| - 1] == (s + t)[i - 1];
        assert a[j] == t[j - |s| - 1] == (s + t)[j - 1];
      }
    }
    assert b == (s + t) + [p];
  }

  lemma NamelessIsZero()
    ensures Numeric("") == Some(0) && Numeric(" 7 ") == Some(7) && Numeric("7a") == None
  {
    assert Trim(" 7 ") == "7" by {
      assert Attributes.TrimStart(" 7 ") == "7 ";
      assert "7 "[..1] == "7";
    }
    assert "7"[..0] == "";
    assert Trim("7a") == "7a" by {
      assert Attributes.TrimStart("7a") == "7a";
    }
    assert Attributes.DigitValue("7a"[1], 10) < 0;
  }

  class Window {
    /** `window.page` */
    var page: Page?
    /** `location.hash` without its '#' */
    var fragment: string
    var log: seq<Effect>
    var fetches: seq<Fetch>

    constructor ()
      ensures page == null && fragment == "" && log == [] && fetches == []
    {
      page, fragment, log, fetches := null, "", [], [];
    }

    function Now(): Env
      reads this
    {
      Env(page, fragment, log, fetches)
    }

    /** Every request `p` is waiting for is counted in `p.required`. */
    predicate Balanced(p: Page)
      reads this, p`required
    {
      p.required == Outstanding(fetches, p)
    }

    /** The request `fetches[k]` completed with body `response`; `marks` is
        the number of `.step` elements in the content it mounts. A script
        runs the callback and then `mount()` unless the page waits, and puts
        back the saved `window.page` when the global page is not indexed
        (flip.js:917-927); an ajax response is the page's template
        (flip.js:931-938). The callback is the decrement that `init` and
        `require` pass. */
    method Arrive(k: nat, response: string, marks: nat) returns (r: Arrival)
      requires k < |fetches|
      modifies this`fetches, this`page, this`log
      modifies fetches[k].page`required, fetches[k].page`data, fetches[k].page`template
      modifies fetches[k].page`loaded, fetches[k].page`steps, fetches[k].page`domSteps, fetches[k].page`event
      ensures var p := old(fetches[k]).page;
              fetches == old(fetches[..k] + fetches[k + 1..]) && p.required == old(p.required) - 1
              && (old(Balanced(p)) ==> Balanced(p))
      ensures var p := old(fetches[k]).page;
              r == Done(Mounted) && old(Balanced(p)) ==> Outstanding(fetches, p) == 0
      ensures var p := old(fetches[k]).page;
              r == Done(NotReady) ==> p.required > 0
      ensures var p := old(fetches[k]).page;
              p.required > 0 ==> r != Done(Mounted)
      ensures var p := old(fetches[k]).page;
              r.Done? ==> (r.m == NotReady <==> p.required > 0)
                          && (r.m == NoContent <==> p.required <= 0 && p.template == "" && p.data == Null)
      ensures var p := old(fetches[k]).page;
              r == Waiting || r == Done(NotReady) || r == Done(NoContent) || p.required > 0 ==>
                p.loaded == old(p.loaded) && p.steps == old(p.steps) && p.domSteps == old(p.domSteps)
                && p.event == old(p.event) && log == old(log)
      ensures var p := old(fetches[k]).page;
              r == Done(Mounted) ==> p.loaded == (old(p.loaded) || !p.wait) && p.steps == marks
                                     && p.event == Drained(Drained(old(p.event), "load"), "init")
      ensures var f := old(fetches[k]); var p := f.page;
              f.Ajax? ==> r.Done? && page == old(page) && p.data == old(p.data)
                          && p.template == (if response != "" then response else old(p.template))
      ensures var f := old(fetches[k]); var p := f.page;
              f.Script? && p.wait ==> r == (if old(page) == null then NoGlobalPage else Waiting)
                                      && p.data == old(p.data) && p.template == old(p.template) && p.loaded == old(p.loaded)
      ensures var f := old(fetches[k]);
              f.Script? && r != NoGlobalPage && r != Done(NoContent) ==>
                old(page) != null && page == (if old(page).index then old(page) else f.saved)
    {
      OutstandingRemove(fetches, k, fetches[k].page);
      var f := fetches[k];
      var p := f.page;
      fetches := fetches[..k] + fetches[k + 1..];
      p.required := p.required - 1;
      match f
      case Script(_, _, saved) =>
        if !p.wait {
          var m := p.Mount(this, Null, "", marks);
          if m == NoContent {
            return Done(m);
          }
          r := Done(m);
        } else {
          r := Waiting;
        }
        if page == null {
          return NoGlobalPage;
        }
        if !page.index {
          page := saved;
        }
      case Ajax(_, _) =>
        var m := p.Mount(this, Null, response, marks);
        r := Done(m);
    }
  }

  /** JavaScript truthiness of a stored property value. */
  predicate Truthful(v: Attributes.Value) {
    match v
    case Flag(b) => b
    case Number(n) => n != 0
    case NaN => false
    case Call(_) => true
    case Text(t) => t != ""
  }

  /** A flag property: its truthiness when the element sets it, else the
      prototype's default. */
  function FlagOf(attrs: map<string, Attributes.Value>, key: string, default: bool): bool {
    if key in attrs then Truthful(attrs[key]) else default
  }

  /** A text property; a value stored as a boolean counts as unset. */
  function TextOf(attrs: map<string, Attributes.Value>, key: string, default: string): string {
    if key in attrs && attrs[key].Text? then attrs[key].s else default
  }

  /** A duration; a value without digits (NaN) is never positive, like 0. */
  function TimeOf(attrs: map<string, Attributes.Value>, key: string, default: int): int {
    if key in attrs then (match attrs[key] case Number(n) => n case _ => 0) else default
  }

  /** The `on<t>` methods of the Page prototype (flip.js:667-707). */
  const PageHooks: set<string> := {"load", "enter", "leave", "beforeenter", "beforeleave", "resize", "refresh", "call", "drop"}

  /** The `on<t>` methods a page keeps. An `on<t>` attribute with the `fn`
      rule replaces the method by a forwarding function; `onresize`,
      `oncall` and `ondrop` have no rule, so the attribute stores its text
      over the method, which is then no function (flip.js:1240-1255). */
  function HooksOf(attrs: map<string, Attributes.Value>): (hs: set<string>)
    ensures hs <= PageHooks
    ensures forall t :: t in PageHooks ==> (t in hs <==> !(t in {"resize", "call", "drop"} && "on" + t in attrs))
  {
    PageHooks - (set t | t in {"resize", "call", "drop"} && "on" + t in attrs)
  }

  class Page {
    var id: int
    const name: string
    var flip: Flip?
    const load: bool
    const loadPrev: bool
    const loadNext: bool
    var data: Data
    const start: bool
    const index: bool
    var marker: Marker
    const mask: string
    /** What the last `match` captured. */
    var params: Option<string>
    const slideDuration: int
    const url: string
    const tpl: string
    var template: string
    const refresh: int
    /** `refresh_timer != null` */
    var timer: bool
    const refreshHidden: bool
    /** The event types `t` for which the page has an `on<t>` method. */
    const hooks: set<string>
    var loaded: bool
    const wait: bool
    var required: int
    var steps: nat
    /** The current step. */
    var current: int
    var event: Table
    /** How many `.step` elements the page element holds. */
    var domSteps: nat

    /** `new Page` for the element with id `name`, its `data-*` attributes
        coerced into `attrs` (flip.js:389-399): each property the element
        sets, else the prototype's default (flip.js:529-752), and the
        compositions (flip.js:755-757). The default `slide_duration` is
        'normal', which jQuery reads as 400 ms. */
    constructor (name: string, attrs: map<string, Attributes.Value>, domSteps: nat)
      ensures this.name == name && id == -1 && flip == null && params == None && hooks == HooksOf(attrs)
      ensures load == FlagOf(attrs, "load", false) && loadPrev == FlagOf(attrs, "load_prev", false)
      ensures loadNext == FlagOf(attrs, "load_next", false) && start == FlagOf(attrs, "start", false)
      ensures index == FlagOf(attrs, "index", true) && wait == FlagOf(attrs, "wait", false)
      ensures refreshHidden == FlagOf(attrs, "refresh_hidden", false)
      ensures data == (if "data" in attrs && attrs["data"].Text? then Content(attrs["data"].s) else Null)
      ensures marker == Literal(TextOf(attrs, "marker", "")) && mask == TextOf(attrs, "mask", "")
      ensures url == TextOf(attrs, "url", "") && tpl == TextOf(attrs, "tpl", "") && template == TextOf(attrs, "template", "")
      ensures slideDuration == TimeOf(attrs, "slide_duration", 400) && refresh == TimeOf(attrs, "refresh", 0)
      ensures !timer && !loaded && required == 0 && steps == 0 && current == 0 && this.domSteps == domSteps
      ensures event == Components.Composed()
    {
      this.name, id, flip, params, hooks := name, -1, null, None, HooksOf(attrs);
      load, loadPrev, loadNext := FlagOf(attrs, "load", false), FlagOf(attrs, "load_prev", false), FlagOf(attrs, "load_next", false);
      start, index, wait := FlagOf(attrs, "start", false), FlagOf(attrs, "index", true), FlagOf(attrs, "wait", false);
      refreshHidden := FlagOf(attrs, "refresh_hidden", false);
      data := if "data" in attrs && attrs["data"].Text? then Content(attrs["data"].s) else Null;
      marker, mask := Literal(TextOf(attrs, "marker", "")), TextOf(attrs, "mask", "");
      url, tpl, template := TextOf(attrs, "url", ""), TextOf(attrs, "tpl", ""), TextOf(attrs, "template", "");
      slideDuration, refresh := TimeOf(attrs, "slide_duration", 400), TimeOf(attrs, "refresh", 0);
      timer, loaded, required, steps, current, this.domSteps := false, false, 0, 0, 0, domSteps;
      event := Components.Composed();
    }

    function Now(): Life
      reads this`timer, this`required, this`loaded, this`steps, this`current, this`event, this`domSteps
    {
      Life(timer, required, loaded, steps, current, event, domSteps)
    }

    /** The requests `fetch` issues for `srcs` in turn; each script saves the
        `window.page` it replaces, which after the first script is this page. */
    function Requests(saved: Page?, srcs: seq<string>): (fs: seq<Fetch>)
      ensures |fs| == |srcs|
      ensures forall i :: 0 <= i < |fs| ==> fs[i].page == this && fs[i].url == srcs[i] && (fs[i].Script? <==> IsScript(srcs[i]))
      decreases srcs
    {
      if srcs == [] then []
      else
        var head := if IsScript(srcs[0]) then Script(this, srcs[0], saved) else Ajax(this, srcs[0]);
        var rest := Requests(if IsScript(srcs[0]) then this else saved, srcs[1..]);
        assert forall i :: 1 <= i <= |rest| ==> ([head] + rest)[i] == rest[i - 1];
        [head] + rest
    }

    /** `window.page` once `srcs` are requested. */
    function Holder(saved: Page?, srcs: seq<string>): Page? {
      if exists u :: u in srcs && IsScript(u) then this else saved
    }

    /** The content sources `init` fetches, template first (flip.js:1036-1037). */
    function Sources(): (srcs: seq<string>)
      ensures |srcs| == (if url != "" then 1 else 0) + (if tpl != "" then 1 else 0)
      ensures forall u :: u in srcs ==> u != ""
    {
      (if tpl != "" then [tpl] else []) + (if url != "" then [url] else [])
    }

    // ----- the lifecycle as functions of the page's state -----

    /** `trigger(kind)` */
    function Emitting(s: Life, e: Env, kind: string): (Life, Env) {
      (s.(event := Drained(s.event, kind)), e.(log := e.log + [Emitted(Sheet(this), kind, Dispatched(s.event, kind, hooks))]))
    }

    /** `exit()` (flip.js:1053-1056). */
    function Exiting(s: Life, e: Env): (Life, Env) {
      if refresh > 0 && !refreshHidden then (s.(timer := false), e.(log := e.log + [TimerCleared(this)]))
      else (s, e)
    }

    /** The refresh timer starts when there is none (flip.js:1023-1026). */
    function Arming(s: Life, e: Env): (Life, Env) {
      (s.(timer := s.timer || refresh > 0), if !s.timer && refresh > 0 then e.(log := e.log + [TimerSet(this)]) else e)
    }

    /** `init()` (flip.js:1019-1047): arm the refresh timer, then load. */
    function Initing(s: Life, e: Env): (Life, Env) {
      var (s1, e1) := Arming(s, e);
      Loading(s1, e1)
    }

    /** A loaded page only fires `init`; a page with content to fetch
        requests it; any other page counts its steps and fires `load` and
        `init` (flip.js:1028-1044). */
    function Loading(s: Life, e: Env): (Life, Env) {
      if s.loaded then Emitting(s, e, "init")
      else if Sources() != [] then
        (s.(required := s.required + |Sources()|),
         e.(page := Holder(e.page, Sources()), fetches := e.fetches + Requests(e.page, Sources())))
      else
        var (s2, e2) := Emitting(s.(steps := s.marks), e, "load");
        Emitting(s2, e2, "init")
    }

    // ----- the methods -----

    /** `trigger(kind)` */
    method Emit(win: Window, kind: string)
      modifies this`event, win`log
      ensures (Now(), win.Now()) == Emitting(old(Now()), old(win.Now()), kind)
    {
      var fired, after := Trigger(event, kind, hooks);
      event := after;
      win.log := win.log + [Emitted(Sheet(this), kind, fired)];
    }

    /** `position()` (flip.js:772-777): the scan from the end of the
        container's list. It never ends for a page that is not listed
        (`ScanNeverEnds`), so the page must be listed; on a listed page it
        gives what `Locate` gives. */
    method Position() returns (i: int)
      requires flip != null && this in flip.pages
      ensures 0 <= i < |flip.pages| && flip.pages[i] == this
      ensures forall j :: i < j < |flip.pages| ==> flip.pages[j] != this
      ensures i == Locate(flip.pages, this)
      ensures unchanged(flip, flip.win) && unchanged(flip.pages) && (flip.page != null ==> unchanged(flip.page))
    {
      i := |flip.pages|;
      while true
        invariant 0 <= i <= |flip.pages|
        invariant this in flip.pages[..i]
        invariant forall j :: i <= j < |flip.pages| ==> flip.pages[j] != this
        decreases i
      {
        i := i - 1;
        if this == flip.pages[i] {
          break;
        }
        assert flip.pages[..i + 1] == flip.pages[..i] + [flip.pages[i]];
      }
    }

    /** `step(n, walk)` (flip.js:886-891): with a walk, the target is the
        current step moved by it; the step changes only to a valid one. */
    method Step(n: int, walk: int) returns (ok: bool)
      modifies this`current
      ensures var target := if walk != 0 then old(current) + walk else n;
              ok <==> 0 <= target < steps
      ensures ok ==> 0 <= current < steps && current == (if walk != 0 then old(current) + walk else n)
      ensures !ok ==> current == old(current)
    {
      var target := n;
      if walk != 0 {
        target := current + walk;
      }
      ok := target > -1 && target < steps;
      if ok {
        current := target;
      }
    }

    /** `match(m)` (flip.js:803-805), reading the page's expression as the
        literal text it was compiled from. */
    method Match(m: string) returns (ok: bool)
      modifies this`params
      ensures ok <==> marker == Regex(Pattern(m))
      ensures params == (if ok then Some(m) else None)
    {
      ok := marker == Regex(Pattern(m));
      params := if ok then Some(m) else None;
    }

    /** `exit()` */
    method Exit(win: Window)
      modifies this`timer, win`log
      ensures (Now(), win.Now()) == Exiting(old(Now()), old(win.Now()))
      ensures refresh > 0 && !refreshHidden ==> !timer
      ensures !(refresh > 0 && !refreshHidden) ==> timer == old(timer)
    {
      if refresh > 0 && !refreshHidden {
        timer := false;
        win.log := win.log + [TimerCleared(this)];
      }
    }

    /** `fetch(u, dec)` (flip.js:909-944): a script is requested through
        `require` with this page as `window.page`; anything else by ajax. */
    method Fetch(win: Window, u: string)
      modifies win`page, win`fetches
      ensures win.fetches == old(win.fetches) + Requests(old(win.page), [u])
      ensures win.page == Holder(old(win.page), [u])
    {
      if IsScript(u) {
        var saved := win.page;
        win.page := this;
        win.fetches := win.fetches + [Script(this, u, saved)];
        assert u in [u];
      } else {
        win.fetches := win.fetches + [Ajax(this, u)];
      }
    }

    /** `require(u)` (flip.js:951-956): one more resource to wait for. */
    method Require(win: Window, u: string)
      modifies this`required, win`page, win`fetches
      ensures required == old(required) + 1
      ensures win.fetches == old(win.fetches) + Requests(old(win.page), [u])
      ensures win.page == Holder(old(win.page), [u])
      ensures old(win.Balanced(this)) ==> win.Balanced(this)
    {
      required := required + 1;
      Fetch(win, u);
      OutstandingConcat(old(win.fetches), Requests(old(win.page), [u]), this);
      assert Outstanding(Requests(old(win.page), [u]), this) == 1 by {
        var rs := Requests(old(win.page), [u]);
        assert rs[..0] == [];
      }
    }

    /** `init()` */
    method Init(win: Window)
      modifies this`timer, this`required, this`steps, this`event, win`page, win`log, win`fetches
      ensures (Now(), win.Now()) == Initing(old(Now()), old(win.Now()))
    {
      ArmTimer(win);
      Proceed(win);
    }

    method ArmTimer(win: Window)
      modifies this`timer, win`log
      ensures (Now(), win.Now()) == Arming(old(Now()), old(win.Now()))
    {
      if !timer && refresh > 0 {
        timer := true;
        win.log := win.log + [TimerSet(this)];
      }
    }

    method Proceed(win: Window)
      modifies this`required, this`steps, this`event, win`page, win`log, win`fetches
      ensures (Now(), win.Now()) == Loading(old(Now()), old(win.Now()))
    {
      if loaded {
        Emit(win, "init");
        return;
      }
      if url != "" || tpl != "" {
        RequestSources(win);
      } else {
        Settle(win);
      }
    }

    /** The branch of `init` that has content to fetch (flip.js:1033-1038). */
    method RequestSources(win: Window)
      requires url != "" || tpl != ""
      modifies this`required, win`page, win`fetches
      ensures Now() == old(Now()).(required := old(required) + |Sources()|)
      ensures win.Now() == old(win.Now()).(page := Holder(old(win.page), Sources()),
                                          fetches := old(win.fetches) + Requests(old(win.page), Sources()))
    {
      required := required + (if url != "" then 1 else 0) + (if tpl != "" then 1 else 0);
      if tpl != "" {
        Fetch(win, tpl);
      }
      if url != "" {
        Fetch(win, url);
      }
      RequestsOfSources(old(win.page), old(win.fetches), win.fetches, win.page);
    }

    /** The branch of `init` with nothing to fetch (flip.js:1040-1044). */
    method Settle(win: Window)
      modifies this`steps, this`event, win`log
      ensures var (s, e) := Emitting(old(Now()).(steps := old(domSteps)), old(win.Now()), "load");
              (Now(), win.Now()) == Emitting(s, e, "init")
    {
      steps := domSteps;
      Emit(win, "load");
      ghost var s2, e2 := Now(), win.Now();
      Emit(win, "init");
      assert (Now(), win.Now()) == Emitting(s2, e2, "init");
    }

    lemma RequestsOfSources(saved: Page?, before: seq<Fetch>, after: seq<Fetch>, holder: Page?)
      requires Sources() != []
      requires tpl != "" && url != "" ==>
        var h := Holder(saved, [tpl]);
        after == before + Requests(saved, [tpl]) + Requests(h, [url]) && holder == Holder(h, [url])
      requires tpl != "" && url == "" ==> after == before + Requests(saved, [tpl]) && holder == Holder(saved, [tpl])
      requires tpl == "" ==> after == before + Requests(saved, [url]) && holder == Holder(saved, [url])
      ensures after == before + Requests(saved, Sources()) && holder == Holder(saved, Sources())
    {
      if tpl != "" && url != "" {
        assert Sources() == [tpl, url];
        assert [tpl, url][1..] == [url];
        assert [url][1..] == [];
        assert [tpl][1..] == [];
        if IsScript(tpl) {
          assert tpl in [tpl, url] && tpl in [tpl];
        } else if IsScript(url) {
          assert url in [tpl, url] && url in [url];
        } else {
          assert forall u :: u in [tpl, url] ==> u == tpl || u == url;
        }
      } else if tpl != "" {
        assert Sources() == [tpl];
      } else {
        assert Sources() == [url];
      }
    }

    /** `mount(data, template)` (flip.js:830-858): nothing renders while a
        resource is still required; otherwise the content is written, the
        page counts its steps and fires `load` then `init`. */
    method Mount(win: Window, d: Data, t: string, marks: nat) returns (r: Mounting)
      modifies this`data, this`template, this`loaded, this`steps, this`domSteps, this`event, win`log
      ensures data == (if Truthy(d) then d else old(data))
      ensures template == (if t != "" then t else old(template))
      ensures r == NotReady <==> required > 0
      ensures r == NoContent <==> required <= 0 && template == "" && data == Null
      ensures r != Mounted ==> loaded == old(loaded) && steps == old(steps) && domSteps == old(domSteps)
                               && event == old(event) && win.log == old(win.log)
      ensures r == Mounted ==> Displayed(win, old(Now()), old(win.Now()), Rendering(), marks)
    {
      if Truthy(d) {
        data := d;
      }
      if t != "" {
        template := t;
      }
      if required > 0 {
        return NotReady;
      }
      if template == "" && data.Null? {
        return NoContent;
      }
      Show(win, Rendering(), marks);
      r := Mounted;
    }

    /** The content `mount` writes (flip.js:842-848). */
    function Rendering(): Markup
      reads this`template, this`data
      requires template != "" || !data.Null?
    {
      if template != "" then Rendered(template, data) else Raw(if data.Record? then data.content else data.s)
    }

    /** The state after `mount` wrote `m` into the page element holding
        `marks` steps: loaded unless waiting, steps counted, `load` then
        `init` fired. */
    predicate Displayed(win: Window, s: Life, e: Env, m: Markup, marks: nat)
      reads this, win
    {
      var (s1, e1) := Emitting(s.(loaded := s.loaded || !wait, steps := marks, marks := marks), e.(log := e.log + [Html(this, m)]), "load");
      (Now(), win.Now()) == Emitting(s1, e1, "init")
    }

    method Show(win: Window, m: Markup, marks: nat)
      modifies this`loaded, this`steps, this`domSteps, this`event, win`log
      ensures Displayed(win, old(Now()), old(win.Now()), m, marks)
    {
      win.log := win.log + [Html(this, m)];
      if !wait {
        loaded := true;
      }
      domSteps := marks;
      steps := marks;
      ghost var s1, e1 := Now(), win.Now();
      assert s1 == old(Now()).(loaded := old(loaded) || !wait, steps := marks, marks := marks);
      assert e1 == old(win.Now()).(log := old(win.log) + [Html(this, m)]);
      Emit(win, "load");
      ghost var s2, e2 := Now(), win.Now();
      assert (s2, e2) == Emitting(s1, e1, "load");
      Emit(win, "init");
      assert (Now(), win.Now()) == Emitting(s2, e2, "init");
    }

    // ----- what the lifecycle promises -----

    /** An already loaded page only fires `init` (after arming its refresh
        timer if it has none): nothing is requested or counted again. */
    lemma InitLoaded(s: Life, e: Env)
      requires s.loaded
      ensures var (s', e') := Initing(s, e);
              s'.required == s.required && s'.loaded && s'.steps == s.steps
              && e'.fetches == e.fetches && e'.page == e.page
              && s'.event == Drained(s.event, "init")
              && e'.log[|e'.log| - 1] == Emitted(Sheet(this), "init", Dispatched(s.event, "init", hooks))
    {
    }

    /** A page with content to fetch counts one pending resource per
        source and issues one request for each; nothing fires yet. */
    lemma InitFetching(s: Life, e: Env)
      requires !s.loaded && (url != "" || tpl != "")
      ensures var (s', e') := Initing(s, e);
              s'.required == s.required + (if url != "" then 1 else 0) + (if tpl != "" then 1 else 0)
              && Outstanding(e'.fetches, this) == Outstanding(e.fetches, this) + (s'.required - s.required)
              && s'.event == s.event && !s'.loaded
    {
      var (s', e') := Initing(s, e);
      var e1 := if !s.timer && refresh > 0 then e.(log := e.log + [TimerSet(this)]) else e;
      OutstandingConcat(e.fetches, Requests(e1.page, Sources()), this);
      AllMine(Requests(e1.page, Sources()));
    }

    /** A page with nothing to fetch counts its steps and fires `load`,
        then `init`, without waiting. */
    lemma InitLocal(s: Life, e: Env)
      requires !s.loaded && url == "" && tpl == ""
      ensures var (s', e') := Initing(s, e);
              s'.required == s.required && s'.steps == s.marks && e'.fetches == e.fetches
              && s'.event == Drained(Drained(s.event, "load"), "init")
              && e'.log[|e'.log| - 2..] == [Emitted(Sheet(this), "load", Dispatched(s.event, "load", hooks)),
                                            Emitted(Sheet(this), "init", Dispatched(Drained(s.event, "load"), "init", hooks))]
    {
    }

    /** Init keeps the count of required resources equal to the requests in
        flight for the page. */
    lemma InitBalanced(s: Life, e: Env)
      requires s.required == Outstanding(e.fetches, this)
      ensures var (s', e') := Initing(s, e);
              s'.required == Outstanding(e'.fetches, this)
    {
      if !s.loaded && (url != "" || tpl != "") {
        InitFetching(s, e);
      }
    }

    lemma {:induction false} AllMine(fs: seq<Fetch>)
      requires forall i :: 0 <= i < |fs| ==> fs[i].page == this
      ensures Outstanding(fs, this) == |fs|
    {
      if fs != [] {
        AllMine(fs[..|fs| - 1]);
      }
    }
  }

  class Flip {
    const win: Window
    var pages: seq<Page>
    /** The pages that are not indexed (`index` false). */
    var nodex: seq<Page>
    var page: Page?
    var current: int
    var locked: bool
    /** The `flip` counter: how many transitions committed. */
    var flips: nat
    /** `auto_increment`: the id the next added page gets. */
    var nextId: int
    /** Shared page data by page name. */
    var data: map<string, Data>
    /** The index `init` starts from when no page claims the start. */
    var start: int
    var event: Table
    /** The container's own `on<t>` methods: none. */
    const hooks: set<string>
    /** Animations started and not yet completed, oldest first. */
    var moves: seq<Move>

    /** `new Flip(settings)` (flip.js:138-153) with the settings that the
        model keeps: the start index and the shared data. */
    constructor (win: Window, start: int, data: map<string, Data>)
      ensures this.win == win && this.start == start && this.data == data
      ensures pages == [] && nodex == [] && page == null && current == -1 && !locked
      ensures flips == 0 && nextId == 1 && hooks == {} && moves == []
      ensures event == Components.Composed()
      ensures Valid() && Linked() && Numbered()
    {
      this.win := win;
      pages, nodex, page, current, locked := [], [], null, -1, false;
      flips, nextId, this.data, this.start := 0, 1, data, start;
      hooks := {};
      event, moves := Components.Composed(), [];
    }

    /** No page is listed twice; `page` is `pages[current]`, or null with
        `current == -1`; queued animations are between two different
        indexed pages. */
    ghost predicate Valid()
      reads this`pages, this`nodex, this`nextId, this`current, this`page, this`moves
    {
      1 <= nextId
      && Unique(pages + nodex)
      && -1 <= current < |pages|
      && (current == -1 <==> page == null)
      && (current >= 0 ==> page == pages[current])
      && (forall m :: m in moves ==> m.next in pages && m.prev != m.next && (m.prev != null ==> m.prev in pages))
    }

    /** Every listed page points back here and has an id below `nextId`. */
    ghost predicate Linked()
      reads this`pages, this`nodex, this`nextId, pages`flip, pages`id, nodex`flip, nodex`id
    {
      Owned(pages, this, nextId) && Owned(nodex, this, nextId)
    }

    /** Every page `add` numbered has an id of its own. */
    ghost predicate Numbered()
      reads this`pages, this`nodex, pages`id, nodex`id
    {
      DistinctIds(pages + nodex)
    }

    /** `trigger(kind)` on the container. */
    method Emit(kind: string)
      modifies this`event, win`log
      ensures event == Drained(old(event), kind)
      ensures win.log == old(win.log) + [Emitted(Box, kind, Dispatched(old(event), kind, hooks))]
    {
      var fired, after := Trigger(event, kind, hooks);
      event := after;
      win.log := win.log + [Emitted(Box, kind, fired)];
    }

    /** `add(page)` (flip.js:160-188): the page gets the next id and a
        back-reference, shared data by name, an expression for its marker,
        is initialised when it asks to be loaded, and goes to the end of
        `pages` or `nodex`; `update` fires. A page is added once: the
        source sets its back-reference unconditionally. */
    method Add(p: Page) returns (ok: bool)
      requires Valid() && Linked() && Numbered() && p.flip == null
      modifies this`nextId, this`pages, this`nodex, this`event
      modifies p`id, p`flip, p`data, p`marker, p`timer, p`required, p`steps, p`event
      modifies win`page, win`log, win`fetches
      ensures Valid() && Linked() && Numbered() && ok
      ensures p.id == old(nextId) && nextId == old(nextId) + 1 && p.flip == this
      ensures pages == old(pages) + (if p.index then [p] else [])
      ensures nodex == old(nodex) + (if p.index then [] else [p])
      ensures p.data == (if p.name in data then data[p.name] else old(p.data))
      ensures p.marker == Compile(old(p.marker))
      ensures event == Drained(old(event), "update")
      ensures var (s, e) := if p.load then p.Initing(old(p.Now()), old(win.Now())) else (old(p.Now()), old(win.Now()));
              p.Now() == s && win.Now() == e.(log := e.log + [Emitted(Box, "update", Dispatched(old(event), "update", hooks))])
    {
      Attach(p);
      Enlist(p);
      ok := true;
    }

    /** The second half of `add`: `init` when asked for, the push, `update`. */
    method Enlist(p: Page)
      requires Valid() && p !in pages && p !in nodex
      requires p.flip == this && 1 <= p.id == nextId - 1
      requires Owned(pages, this, p.id) && Owned(nodex, this, p.id) && DistinctIds(pages + nodex)
      modifies this`pages, this`nodex, this`event
      modifies p`timer, p`required, p`steps, p`event, win`page, win`log, win`fetches
      ensures Valid() && Linked() && Numbered()
      ensures pages == old(pages) + (if p.index then [p] else [])
      ensures nodex == old(nodex) + (if p.index then [] else [p])
      ensures event == Drained(old(event), "update")
      ensures var (s, e) := if p.load then p.Initing(old(p.Now()), old(win.Now())) else (old(p.Now()), old(win.Now()));
              p.Now() == s && win.Now() == e.(log := e.log + [Emitted(Box, "update", Dispatched(old(event), "update", hooks))])
    {
      Boot(p);
      Publish(p);
    }

    /** The push and the `update` event. */
    method Publish(p: Page)
      requires Valid() && p !in pages && p !in nodex
      requires p.flip == this && 1 <= p.id == nextId - 1
      requires Owned(pages, this, p.id) && Owned(nodex, this, p.id) && DistinctIds(pages + nodex)
      modifies this`pages, this`nodex, this`event, win`log
      ensures Valid() && Linked() && Numbered()
      ensures pages == old(pages) + (if p.index then [p] else [])
      ensures nodex == old(nodex) + (if p.index then [] else [p])
      ensures event == Drained(old(event), "update")
      ensures win.log == old(win.log) + [Emitted(Box, "update", Dispatched(old(event), "update", hooks))]
    {
      File(p);
      Emit("update");
    }

    /** The first half of `add`: id, back-reference, shared data, marker. */
    method Attach(p: Page)
      requires Valid() && Linked() && Numbered() && p.flip == null
      modifies this`nextId, p`id, p`flip, p`data, p`marker
      ensures p.id == old(nextId) && nextId == old(nextId) + 1 && p.flip == this
      ensures p.data == (if p.name in data then data[p.name] else old(p.data))
      ensures p.marker == Compile(old(p.marker))
      ensures p !in pages && p !in nodex && Valid() && Owned(pages, this, p.id) && Owned(nodex, this, p.id)
      ensures DistinctIds(pages + nodex)
    {
      assert p !in pages && p !in nodex;
      assert p !in pages + nodex;
      p.id := nextId;
      nextId := nextId + 1;
      p.flip := this;
      if p.name in data {
        p.data := data[p.name];
      }
      p.marker := Compile(p.marker);
    }

    /** `if (page.load) page.init()` in `add`. */
    method Boot(p: Page)
      requires Owned(pages, this, p.id) && Owned(nodex, this, p.id) && DistinctIds(pages + nodex)
      modifies p`timer, p`required, p`steps, p`event, win`page, win`log, win`fetches
      ensures Owned(pages, this, p.id) && Owned(nodex, this, p.id) && DistinctIds(pages + nodex)
      ensures (p.Now(), win.Now()) == if p.load then p.Initing(old(p.Now()), old(win.Now())) else (old(p.Now()), old(win.Now()))
    {
      if p.load {
        p.Init(win);
      }
    }

    /** The push at the end of `add`. */
    method File(p: Page)
      requires Valid() && p !in pages && p !in nodex
      requires p.flip == this && 1 <= p.id == nextId - 1
      requires Owned(pages, this, p.id) && Owned(nodex, this, p.id) && DistinctIds(pages + nodex)
      modifies this`pages, this`nodex
      ensures pages == old(pages) + (if p.index then [p] else [])
      ensures nodex == old(nodex) + (if p.index then [] else [p])
      ensures Valid() && Linked() && Numbered()
    {
      UniquePush(pages, nodex, p);
      DistinctPush(pages, nodex, p, this);
      if p.index {
        OwnedPush(pages, p, this, nextId);
        pages := pages + [p];
      } else {
        OwnedPush(nodex, p, this, nextId);
        nodex := nodex + [p];
      }
    }

    /** `get(key)` (flip.js:223-228): the last page of `pages` then `nodex`
        that matches, or false (here null). */
    method Get(key: Key) returns (r: Page?)
      ensures var all := pages + nodex;
              r == null <==> forall q :: q in all ==> !Hit(q, key)
      ensures var all := pages + nodex;
              r != null ==> exists i :: 0 <= i < |all| && all[i] == r && Hit(r, key)
                                       && forall j :: i < j < |all| ==> !Hit(all[j], key)
    {
      var all := pages + nodex;
      var i := |all|;
      while i > 0
        invariant 0 <= i <= |all|
        invariant forall j :: i <= j < |all| ==> !Hit(all[j], key)
      {
        i := i - 1;
        if Hit(all[i], key) {
          return all[i];
        }
      }
      return null;
    }

    /** `has(n)` for a number (flip.js:235): `!!this.pages[n]`. */
    function Has(n: int): bool
      reads this`pages, this`current
    {
      0 <= n < |pages|
    }

    function HasPrev(): bool
      reads this`pages, this`current
    {
      current > 0
    }

    function HasNext(): bool
      reads this`pages, this`current
    {
      |pages| > current + 1
    }

    /** There is a previous page exactly when the index before the current
        one is a page, and a next page exactly when the index after it is. */
    lemma Neighbours()
      requires Valid()
      ensures HasPrev() <==> Has(current - 1)
      ensures HasNext() <==> Has(current + 1)
    {
    }

    method Lock()
      modifies this`locked
      ensures locked
    {
      locked := true;
    }

    method Unlock()
      modifies this`locked
      ensures !locked
    {
      locked := false;
    }

    /** `marker()` (flip.js:268-270) */
    function Marker(): Option<string>
      reads this, win
    {
      Read(win.fragment)
    }

    /** `mark(arg)` (flip.js:259-262): writes the argument, the page's mask
        or the text of its marker into the hash and fires `mark`. */
    method Mark(arg: string) returns (m: string)
      requires arg != "" || page != null
      modifies win`fragment, win`log, this`event
      ensures m == if arg != "" then arg else Chosen(arg, page.mask, page.marker)
      ensures win.fragment == Assign(m)
      ensures event == Drained(old(event), "mark")
      ensures win.log == old(win.log) + [Emitted(Box, "mark", Dispatched(old(event), "mark", hooks))]
      ensures m != "" && m[0] != '#' && Single(m) ==> Marker() == Some(m)
    {
      if arg != "" {
        m := arg;
      } else {
        m := Chosen(arg, page.mask, page.marker);
      }
      win.fragment := Assign(m);
      Emit("mark");
      if m != "" && m[0] != '#' && Single(m) {
        MarkRoundTrip(m);
      }
    }

    // ----- goto: the ends of a navigation as functions -----

    /** The index `goto` resolves its argument to: the number itself, or
        the page's `position()`. */
    function Where(t: Target): int
      reads this`pages
      requires t.To? ==> t.p in pages
    {
      match t
      case At(n) => n
      case To(p) => IndexOf(pages, p)
    }

    /** How `goto(n, direct, origin)` ends (flip.js:301-316): rejected when
        `n` is no page or the current one; a user's move inside a page with
        steps only changes the step; a locked container stops after the
        current page is left; otherwise the move is committed. */
    function Verdict(n: int, origin: Origin): Outcome
      reads this, page
    {
      if !Has(n) || n == current then Rejected
      else if page != null && page.steps > 0 && origin == Origin.User && 0 <= page.current + Toward(current, n) < page.steps then Stepped
      else if page != null && locked then Vetoed
      else Committed
    }

    /** The lifecycle state of every indexed page. */
    ghost function Lives(): map<Page, Life>
      reads this`pages, pages`timer, pages`required, pages`loaded, pages`steps, pages`current, pages`event, pages`domSteps
    {
      LivesOf(pages)
    }

    ghost function State(): World
      reads this`pages, pages`timer, pages`required, pages`loaded, pages`steps, pages`current, pages`event, pages`domSteps, win
    {
      World(Lives(), win.Now())
    }

    /** `w` is the world as it stands: an entry for exactly the listed
        pages, holding each one's lifecycle, and the browser. */
    ghost predicate Fits(w: World)
      reads this`pages, pages`timer, pages`required, pages`loaded, pages`steps, pages`current, pages`event, pages`domSteps, win
    {
      && (forall q :: q in w.lives ==> q in pages)
      && (forall q :: q in pages ==> q in w.lives && w.lives[q] == q.Now())
      && w.env == win.Now()
    }

    /** The world that fits is the one `State()` collects. */
    lemma Fitting(w: World)
      ensures Fits(w) <==> State() == w
    {
      if Fits(w) {
        assert w.lives == Lives();
      }
    }

    // ----- goto: the steps on the pages, each with the world it leaves -----

    /** `q.init()` on an indexed page. */
    method InitPage(q: Page, ghost w: World) returns (ghost r: World)
      requires q in pages && Valid() && Linked() && Fits(w)
      modifies q`timer, q`required, q`steps, q`event, win`page, win`log, win`fetches
      ensures Valid() && Linked() && Fits(r)
      ensures r == Apply(w, InitOf(q))
    {
      q.Init(win);
      r := Apply(w, InitOf(q));
    }

    /** `q.exit()` on an indexed page. */
    method ExitPage(q: Page, ghost w: World) returns (ghost r: World)
      requires q in pages && Valid() && Linked() && Fits(w)
      modifies q`timer, win`log
      ensures Valid() && Linked() && Fits(r)
      ensures r == Apply(w, ExitOf(q))
    {
      q.Exit(win);
      r := Apply(w, ExitOf(q));
    }

    /** `q.trigger(kind)` on an indexed page. */
    method EmitPage(q: Page, kind: string, ghost w: World) returns (ghost r: World)
      requires q in pages && Valid() && Linked() && Fits(w)
      modifies q`event, win`log
      ensures Valid() && Linked() && Fits(r)
      ensures r == Apply(w, EmitOf(q, kind))
    {
      q.Emit(win, kind);
      r := Apply(w, EmitOf(q, kind));
    }

    /** The page initialisations and `beforeenter` of a move to page `n`
        of `ps`, the pages as listed. */
    method Land(n: int, ghost s: Scene) returns (ghost t: Scene)
      requires Shows(s) && 0 <= n < |pages|
      modifies pages`timer, pages`required, pages`steps, pages`event, win`page, win`log, win`fetches
      ensures Shows(t) && 0 <= n < |s.pages| && forall q :: q in s.pages ==> q in s.world.lives
      ensures t == EnterS(s, n)
    {
      ghost var w := Enters(n, s.world, s.pages);
      Entering(s.world, s.pages, n);
      t := s.(world := w);
    }

    /** Page `n` and the neighbours it asks for initialised, then its
        `beforeenter`. */
    method Enters(n: int, ghost w: World, ghost ps: seq<Page>) returns (ghost r: World)
      requires ps == pages && 0 <= n < |ps| && Valid() && Linked() && Fits(w)
      modifies pages`timer, pages`required, pages`steps, pages`event, win`page, win`log, win`fetches
      ensures Valid() && Linked() && Fits(r)
      ensures r == Apply(Apply(Apply(w, InitOf(ps[n])), AroundOf(ps, n)), EmitOf(ps[n], "beforeenter"))
    {
      var next := pages[n];
      ghost var w1 := InitPage(next, w);
      ghost var w2 := Around(n, w1, ps);
      r := EmitPage(next, "beforeenter", w2);
    }

    /** The neighbours `init` when page `n` asks for them. */
    method Around(n: int, ghost w: World, ghost ps: seq<Page>) returns (ghost r: World)
      requires ps == pages && 0 <= n < |ps| && Valid() && Linked() && Fits(w)
      modifies pages`timer, pages`required, pages`steps, pages`event, win`page, win`log, win`fetches
      ensures Valid() && Linked() && Fits(r)
      ensures r == Apply(w, AroundOf(ps, n))
    {
      var next := pages[n];
      r := w;
      if next.loadPrev && n > 0 {
        r := InitPage(pages[n - 1], r);
      }
      if next.loadNext && n + 1 < |pages| {
        r := InitPage(pages[n + 1], r);
      }
      Surrounding(w, ps, n);
    }

    // ----- goto -----

    function Spot(): Place
      reads this`page, this`current, this`flips, this`moves, this`event
    {
      Place(page, current, flips, moves, event)
    }

    ghost function Now(): Scene
      reads this, win, pages
    {
      Scene(pages, hooks, Spot(), State())
    }

    /** The container, its pages and the browser are as the scene `t` says. */
    ghost predicate Shows(t: Scene)
      reads this, win, pages, nodex
    {
      Valid() && Linked() && t.pages == pages && t.hooks == hooks && t.place == Spot() && Fits(t.world)
    }

    /** A container in a valid state shows the scene it is in, and that
        scene is sound. */
    lemma ShowsNow()
      requires Valid() && Linked()
      ensures Shows(Now()) && Sound(Now())
    {
      Fitting(State());
    }

    lemma Shown(t: Scene)
      requires Shows(t)
      ensures Now() == t
    {
      Fitting(t.world);
    }

    /** The text `mark()` writes on arriving at page `n`. */
    function Arrival(n: int): string
      reads this`pages, pages`marker
    {
      if 0 <= n < |pages| then Chosen("", pages[n].mask, pages[n].marker) else ""
    }

    /** `goto(n, direct, origin)` (flip.js:296-363); a page argument is
        resolved by its `position()`. */
    method Goto(t: Target, direct: bool, origin: Origin) returns (ok: bool)
      requires Valid() && Linked() && (t.To? ==> t.p in pages)
      modifies this`page, this`current, this`flips, this`moves, this`event
      modifies win`page, win`fragment, win`log, win`fetches
      modifies pages`timer, pages`required, pages`steps, pages`current, pages`event
      ensures Valid() && Linked()
      ensures ok <==> old(Verdict(Where(t), origin)) == Stepped || old(Verdict(Where(t), origin)) == Committed
      ensures Now() == Navigate(old(Verdict(Where(t), origin)), old(Now()), old(Where(t)), direct, old(Arrival(Where(t))))
    {
      ghost var s, v, mark := Now(), Verdict(Where(t), origin), Arrival(Where(t));
      var n := Resolve(t, 0, origin);
      assert n == Where(t) && v == Verdict(n, origin) && mark == Arrival(n);
      ok := Travel(n, direct, origin, s, v, mark);
    }

    /** `prev(direct, origin)` (flip.js:204-206): `goto(current - 1)`. */
    method Prev(direct: bool, origin: Origin) returns (ok: bool)
      requires Valid() && Linked()
      modifies this`page, this`current, this`flips, this`moves, this`event
      modifies win`page, win`fragment, win`log, win`fetches
      modifies pages`timer, pages`required, pages`steps, pages`current, pages`event
      ensures Valid() && Linked()
      ensures ok <==> old(Verdict(current - 1, origin)) == Stepped || old(Verdict(current - 1, origin)) == Committed
      ensures Now() == Navigate(old(Verdict(current - 1, origin)), old(Now()), old(current) - 1, direct, old(Arrival(current - 1)))
    {
      ghost var s, v, mark := Now(), Verdict(current - 1, origin), Arrival(current - 1);
      var n := current - 1;
      ok := Travel(n, direct, origin, s, v, mark);
    }

    /** `next(direct, origin)` (flip.js:214-216): `goto(current + 1)`. */
    method Next(direct: bool, origin: Origin) returns (ok: bool)
      requires Valid() && Linked()
      modifies this`page, this`current, this`flips, this`moves, this`event
      modifies win`page, win`fragment, win`log, win`fetches
      modifies pages`timer, pages`required, pages`steps, pages`current, pages`event
      ensures Valid() && Linked()
      ensures ok <==> old(Verdict(current + 1, origin)) == Stepped || old(Verdict(current + 1, origin)) == Committed
      ensures Now() == Navigate(old(Verdict(current + 1, origin)), old(Now()), old(current) + 1, direct, old(Arrival(current + 1)))
    {
      ghost var s, v, mark := Now(), Verdict(current + 1, origin), Arrival(current + 1);
      var n := current + 1;
      ok := Travel(n, direct, origin, s, v, mark);
    }

    /** `page.prev(direct, origin)` (flip.js:785-787): `goto` the page
        before `p`, found by its `position()`. */
    method PrevOf(p: Page, direct: bool, origin: Origin) returns (ok: bool)
      requires Valid() && Linked() && p in pages
      modifies this`page, this`current, this`flips, this`moves, this`event
      modifies win`page, win`fragment, win`log, win`fetches
      modifies pages`timer, pages`required, pages`steps, pages`current, pages`event
      ensures Valid() && Linked()
      ensures ok <==> old(Verdict(Where(To(p)) - 1, origin)) == Stepped || old(Verdict(Where(To(p)) - 1, origin)) == Committed
      ensures Now() == Navigate(old(Verdict(Where(To(p)) - 1, origin)), old(Now()), old(Where(To(p))) - 1, direct, old(Arrival(Where(To(p)) - 1)))
    {
      ghost var s, v, mark := Now(), Verdict(Where(To(p)) - 1, origin), Arrival(Where(To(p)) - 1);
      var n := Resolve(To(p), -1, origin);
      ok := Travel(n, direct, origin, s, v, mark);
    }

    /** `page.next(direct, origin)` (flip.js:795-797). */
    method NextOf(p: Page, direct: bool, origin: Origin) returns (ok: bool)
      requires Valid() && Linked() && p in pages
      modifies this`page, this`current, this`flips, this`moves, this`event
      modifies win`page, win`fragment, win`log, win`fetches
      modifies pages`timer, pages`required, pages`steps, pages`current, pages`event
      ensures Valid() && Linked()
      ensures ok <==> old(Verdict(Where(To(p)) + 1, origin)) == Stepped || old(Verdict(Where(To(p)) + 1, origin)) == Committed
      ensures Now() == Navigate(old(Verdict(Where(To(p)) + 1, origin)), old(Now()), old(Where(To(p))) + 1, direct, old(Arrival(Where(To(p)) + 1)))
    {
      ghost var s, v, mark := Now(), Verdict(Where(To(p)) + 1, origin), Arrival(Where(To(p)) + 1);
      var n := Resolve(To(p), 1, origin);
      ok := Travel(n, direct, origin, s, v, mark);
    }

    /** There is no page before the first one nor after the last one: no
        wrap-around. */
    lemma NoWrap(direct: bool, origin: Origin)
      requires Valid() && Linked()
      ensures current <= 0 ==> Verdict(current - 1, origin) == Rejected
      ensures current == |pages| - 1 ==> Verdict(current + 1, origin) == Rejected
      ensures Sound(Now())
      ensures current <= 0 ==> Navigate(Verdict(current - 1, origin), Now(), current - 1, direct, Arrival(current - 1)) == Now()
      ensures current == |pages| - 1 ==> Navigate(Verdict(current + 1, origin), Now(), current + 1, direct, Arrival(current + 1)) == Now()
    {
      ShowsNow();
    }

    /** `goto` once its target is an index. */
    method Travel(n: int, direct: bool, origin: Origin, ghost s: Scene, ghost v: Outcome, ghost mark: string) returns (ok: bool)
      requires Valid() && Linked() && s == Now() && v == Verdict(n, origin) && mark == Arrival(n)
      modifies this`page, this`current, this`flips, this`moves, this`event
      modifies win`page, win`fragment, win`log, win`fetches
      modifies pages`timer, pages`required, pages`steps, pages`current, pages`event
      ensures Valid() && Linked()
      ensures ok <==> v == Stepped || v == Committed
      ensures Sound(s) && Now() == Navigate(v, s, n, direct, mark)
    {
      ShowsNow();
      ghost var r;
      ok, r := Walk(n, direct, origin, v, s, mark);
      Shown(r);
    }

    /** The index `delta` places from the target: `n.position()` for a
        page, the number itself otherwise. */
    method Resolve(t: Target, delta: int, ghost origin: Origin) returns (n: int)
      requires Linked() && (t.To? ==> t.p in pages)
      ensures n == Where(t) + delta == old(Where(t)) + delta
      ensures Now() == old(Now()) && Verdict(n, origin) == old(Verdict(n, origin)) && Arrival(n) == old(Arrival(n))
      ensures Valid() == old(Valid()) && Linked()
    {
      match t
      case At(k) =>
        n := k + delta;
      case To(p) =>
        var i := p.Position();
        n := i + delta;
    }

    /** `goto` once its target is an index, from the scene `s`; `v` is its
        verdict and `mark` the text it would write. */
    method Walk(n: int, direct: bool, origin: Origin, ghost v: Outcome, ghost s: Scene, ghost mark: string)
      returns (ok: bool, ghost t: Scene)
      requires Shows(s) && Sound(s) && v == Verdict(n, origin) && mark == Arrival(n)
      modifies this`page, this`current, this`flips, this`moves, this`event
      modifies win`page, win`fragment, win`log, win`fetches
      modifies pages`timer, pages`required, pages`steps, pages`current, pages`event
      ensures Shows(t) && (ok <==> v == Stepped || v == Committed)
      ensures t == Navigate(v, s, n, direct, mark)
    {
      if !Has(n) || n == current {
        return false, s;
      }
      if page == null {
        ok, t := Enter(n, direct, v, s, mark);
      } else {
        ok, t := Switch(n, direct, origin, v, s, mark);
      }
    }

    /** `goto` from a page: a step inside it, or leaving it. */
    method Switch(n: int, direct: bool, origin: Origin, ghost v: Outcome, ghost s: Scene, ghost mark: string)
      returns (ok: bool, ghost t: Scene)
      requires Shows(s) && Sound(s) && v == Verdict(n, origin) && mark == Arrival(n)
      requires Has(n) && n != current && page != null
      modifies this`page, this`current, this`flips, this`moves, this`event
      modifies win`page, win`fragment, win`log, win`fetches
      modifies pages`timer, pages`required, pages`steps, pages`current, pages`event
      ensures Shows(t) && (ok <==> v == Stepped || v == Committed)
      ensures t == Navigate(v, s, n, direct, mark)
    {
      var stepped;
      stepped, t := StepHere(n, origin, v, s);
      if stepped {
        return true, t;
      }
      ok, t := Depart(n, direct, v, s, mark);
    }

    /** Leaving the current page, then the move unless the container is locked. */
    method Depart(n: int, direct: bool, ghost v: Outcome, ghost s: Scene, ghost mark: string)
      returns (ok: bool, ghost t: Scene)
      requires Shows(s) && Sound(s) && v == (if locked then Vetoed else Committed) && mark == Arrival(n)
      requires Has(n) && n != current && page != null
      modifies this`page, this`current, this`flips, this`moves, this`event
      modifies win`page, win`fragment, win`log, win`fetches
      modifies pages`timer, pages`required, pages`steps, pages`current, pages`event
      ensures Shows(t) && (ok <==> v == Committed)
      ensures t == Navigate(v, s, n, direct, mark)
    {
      ghost var left := Leave(s);
      if locked {
        return false, left;
      }
      t := Commit(n, direct, left, mark);
      ok := true;
    }

    /** The first move of a container that shows no page yet. */
    method Enter(n: int, direct: bool, ghost v: Outcome, ghost s: Scene, ghost mark: string)
      returns (ok: bool, ghost t: Scene)
      requires Shows(s) && Sound(s) && v == Committed && mark == Arrival(n)
      requires Has(n) && n != current && page == null
      modifies this`page, this`current, this`flips, this`moves, this`event
      modifies win`page, win`fragment, win`log, win`fetches
      modifies pages`timer, pages`required, pages`steps, pages`current, pages`event
      ensures Shows(t) && ok
      ensures t == Navigate(v, s, n, direct, mark)
    {
      t := Commit(n, direct, s, mark);
      ok := true;
    }

    /** Leaving the current page: `exit()`, then `beforeleave` (flip.js:310-311). */
    method Leave(ghost s: Scene) returns (ghost t: Scene)
      requires Shows(s) && page != null
      modifies page`timer, page`event, win`log
      ensures Shows(t) && s.place.page != null && s.place.page in s.world.lives
      ensures t == LeaveS(s)
    {
      ghost var w := ExitPage(page, s.world);
      w := EmitPage(page, "beforeleave", w);
      Leaving(s.world, page);
      t := LeaveS(s);
    }

    /** The step of `goto`, when the verdict `v` is one. */
    method StepHere(n: int, origin: Origin, ghost v: Outcome, ghost s: Scene) returns (stepped: bool, ghost t: Scene)
      requires Shows(s) && v == Verdict(n, origin) && Has(n) && n != current && page != null
      modifies page`current
      ensures stepped <==> v == Stepped
      ensures Shows(t) && s.place.page != null && s.place.page in s.world.lives
      ensures t == if stepped then StepS(s, n) else s
    {
      var q := page;
      stepped := TryStep(n, origin);
      assert win.Now() == s.world.env;
      if stepped {
        t := StepS(s, n);
        assert t.world.lives == s.world.lives[q := q.Now()];
      } else {
        t := s;
        assert q.Now() == s.world.lives[q];
      }
    }

    /** `prev.steps && origin == 'user' && prev.step(null, ...)`: a user's
        move walks the steps of the current page while it can. */
    method TryStep(n: int, origin: Origin) returns (stepped: bool)
      requires Valid() && Linked() && Has(n) && n != current && page != null
      modifies page`current
      ensures stepped <==> old(Verdict(n, origin)) == Stepped
      ensures page.current == if stepped then old(page.current) + Toward(current, n) else old(page.current)
    {
      stepped := false;
      var prev := page;
      if prev.steps > 0 && origin == Origin.User {
        var at := prev.Position();
        UniqueAt(pages, nodex, at, current);
        stepped := prev.Step(0, if n > at then 1 else -1);
      }
    }

    /** The committed half of `goto`: the references, the page events,
        the marker and the queued animation. */
    method Commit(n: int, direct: bool, ghost s: Scene, ghost mark: string) returns (ghost t: Scene)
      requires Shows(s) && Has(n) && n != current && mark == Arrival(n)
      modifies this`page, this`current, this`flips, this`moves, this`event
      modifies win`page, win`fragment, win`log, win`fetches
      modifies pages`timer, pages`required, pages`steps, pages`event
      ensures Shows(t) && 0 <= n < |s.pages| && forall q :: q in s.pages ==> q in s.world.lives
      ensures t == ArriveS(s, n, direct, mark)
    {
      var prev := page;
      ghost var u := Reach(n, s);
      t := Finish(prev, direct, u, mark);
    }

    /** `page` moved to page `n`, which is then entered. */
    method Reach(n: int, ghost s: Scene) returns (ghost t: Scene)
      requires Shows(s) && Has(n) && n != current
      modifies this`page, this`current, this`flips
      modifies win`page, win`log, win`fetches
      modifies pages`timer, pages`required, pages`steps, pages`event
      ensures Shows(t) && 0 <= n < |s.pages| && t == EnterS(PointS(s, n), n)
      ensures page == s.pages[n] && page != old(page) && (old(page) != null ==> old(page) in pages)
    {
      t := Point(n, s);
      t := Land(n, t);
    }

    /** `this.page = next; this.current = n; this.flip++`. The move it
        starts is from another page, since no page is listed twice. */
    method Point(n: int, ghost s: Scene) returns (ghost t: Scene)
      requires Shows(s) && Has(n) && n != current
      modifies this`page, this`current, this`flips
      ensures Shows(t) && 0 <= n < |s.pages| && t == PointS(s, n) && t.place.page != s.place.page
    {
      if page != null {
        UniqueAt(pages, nodex, current, n);
      }
      page, current, flips := pages[n], n, flips + 1;
      t := PointS(s, n);
    }

    /** `this.mark()` and the animation, once the move to `page` is
        committed (flip.js:339-362). */
    method Finish(prev: Page?, direct: bool, ghost s: Scene, ghost mark: string) returns (ghost t: Scene)
      requires Shows(s) && page != null && page != prev && (prev != null ==> prev in pages)
      requires mark == Chosen("", page.mask, page.marker)
      modifies this`moves, this`event, win`fragment, win`log
      ensures Shows(t) && s.place.page != null
      ensures t == MarkS(s, prev, if direct then 0 else s.place.page.slideDuration, mark)
    {
      t := Signal(s, mark);
      t := Queue(prev, if direct then 0 else page.slideDuration, t);
    }

    /** `this.mark()` on arriving at `page`. */
    method Signal(ghost s: Scene, ghost mark: string) returns (ghost t: Scene)
      requires Shows(s) && page != null && mark == Chosen("", page.mask, page.marker)
      modifies this`event, win`fragment, win`log
      ensures Shows(t) && t.place.page == s.place.page
      ensures t == s.(place := s.place.(event := Drained(s.place.event, "mark")), world := MarkW(s.world, mark, s.place.event, s.hooks))
    {
      var marked := Mark("");
      t := s.(place := s.place.(event := Drained(s.place.event, "mark")), world := MarkW(s.world, mark, s.place.event, s.hooks));
    }

    /** The animation from `prev` to `page` queued. */
    method Queue(prev: Page?, duration: int, ghost s: Scene) returns (ghost t: Scene)
      requires Shows(s) && page != null && page != prev && (prev != null ==> prev in pages)
      modifies this`moves
      ensures Shows(t) && s.place.page != null
      ensures t == s.(place := s.place.(moves := s.place.moves + [Move(s.place.page, prev, duration)]))
    {
      moves := moves + [Move(page, prev, duration)];
      t := s.(place := s.place.(moves := s.place.moves + [Move(s.place.page, prev, duration)]));
    }

    /** The oldest animation `goto` started has completed and its callback
        runs (flip.js:342-349). */
    method Arrived()
      requires Valid() && Linked() && moves != []
      modifies this`moves, this`event, win`page, win`log, pages`event
      ensures Valid() && Linked()
      ensures old(Sound(Now())) && Now() == SettleS(old(Now()))
    {
      ShowsNow();
      ghost var s := Now();
      ghost var t := Complete(s);
      Shown(t);
    }

    method Complete(ghost s: Scene) returns (ghost t: Scene)
      requires Shows(s) && moves != []
      modifies this`moves, this`event, win`page, win`log, pages`event
      ensures Shows(t) && s.place.moves != [] && t == SettleS(s)
    {
      var m := moves[0];
      ghost var u := Unqueue(s);
      t := Greet(m, u);
    }

    /** `leave` on the page left, then `enter` on the page arrived at. */
    method Greet(m: Move, ghost u: Scene) returns (ghost t: Scene)
      requires Shows(u) && m.next in pages && (m.prev != null ==> m.prev in pages)
      modifies pages`event, win`log
      ensures Shows(t)
      ensures t == u.(world := Apply(if m.prev != null then Apply(u.world, EmitOf(m.prev, "leave")) else u.world, EmitOf(m.next, "enter")))
    {
      ghost var w := u.world;
      if m.prev != null {
        w := EmitPage(m.prev, "leave", w);
      }
      w := EmitPage(m.next, "enter", w);
      t := u.(world := w);
    }

    /** `window.page = next` and `flip` on the container. */
    method Unqueue(ghost s: Scene) returns (ghost u: Scene)
      requires Shows(s) && moves != []
      modifies this`moves, this`event, win`page, win`log
      ensures Shows(u) && s.place.moves != []
      ensures u == s.(place := s.place.(moves := s.place.moves[1..], event := Drained(s.place.event, "flip")),
                      world := s.world.(env := s.world.env.(page := s.place.moves[0].next,
                        log := s.world.env.log + [Emitted(Box, "flip", Dispatched(s.place.event, "flip", s.hooks))])))
    {
      var m := moves[0];
      moves := moves[1..];
      win.page := m.next;
      Emit("flip");
      u := s.(place := s.place.(moves := s.place.moves[1..], event := Drained(s.place.event, "flip")),
              world := s.world.(env := s.world.env.(page := s.place.moves[0].next,
                log := s.world.env.log + [Emitted(Box, "flip", Dispatched(s.place.event, "flip", s.hooks))])));
    }
  }
}
