/** The neighbours `goto` asks to have loaded (flip.js:325-331). Page `n`
    of the list, once it is the container's page, asks for the page before
    it when `load_prev` is set and for the page after it when `load_next`
    is set. The code reads `next.prev()` and `next.next()` for those
    neighbours, but those methods of a page NAVIGATE (flip.js:785-797):
    they call `goto` and return its boolean result, on which the code then
    calls `init()`. This module models both that code and the evident
    intent, initialising the neighbour, which is what `Container.Apply`
    does on `AroundOf` and what `Container.Flip.Goto` uses. */
module Prefetch {
  import opened Container

  /** How a call ends: with the world it leaves, or with an error thrown
      (a TypeError, or the stack overflow of nested `goto` calls). */
  datatype Ends = Returned(w: World) | Threw

  /** `next.load_x && next.x()` then `next.x().init()`, page `n` of `ps`
      being the container's current page and `k` the neighbour's index.
      `x()` is `goto(k)` with no origin, so no step is taken: with no page
      at `k` it is false and nothing happens; a locked container leaves
      page `n` (`exit`, `beforeleave`) and answers false; otherwise the
      move to `k` is committed, `x()` is true, and the code ends in a
      throw. When page `k` does not ask back for page `n`, the second
      `x()` is rejected and calling `init` on its `false` throws a
      TypeError. When page `k` asks back (page `n - 1` with `load_next`, or
      page `n + 1` with `load_prev`), entering it runs the same prefetch
      back to page `n`, so the nested `goto` calls bounce between the two
      pages until the stack overflows. `Threw` stands for both ends. */
  ghost function SideAsWritten(w: World, ps: seq<Page>, n: int, locked: bool, k: int): Ends
    requires 0 <= n < |ps|
  {
    if !(0 <= k < |ps|) then Returned(w)
    else if locked then Returned(Apply(w, LeaveOf(ps[n])))
    else Threw
  }

  /** Both neighbours as the code asks for them. */
  ghost function AroundAsWritten(w: World, ps: seq<Page>, n: int, locked: bool): Ends
    requires 0 <= n < |ps|
  {
    var first := if ps[n].loadPrev then SideAsWritten(w, ps, n, locked, n - 1) else Returned(w);
    match first
    case Threw => Threw
    case Returned(w1) => if ps[n].loadNext then SideAsWritten(w1, ps, n, locked, n + 1) else Returned(w1)
  }

  /** As written, an unlocked container throws as soon as a page that asks
      for its previous page has one. */
  lemma PrevThrows(w: World, ps: seq<Page>, n: int)
    requires 0 < n < |ps| && ps[n].loadPrev
    ensures AroundAsWritten(w, ps, n, false) == Threw
  {
  }

  /** A concrete container: two pages, the second asking for the first. */
  lemma PrevThrowsExample(a: Page, b: Page, w: World)
    requires b.loadPrev
    ensures AroundAsWritten(w, [a, b], 1, false) == Threw
  {
    PrevThrows(w, [a, b], 1);
  }

  /** As written, a locked container never initialises the neighbour: the
      neighbour's lifecycle is what it was, and page `n` is left again. */
  lemma LockedNeverLoads(w: World, ps: seq<Page>, n: int)
    requires 0 < n < |ps| && ps[n].loadPrev && !ps[n].loadNext && Unique(ps)
    requires ps[n - 1] in w.lives
    ensures AroundAsWritten(w, ps, n, true) == Returned(Apply(w, LeaveOf(ps[n])))
    ensures Apply(w, LeaveOf(ps[n])).lives[ps[n - 1]] == w.lives[ps[n - 1]]
  {
    assert ps[n - 1] != ps[n];
  }

  /** The intended behaviour, as `Container.Apply` gives it on `AroundOf`:
      the neighbours asked for are initialised, the previous one first,
      and every other page, page `n` among them, keeps its lifecycle. */
  lemma AroundInits(w: World, ps: seq<Page>, n: int)
    requires 0 <= n < |ps| && Unique(ps)
    requires forall q :: q in ps ==> q in w.lives
    ensures var r, w1 := Apply(w, AroundOf(ps, n)), if ps[n].loadPrev && n > 0 then Apply(w, InitOf(ps[n - 1])) else w;
            && (ps[n].loadPrev && n > 0 ==> r.lives[ps[n - 1]] == ps[n - 1].Initing(w.lives[ps[n - 1]], w.env).0)
            && (ps[n].loadNext && n + 1 < |ps| ==> r.lives[ps[n + 1]] == ps[n + 1].Initing(w.lives[ps[n + 1]], w1.env).0)
            && (forall i :: 0 <= i < |ps| && i != n - 1 && i != n + 1 ==> r.lives[ps[i]] == w.lives[ps[i]])
            && (!ps[n].loadPrev && !ps[n].loadNext ==> r == w)
  {
    var r := Apply(w, AroundOf(ps, n));
    Surrounding(w, ps, n);
    var w1 := if ps[n].loadPrev && n > 0 then Apply(w, InitOf(ps[n - 1])) else w;
    if ps[n].loadPrev && n > 0 {
      assert w1.lives == w.lives[ps[n - 1] := ps[n - 1].Initing(w.lives[ps[n - 1]], w.env).0];
    }
    if ps[n].loadNext && n + 1 < |ps| {
      assert n > 0 ==> ps[n + 1] != ps[n - 1];
      assert r.lives == w1.lives[ps[n + 1] := ps[n + 1].Initing(w1.lives[ps[n + 1]], w1.env).0];
    }
    forall i | 0 <= i < |ps| && i != n - 1 && i != n + 1
      ensures r.lives[ps[i]] == w.lives[ps[i]]
    {
      assert n > 0 ==> ps[i] != ps[n - 1];
      assert n + 1 < |ps| ==> ps[i] != ps[n + 1];
    }
  }

  /** The intended behaviour never throws and does initialise the page
      before page `n` when it asks for it, where the code as written throws. */
  lemma IntendedLoadsPrev(w: World, ps: seq<Page>, n: int)
    requires 0 < n < |ps| && ps[n].loadPrev && Unique(ps)
    requires forall q :: q in ps ==> q in w.lives
    ensures AroundAsWritten(w, ps, n, false) == Threw
    ensures Apply(w, AroundOf(ps, n)).lives[ps[n - 1]] == ps[n - 1].Initing(w.lives[ps[n - 1]], w.env).0
  {
    PrevThrows(w, ps, n);
    AroundInits(w, ps, n);
  }
}
