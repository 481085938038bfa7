/** The script loader `flip.js` installs as `window.require` when the page
    has none (flip.js:1066-1150). Each dependency is a URL with a status:
    0 not started, 1 loading, 2 loaded. In queue mode the scripts are
    loaded one after another; otherwise all are started at once. The
    callback runs once every dependency is loaded. */
module Loader {

  /** `url.match(/\.css$/)`: a style sheet, which `load` skips without ever
      giving it a status. */
  predicate IsStyle(url: string) {
    |url| >= 4 && url[|url| - 4..] == ".css"
  }

  /** The dependencies taken from the list: the walk stops at the first item
      that is falsy (the empty string). */
  function Deps(list: seq<string>): (deps: seq<string>)
    ensures deps <= list
    ensures "" !in deps
    ensures |deps| < |list| ==> list[|deps|] == ""
  {
    if list == [] || list[0] == "" then []
    else [list[0]] + Deps(list[1..])
  }

  predicate AllLoaded(status: seq<nat>) {
    forall k :: 0 <= k < |status| ==> status[k] == 2
  }

  /** Index of the first dependency not yet loaded, `|status|` when none. */
  function FirstPending(status: seq<nat>): (i: nat)
    ensures i <= |status|
    ensures forall k :: 0 <= k < i ==> status[k] == 2
    ensures i < |status| ==> status[i] != 2
  {
    if status == [] || status[0] != 2 then 0 else 1 + FirstPending(status[1..])
  }

  class ScriptLoader {
    /** Number of items in the list given to `require`. */
    var given: nat
    var urls: seq<string>
    var queue: bool
    var status: seq<nat>
    /** How many times the callback has run. */
    var calls: nat
    /** Queue mode over an empty dependency list reads `deps[0].url`: a TypeError. */
    var failed: bool

    ghost predicate Valid()
      reads this
    {
      |status| == |urls| <= given
      && (forall k :: 0 <= k < |status| ==> status[k] <= 2)
      && (forall k :: 0 <= k < |urls| && IsStyle(urls[k]) ==> status[k] == 0)
      && (failed <==> queue && given > 0 && urls == [])
      && (calls == 1 <==> given == 0 || (urls != [] && AllLoaded(status)))
      && calls <= 1
      && (queue ==> QueueShape())
      && (!queue ==> forall k :: 0 <= k < |urls| ==> (status[k] == 0 <==> IsStyle(urls[k])))
    }

    /** Queue mode: the loaded scripts come first, then at most one that is
        loading or a style sheet the queue is stuck on, then nothing started. */
    ghost predicate QueueShape()
      reads this
      requires |status| == |urls|
    {
      var f := FirstPending(status);
      (forall k :: f < k < |status| ==> status[k] == 0)
      && (f < |status| ==> (status[f] == 1 <==> !IsStyle(urls[f])))
    }

    /** `require(list, callback, queue)` */
    constructor (list: seq<string>, queue: bool)
      ensures Valid()
      ensures this.given == |list| && this.urls == Deps(list) && this.queue == queue
      ensures list == [] ==> calls == 1
      ensures queue && urls != [] ==> status == [if IsStyle(urls[0]) then 0 else 1] + seq(|urls| - 1, _ => 0)
      ensures !queue ==> forall k :: 0 <= k < |urls| ==> status[k] == if IsStyle(urls[k]) then 0 else 1
    {
      var deps := Deps(list);
      given := |list|;
      urls := deps;
      this.queue := queue;
      status := seq(|deps|, _ => 0);
      calls := if list == [] then 1 else 0;
      failed := queue && list != [] && deps == [];
      new;
      if list != [] {
        if queue {
          if deps != [] {
            Load(0);
          }
        } else {
          var i := 0;
          while i < |deps|
            invariant 0 <= i <= |deps| && |status| == |deps| && urls == deps
            invariant forall k :: 0 <= k < i ==> status[k] == if IsStyle(deps[k]) then 0 else 1
            invariant forall k :: i <= k < |deps| ==> status[k] == 0
            invariant calls == 0 && given == |list| && this.queue == queue && !failed
          {
            Load(i);
            i := i + 1;
          }
        }
      }
    }

    /** `load(dep)`: a script gets status 1 and a script element; a style
        sheet is skipped. */
    method Load(i: nat)
      requires i < |status| == |urls|
      modifies this`status
      ensures status == if IsStyle(urls[i]) then old(status) else old(status)[i := 1]
    {
      if !IsStyle(urls[i]) {
        status := status[i := 1];
      }
    }

    /** The script element of dependency `i` fired `onload`: `back(dep)`. */
    method Arrive(i: nat)
      requires Valid()
      requires i < |status| && status[i] == 1
      modifies this`status, this`calls
      ensures Valid()
      ensures var s := old(status)[i := 2];
              var f := FirstPending(s);
              (f == |s| ==> status == s && calls == 1)
              && (f < |s| && queue ==> status == (if IsStyle(urls[f]) then s else s[f := 1]) && calls == 0)
              && (f < |s| && !queue ==> status == s && calls == 0)
    {
      assert given > 0;
      assert calls == 0;
      status := status[i := 2];
      var j := 0;
      while j < |status|
        invariant 0 <= j <= |status|
        invariant forall k :: 0 <= k < j ==> status[k] == 2
      {
        if status[j] != 2 {
          break;
        }
        j := j + 1;
      }
      assert j == FirstPending(status) by { FirstPendingUnique(status, j); }
      if j != |status| {
        if queue {
          Load(j);
          QueueNext(old(status), i, j, status);
        }
      } else {
        calls := calls + 1;
      }
    }

    /** In queue mode the script that arrives is the one the queue was on,
        and the next pending one was not yet started. */
    lemma QueueAdvance(before: seq<nat>, i: nat, j: nat)
      requires |before| == |urls| && i < |before| && before[i] == 1
      requires forall k :: 0 <= k < |before| ==> before[k] <= 2
      requires var f := FirstPending(before);
               (forall k :: f < k < |before| ==> before[k] == 0) && (f < |before| ==> (before[f] == 1 <==> !IsStyle(urls[f])))
      requires j == FirstPending(before[i := 2]) && j < |before|
      ensures i == FirstPending(before) && i < j
      ensures forall k :: j <= k < |before| ==> before[k] == 0
    {
      var f := FirstPending(before);
      assert i >= f;
      assert i == f;
      FirstPendingUnique(before[i := 2], j);
    }

    /** The queue's shape after the next pending dependency is started:
        everything before it loaded, nothing after it started, and it is
        loading unless it is a style sheet. */
    lemma QueueNext(before: seq<nat>, i: nat, j: nat, after: seq<nat>)
      requires |before| == |urls| && i < |before| && before[i] == 1
      requires forall k :: 0 <= k < |before| ==> before[k] <= 2
      requires forall k :: 0 <= k < |urls| && IsStyle(urls[k]) ==> before[k] == 0
      requires var f := FirstPending(before);
               (forall k :: f < k < |before| ==> before[k] == 0) && (f < |before| ==> (before[f] == 1 <==> !IsStyle(urls[f])))
      requires j == FirstPending(before[i := 2]) && j < |before|
      requires after == if IsStyle(urls[j]) then before[i := 2] else before[i := 2][j := 1]
      ensures |after| == |urls| && FirstPending(after) == j && !AllLoaded(after)
      ensures forall k :: 0 <= k < |after| ==> after[k] <= 2
      ensures forall k :: 0 <= k < |urls| && IsStyle(urls[k]) ==> after[k] == 0
      ensures (forall k :: j < k < |after| ==> after[k] == 0) && (after[j] == 1 <==> !IsStyle(urls[j]))
    {
      QueueAdvance(before, i, j);
      FirstPendingUnique(after, j);
    }

    /** A style sheet in the list is never loaded, so the callback never runs. */
    lemma StyleStalls(k: nat)
      requires Valid() && given > 0 && k < |urls| && IsStyle(urls[k])
      ensures calls == 0 && status[k] == 0
    {
    }
  }

  /** `FirstPending` is the only index with all loaded before it and a
      pending one at it. */
  lemma FirstPendingUnique(status: seq<nat>, j: nat)
    requires j <= |status|
    requires forall k :: 0 <= k < j ==> status[k] == 2
    requires j < |status| ==> status[j] != 2
    ensures j == FirstPending(status)
  {
  }

}
