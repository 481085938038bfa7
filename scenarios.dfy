/** Clients of the page lifecycle: a page with both a `data-url` and a
    `data-tpl` is requested by `init` and mounted only once both responses
    are in, whichever arrives first; and a page with an empty `data-data`
    renders it. */
module Scenarios {
  import opened Container
  import Attributes

  /** `init` on a page with a template and a data url, neither a script,
      issues the two ajax requests, template first, and counts both as
      required. The first response, whichever it is, leaves the page
      unloaded and its events and the log untouched; the second mounts it.
      `tplFirst` picks which response comes first. */
  method BothResponses(win: Window, p: Page, tplFirst: bool, body: string, marks: nat)
    returns (loadedAfterFirst: bool, loadedAfterSecond: bool)
    requires p.url != "" && p.tpl != "" && !IsScript(p.url) && !IsScript(p.tpl)
    requires !p.loaded && !p.wait && p.required == 0 && win.fetches == [] && body != ""
    modifies p, win
    ensures !loadedAfterFirst && loadedAfterSecond && win.fetches == [] && p.required == 0
  {
    Requested(win, p);
    ghost var log, event := win.log, p.event;
    var r1 := win.Arrive(if tplFirst then 0 else 1, body, marks);
    loadedAfterFirst := p.loaded;
    assert win.log == log && p.event == event;
    var r2 := win.Arrive(0, body, marks);
    loadedAfterSecond := p.loaded;
  }

  /** `init` on such a page: both requests in flight, nothing shown yet. */
  method Requested(win: Window, p: Page)
    requires p.url != "" && p.tpl != "" && !IsScript(p.url) && !IsScript(p.tpl)
    requires !p.loaded && p.required == 0 && win.fetches == []
    modifies p, win
    ensures !p.loaded && p.required == 2 && p.template == old(p.template)
    ensures win.fetches == [Ajax(p, p.tpl), Ajax(p, p.url)]
  {
    assert p.Sources() == [p.tpl, p.url];
    assert p.Requests(win.page, p.Sources()) == [Ajax(p, p.tpl), Ajax(p, p.url)] by {
      assert [p.tpl, p.url][1..] == [p.url];
      assert [p.url][1..] == [];
    }
    p.Init(win);
  }

  /** A page whose element sets `data-data=""` and nothing to fetch: its
      empty text is content, so `mount` renders it instead of throwing. */
  method EmptyDataMounts(win: Window) returns (r: Mounting)
    modifies win
    ensures r == Mounted
  {
    var p := new Page("p", map["data" := Attributes.Text("")], 0);
    assert p.data == Content("");
    r := p.Mount(win, Null, "", 0);
  }

  /** An address without ".js" is fetched by ajax. */
  lemma NotScript(url: string)
    requires forall i :: 0 <= i < |url| ==> url[i] != 'j'
    ensures !IsScript(url)
  {
    forall i | 0 <= i <= |url| - 3 ensures !ScriptAt(url, i) {
      assert url[i..i + 3][1] == url[i + 1];
    }
  }
}
