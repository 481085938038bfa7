/** The text a page is known by in the address bar. `add` turns a page's
    marker string into an anchored regular expression (flip.js:173-174),
    `mark` writes the current page's marker into `location.hash`
    (flip.js:259-262) and `marker` reads it back (flip.js:268-270). */
module Markers {

  datatype Option<T> = None | Some(value: T)

  /** A page's `marker` property: the string a page element declares, or
      the regular expression `add` made of it, kept as its `source`. */
  datatype Marker = Literal(s: string) | Regex(source: string)

  /** `s.replace(/\//g, '\\/')`: a backslash before every slash. */
  function Escape(s: string): (e: string)
    ensures |e| >= |s|
  {
    if s == [] then []
    else (if s[0] == '/' then "\\/" else [s[0]]) + Escape(s[1..])
  }

  /** `'^' + Escape(s) + '$'`, the source of the expression `add` builds. */
  function Pattern(s: string): string {
    "^" + Escape(s) + "$"
  }

  /** What `add` leaves in `page.marker`. */
  function Compile(m: Marker): (r: Marker)
    ensures r.Regex?
    ensures m.Regex? ==> r == m
  {
    match m
    case Literal(s) => Regex(Pattern(s))
    case Regex(_) => m
  }

  /** `.replace(/\\/g, '')`: every backslash removed. */
  function Unescape(s: string): (u: string)
    ensures '\\' !in u
    ensures |u| <= |s|
  {
    if s == [] then []
    else (if s[0] == '\\' then [] else [s[0]]) + Unescape(s[1..])
  }

  /** `marker.toString()`: a regular expression prints as `'/' + source + '/'`,
      a string (a page that was never added) as itself. */
  function Shown(m: Marker): string {
    match m
    case Regex(source) => "/" + source + "/"
    case Literal(s) => s
  }

  /** `.slice(2, -2)`: the first two and the last two characters dropped. */
  function Slice(shown: string): string {
    if |shown| >= 4 then shown[2..|shown| - 2] else ""
  }

  /** The text `mark` derives from a page's marker. */
  function Text(m: Marker): string {
    Unescape(Slice(Shown(m)))
  }

  /** The marker `mark` writes: its argument, else the page's `mask`, else
      the text of the page's marker expression (the three-way `||`). */
  function Chosen(arg: string, mask: string, marker: Marker): (r: string)
    ensures arg != "" ==> r == arg
    ensures arg == "" && mask != "" ==> r == mask
    ensures arg == "" && mask == "" ==> r == Text(marker)
  {
    if arg != "" then arg else if mask != "" then mask else Text(marker)
  }

  /** Assigning `location.hash = v` stores `v` without one leading '#'. */
  function Assign(v: string): (fragment: string)
    ensures v != [] && v[0] == '#' ==> fragment == v[1..]
    ensures (v == [] || v[0] != '#') ==> fragment == v
  {
    if v != [] && v[0] == '#' then v[1..] else v
  }

  /** `s.replace(/\/+/, '/')`: only the FIRST run of slashes becomes one slash
      (the expression has no `g` flag). */
  function Collapse(s: string): string {
    if s == [] then []
    else if s[0] == '/' then "/" + DropSlashes(s[1..])
    else [s[0]] + Collapse(s[1..])
  }

  function DropSlashes(s: string): (r: string)
    ensures r == [] || r[0] != '/'
    ensures |r| <= |s|
  {
    if s != [] && s[0] == '/' then DropSlashes(s[1..]) else s
  }

  /** `location.hash.substr(1).replace(/\/+/, '/') || null`, where the hash
      reads as '#' followed by the stored fragment (or "" when it is empty). */
  function Read(fragment: string): Option<string> {
    var c := Collapse(fragment);
    if c == "" then None else Some(c)
  }

  /** No two slashes in a row: the markers `marker()` reads back unchanged. */
  predicate Single(s: string) {
    forall i :: 0 <= i < |s| - 1 ==> !(s[i] == '/' && s[i + 1] == '/')
  }

  // ----- the regular expression built by add, and the text mark derives -----

  /** Undoes `Escape`: a backslash followed by a slash is a slash. */
  function Unslash(e: string): string {
    if |e| >= 2 && e[0] == '\\' && e[1] == '/' then "/" + Unslash(e[2..])
    else if e == [] then []
    else [e[0]] + Unslash(e[1..])
  }

  lemma {:induction false} EscapeHead(s: string)
    ensures Escape(s) != [] ==> Escape(s)[0] != '/'
  {
  }

  /** Escaping loses nothing: different markers give different expressions. */
  lemma {:induction false} UnslashEscape(s: string)
    ensures Unslash(Escape(s)) == s
  {
    if s != [] {
      var e := Escape(s);
      var tail := Escape(s[1..]);
      UnslashEscape(s[1..]);
      if s[0] == '/' {
        assert e == "\\/" + tail;
        assert e[2..] == tail;
      } else {
        assert e == [s[0]] + tail;
        assert e[1..] == tail;
        EscapeHead(s[1..]);
        if s[0] == '\\' && |e| >= 2 {
          assert e[1] == tail[0];
        }
      }
    }
  }

  lemma EscapeInjective(a: string, b: string)
    ensures Pattern(a) == Pattern(b) ==> a == b
  {
    if Pattern(a) == Pattern(b) {
      var pa, pb := Pattern(a), Pattern(b);
      assert Escape(a) == pa[1..|pa| - 1];
      assert Escape(b) == pb[1..|pb| - 1];
      UnslashEscape(a);
      UnslashEscape(b);
    }
  }

  /** `page.match(m)` on an added page, reading its expression literally:
      it accepts exactly the string the page element declared. */
  lemma MatchLiteral(s: string, m: string)
    ensures Compile(Literal(s)) == Regex(Pattern(m)) <==> s == m
  {
    EscapeInjective(s, m);
  }

  /** Removing backslashes after escaping slashes is removing backslashes. */
  lemma {:induction false} UnescapeEscape(s: string)
    ensures Unescape(Escape(s)) == Unescape(s)
  {
    if s != [] {
      UnescapeEscape(s[1..]);
      UnescapeConcat(if s[0] == '/' then "\\/" else [s[0]], Escape(s[1..]));
      assert Unescape([s[0]]) == (if s[0] == '\\' then [] else [s[0]]) by {
        assert [s[0]][1..] == [];
      }
      assert Unescape(s) == Unescape([s[0]]) + Unescape(s[1..]);
      assert Unescape("\\/") == "/" by {
        assert "\\/"[1..] == "/";
        assert "/"[1..] == [];
      }
    }
  }

  lemma {:induction false} UnescapeConcat(a: string, b: string)
    ensures Unescape(a + b) == Unescape(a) + Unescape(b)
  {
    if a == [] {
      assert a + b == b;
    } else {
      assert (a + b)[1..] == a[1..] + b;
      UnescapeConcat(a[1..], b);
    }
  }

  lemma {:induction false} UnescapePlain(s: string)
    ensures Unescape(s) == s <==> '\\' !in s
  {
    if s != [] {
      UnescapePlain(s[1..]);
      if s[0] == '\\' {
        assert |Unescape(s)| <= |s[1..]| < |s|;
      } else {
        assert s == [s[0]] + s[1..];
      }
    }
  }

  /** `mark` with no argument and no mask writes back the string the page
      element declared, less its backslashes. */
  lemma TextOfPattern(s: string)
    ensures Text(Compile(Literal(s))) == Unescape(s)
    ensures '\\' !in s ==> Text(Compile(Literal(s))) == s
  {
    var shown := Shown(Compile(Literal(s)));
    assert shown == "/^" + Escape(s) + "$/";
    assert Slice(shown) == Escape(s);
    UnescapeEscape(s);
    UnescapePlain(s);
  }

  // ----- location.hash -----

  lemma {:induction false} CollapseEmpty(s: string)
    ensures Collapse(s) == [] <==> s == []
  {
  }

  /** A marker without doubled slashes is read back unchanged. */
  lemma {:induction false} CollapseSingle(s: string)
    requires Single(s)
    ensures Collapse(s) == s
  {
    if s != [] {
      assert Single(s[1..]) by {
        forall i | 0 <= i < |s[1..]| - 1 ensures !(s[1..][i] == '/' && s[1..][i + 1] == '/') {
          assert s[1..][i] == s[i + 1] && s[1..][i + 1] == s[i + 2];
        }
      }
      if s[0] == '/' {
        assert s[1..] == [] || s[1..][0] != '/' by {
          if |s| >= 2 { assert s[1..][0] == s[1]; }
        }
        assert DropSlashes(s[1..]) == s[1..];
        assert s == "/" + s[1..];
      } else {
        CollapseSingle(s[1..]);
        assert s == [s[0]] + s[1..];
      }
    }
  }

  /** Reading twice gives what reading once gives: after the first run is
      collapsed, the first run has one slash. */
  lemma {:induction false} CollapseIdempotent(s: string)
    ensures Collapse(Collapse(s)) == Collapse(s)
  {
    if s != [] {
      if s[0] == '/' {
        var d := DropSlashes(s[1..]);
        var c := "/" + d;
        assert c[0] == '/' && c[1..] == d;
        assert DropSlashes(d) == d;
      } else {
        CollapseIdempotent(s[1..]);
        var c := [s[0]] + Collapse(s[1..]);
        assert c[0] == s[0] && c[1..] == Collapse(s[1..]);
      }
    }
  }

  /** Only the first run is collapsed: a later doubled slash survives. */
  lemma FirstRunOnly()
    ensures Collapse("a//b//c") == "a/b//c"
  {
    assert "a//b//c"[1..] == "//b//c";
    assert "//b//c"[1..] == "/b//c";
    assert DropSlashes("/b//c") == "b//c" by {
      assert "/b//c"[1..] == "b//c";
    }
  }

  /** What `mark` writes, `marker` reads back, for a marker that does not
      start with '#' and has no doubled slash; an empty hash reads as null. */
  lemma MarkRoundTrip(m: string)
    requires m != "" && m[0] != '#' && Single(m)
    ensures Read(Assign(m)) == Some(m)
  {
    CollapseSingle(m);
  }

  lemma ReadEmpty(fragment: string)
    ensures Read(fragment) == None <==> fragment == ""
  {
    CollapseEmpty(fragment);
  }

  /** A '#' written at the front is not part of the marker read back. */
  lemma MarkHash(m: string)
    requires m != "" && Single(m)
    ensures Read(Assign("#" + m)) == Some(m)
  {
    assert ("#" + m)[1..] == m;
    CollapseSingle(m);
  }
}
