/**
 * The bottom-navigation handler: the lower-cased file name and hash choose
 * one of four tab names, then every `.nav .tab` is switched on or off by
 * its `data-tab`.
 */
module NavTabs {
  import opened Wrappers
  import opened Text
  import opened Page

  /** `(pathname.split("/").pop() || "index.html").toLowerCase()` */
  function NavFile(pathname: string): (f: string)
    ensures f != "" && '/' !in f
    ensures f == Lower(PagePath(pathname))
  {
    var f := Lower(PagePath(pathname));
    assert forall k :: 0 <= k < |f| ==> f[k] != '/' by {
      forall k | 0 <= k < |f| ensures f[k] != '/' {
        assert PagePath(pathname)[k] != '/';
      }
    }
    f
  }

  /** The `if`/`else` choice of `current` from the lower-cased file name and hash. */
  function CurrentTab(file: string, hash: string): (c: string)
    ensures c == "home" || c == "mine" || c == "wallet" || c == "profile"
    ensures c == "mine" <==> (file == "index.html" || file == "") && hash == "#mine"
    ensures c == "wallet" <==> file == "wallet.html"
    ensures c == "profile" <==> file == "profile.html"
  {
    if file == "index.html" || file == "" then (if hash == "#mine" then "mine" else "home")
    else if file == "wallet.html" then "wallet"
    else if file == "profile.html" then "profile"
    else "home"
  }

  /** The tab the handler selects for an address. */
  function NavCurrent(pathname: string, hash: string): (c: string)
    ensures c == "home" || c == "mine" || c == "wallet" || c == "profile"
    ensures c == "mine" <==> NavFile(pathname) == "index.html" && Lower(hash) == "#mine"
    ensures c == "home" <==>
      NavFile(pathname) !in {"wallet.html", "profile.html"} && !(NavFile(pathname) == "index.html" && Lower(hash) == "#mine")
  {
    CurrentTab(NavFile(pathname), Lower(hash))
  }

  /** File names and hashes are compared case-insensitively: "WALLET.HTML" selects the wallet tab. */
  lemma UpperCaseWallet()
    ensures NavCurrent("/app/WALLET.HTML", "") == "wallet"
  {
    var upper, lower := "WALLET.HTML", "wallet.html";
    assert upper == ['W', 'A', 'L', 'L', 'E', 'T', '.', 'H', 'T', 'M', 'L'];
    assert '/' !in upper;
    LastSegmentAfterSlash("/app", upper);
    assert "/app/WALLET.HTML" == "/app" + "/" + upper;
    LowerWallet();
  }

  lemma LowerWallet()
    ensures Lower("WALLET.HTML") == "wallet.html"
  {
    var r := Lower("WALLET.HTML");
    assert r[0] == 'w' && r[1] == 'a' && r[2] == 'l' && r[3] == 'l' && r[4] == 'e' && r[5] == 't';
    assert r[6] == '.' && r[7] == 'h' && r[8] == 't' && r[9] == 'm' && r[10] == 'l';
  }

  lemma UpperCaseMine()
    ensures NavCurrent("/app/", "#MINE") == "mine"
  {
    assert LastSegment("/app/") == "";
    assert Lower("#MINE") == "#mine";
  }

  /** The handler reads the address case-insensitively: lower-casing the pathname and hash first selects the same tab. */
  lemma NavCaseInsensitive(pathname: string, hash: string)
    ensures NavCurrent(pathname, hash) == NavCurrent(Lower(pathname), Lower(hash))
  {
    LastSegmentLower(pathname);
    var segment := LastSegment(pathname);
    if segment != "" {
      assert Lower(segment)[0] == LowerChar(segment[0]);
      LowerIdempotent(segment);
    } else {
      LowerIdempotent(DefaultFile);
    }
    assert NavFile(Lower(pathname)) == NavFile(pathname);
    LowerIdempotent(hash);
  }

  /** `split("/").pop()` commutes with lower-casing, since '/' is not a letter. */
  lemma {:induction false} LastSegmentLower(pathname: string)
    ensures LastSegment(Lower(pathname)) == Lower(LastSegment(pathname))
    decreases |pathname|
  {
    if |pathname| > 0 {
      var n := |pathname| - 1;
      var c := pathname[n];
      var lower := Lower(pathname);
      LowerCharSlash(c);
      if c != '/' {
        LastSegmentStep(pathname);
        LastSegmentStep(lower);
        LowerPrefix(pathname, n);
        LastSegmentLower(pathname[..n]);
        LowerSnoc(LastSegment(pathname[..n]), c);
      }
    }
  }

  /** One step of `LastSegment` on a pathname that does not end in '/'. */
  lemma LastSegmentStep(s: string)
    requires |s| > 0 && s[|s| - 1] != '/'
    ensures LastSegment(s) == LastSegment(s[..|s| - 1]) + [s[|s| - 1]]
  {
  }

  lemma LowerCharSlash(c: char)
    ensures LowerChar(c) == '/' <==> c == '/'
  {
  }

  lemma LowerPrefix(s: string, n: nat)
    requires n <= |s|
    ensures Lower(s)[..n] == Lower(s[..n])
  {
  }

  lemma LowerSnoc(s: string, c: char)
    ensures Lower(s + [c]) == Lower(s) + [LowerChar(c)]
  {
  }

  lemma LowerIdempotent(s: string)
    ensures Lower(Lower(s)) == Lower(s)
  {
  }

  /** The loop body applied to one tab. */
  function Switch(t: Tab, current: string): Tab {
    var on := t.dataTab == Some(current);
    t.(active := on, ariaCurrent := Some(if on then "page" else "false"))
  }

  function SwitchAll(tabs: seq<Tab>, current: string): seq<Tab> {
    seq(|tabs|, k requires 0 <= k < |tabs| => Switch(tabs[k], current))
  }

  /** After the loop exactly the tabs named `current` are active, and `aria-current` says "page" or "false" accordingly. */
  lemma SwitchAllSelects(tabs: seq<Tab>, current: string)
    ensures SameLabels(tabs, SwitchAll(tabs, current))
    ensures forall k :: 0 <= k < |tabs| ==> (SwitchAll(tabs, current)[k].active <==> tabs[k].dataTab == Some(current))
    ensures forall k :: 0 <= k < |tabs| ==>
      SwitchAll(tabs, current)[k].ariaCurrent == Some(if tabs[k].dataTab == Some(current) then "page" else "false")
  {
  }

  /** No tab outside the four names is ever switched on; an unrecognised file name switches on the home tabs. */
  lemma OnlyKnownTabsActive(tabs: seq<Tab>, pathname: string, hash: string, k: nat)
    requires k < |tabs|
    requires SwitchAll(tabs, NavCurrent(pathname, hash))[k].active
    ensures tabs[k].dataTab.Some?
    ensures tabs[k].dataTab.value in {"home", "mine", "wallet", "profile"}
    ensures NavFile(pathname) !in {"index.html", "wallet.html", "profile.html"} ==> tabs[k].dataTab == Some("home")
  {
    SwitchAllSelects(tabs, NavCurrent(pathname, hash));
  }

  /** Running the handler again leaves the tabs as they are. */
  lemma SwitchAllIdempotent(tabs: seq<Tab>, current: string)
    ensures SwitchAll(SwitchAll(tabs, current), current) == SwitchAll(tabs, current)
  {
  }

  /** The DOMContentLoaded handler, updating the tab elements in place. */
  method UpdateNavTabs(tabs: array<Tab>, pathname: string, hash: string)
    modifies tabs
    ensures tabs.Length == 0 ==> tabs[..] == old(tabs[..])
    ensures tabs[..] == SwitchAll(old(tabs[..]), NavCurrent(pathname, hash))
  {
    if tabs.Length == 0 {
      return;
    }
    var current := NavCurrent(pathname, hash);
    SwitchTabs(tabs, current);
  }

  /** The `forEach` over the tabs: each one is switched on iff its `data-tab` is `current`. */
  method SwitchTabs(tabs: array<Tab>, current: string)
    modifies tabs
    ensures tabs[..] == SwitchAll(old(tabs[..]), current)
  {
    for i := 0 to tabs.Length
      invariant forall k :: 0 <= k < i ==> tabs[k] == Switch(old(tabs[k]), current)
      invariant forall k :: i <= k < tabs.Length ==> tabs[k] == old(tabs[k])
    {
      var isActive := tabs[i].dataTab == Some(current);
      tabs[i] := tabs[i].(active := isActive, ariaCurrent := Some(if isActive then "page" else "false"));
    }
  }
}
