/**
 * `setActiveTab` of the main page script: clear `active` everywhere, mark the
 * first tab whose `href` equals the file name, otherwise fall back to the
 * "mine" tab for an `index.html#…` address.
 */
module AppTabs {
  import opened Wrappers
  import opened Text
  import opened Page

  /** `href && path === href` */
  predicate HrefMatches(t: Tab, path: string) {
    t.href.Some? && t.href.value != "" && t.href.value == path
  }

  /** The tab the second loop marks: the first one whose `href` matches. */
  function FirstHrefMatch(tabs: seq<Tab>, path: string): (r: Option<nat>)
    ensures r.Some? ==> r.value < |tabs| && HrefMatches(tabs[r.value], path)
    ensures r.Some? ==> forall j :: 0 <= j < r.value ==> !HrefMatches(tabs[j], path)
    ensures r.None? <==> forall j :: 0 <= j < |tabs| ==> !HrefMatches(tabs[j], path)
    decreases |tabs|
  {
    if |tabs| == 0 then None
    else if HrefMatches(tabs[0], path) then Some(0)
    else match FirstHrefMatch(tabs[1..], path)
      case None => None
      case Some(i) => Some(i + 1)
  }

  /** `document.querySelector('.tab[data-tab="<name>"]')`: the first tab with that `data-tab`. */
  function FirstTabNamed(tabs: seq<Tab>, name: string): (r: Option<nat>)
    ensures r.Some? ==> r.value < |tabs| && tabs[r.value].dataTab == Some(name)
    ensures r.Some? ==> forall j :: 0 <= j < r.value ==> tabs[j].dataTab != Some(name)
    ensures r.None? <==> forall j :: 0 <= j < |tabs| ==> tabs[j].dataTab != Some(name)
    decreases |tabs|
  {
    if |tabs| == 0 then None
    else if tabs[0].dataTab == Some(name) then Some(0)
    else match FirstTabNamed(tabs[1..], name)
      case None => None
      case Some(i) => Some(i + 1)
  }

  /** Marks a tab as the current page or clears it: class `active` and `aria-current="page"` go together. */
  function Mark(t: Tab, on: bool): Tab {
    t.(active := on, ariaCurrent := if on then Some("page") else None)
  }

  /** The tabs after both loops, given the index the second loop matched. */
  function AfterLoops(tabs: seq<Tab>, matched: Option<nat>): seq<Tab> {
    seq(|tabs|, k requires 0 <= k < |tabs| => Mark(tabs[k], matched == Some(k)))
  }

  /** The "mine" fallback's condition: nothing matched, a hash is present and the raw pathname ends with index.html. */
  predicate MineFallbackApplies(pathname: string, hash: string, matched: bool) {
    !matched && hash != "" && EndsWith(pathname, DefaultFile)
  }

  predicate AtMostOneActive(tabs: seq<Tab>) {
    forall i, j :: 0 <= i < |tabs| && 0 <= j < |tabs| && tabs[i].active && tabs[j].active ==> i == j
  }

  predicate AriaFollowsActive(tabs: seq<Tab>) {
    forall k :: 0 <= k < |tabs| ==> tabs[k].ariaCurrent == (if tabs[k].active then Some("page") else None)
  }

  predicate NoneActive(tabs: seq<Tab>) {
    forall k :: 0 <= k < |tabs| ==> !tabs[k].active
  }

  lemma AfterLoopsShape(tabs: seq<Tab>, matched: Option<nat>)
    ensures SameLabels(tabs, AfterLoops(tabs, matched))
    ensures AriaFollowsActive(AfterLoops(tabs, matched))
    ensures forall k :: 0 <= k < |tabs| ==> (AfterLoops(tabs, matched)[k].active <==> matched == Some(k))
    ensures matched.None? ==> NoneActive(AfterLoops(tabs, matched))
  {
  }

  /** The fallback's update: one tab gains class `active` and `aria-current="page"`. */
  function MarkAt(tabs: seq<Tab>, k: nat): seq<Tab>
    requires k < |tabs|
  {
    tabs[k := Mark(tabs[k], true)]
  }

  /** Marking one tab of a fully cleared list makes it the only active tab. */
  lemma MarkOnly(tabs: seq<Tab>, k: nat)
    requires k < |tabs| && NoneActive(tabs) && AriaFollowsActive(tabs)
    ensures SameLabels(tabs, MarkAt(tabs, k))
    ensures AriaFollowsActive(MarkAt(tabs, k))
    ensures forall j :: 0 <= j < |tabs| ==> (MarkAt(tabs, k)[j].active <==> j == k)
  {
  }

  /** The tabs `setActiveTab` leaves behind. */
  function ActiveTabs(tabs: seq<Tab>, pathname: string, hash: string): (r: seq<Tab>)
    ensures SameLabels(tabs, r)
    ensures AtMostOneActive(r) && AriaFollowsActive(r)
  {
    var m := FirstHrefMatch(tabs, PagePath(pathname));
    var after := AfterLoops(tabs, m);
    AfterLoopsShape(tabs, m);
    if MineFallbackApplies(pathname, hash, m.Some?) then
      match FirstTabNamed(after, "mine")
      case Some(k) =>
        MarkOnly(after, k);
        MarkAt(after, k)
      case None => after
    else after
  }

  /** With an href match, that tab alone is active and neither fallback touches anything. */
  lemma HrefMatchDecides(tabs: seq<Tab>, pathname: string, hash: string)
    ensures var m := FirstHrefMatch(tabs, PagePath(pathname));
      m.Some? ==>
        && ActiveTabs(tabs, pathname, hash) == AfterLoops(tabs, m)
        && forall k :: 0 <= k < |tabs| ==> (ActiveTabs(tabs, pathname, hash)[k].active <==> k == m.value)
  {
    var m := FirstHrefMatch(tabs, PagePath(pathname));
    if m.Some? {
      assert !MineFallbackApplies(pathname, hash, m.Some?);
      assert ActiveTabs(tabs, pathname, hash) == AfterLoops(tabs, m);
      AfterLoopsShape(tabs, m);
    }
  }

  /** Without an href match, a tab is active only through the "mine" fallback, and then it is the first "mine" tab. */
  lemma MineFallbackOnly(tabs: seq<Tab>, pathname: string, hash: string, k: nat)
    requires k < |tabs|
    ensures FirstHrefMatch(tabs, PagePath(pathname)).None? ==>
      (ActiveTabs(tabs, pathname, hash)[k].active <==>
        MineFallbackApplies(pathname, hash, false) && FirstTabNamed(tabs, "mine") == Some(k))
  {
    if FirstHrefMatch(tabs, PagePath(pathname)).None? {
      var after := AfterLoops(tabs, None);
      AfterLoopsShape(tabs, None);
      SameLabelsFirstTabNamed(tabs, after, "mine");
      var named := FirstTabNamed(after, "mine");
      if MineFallbackApplies(pathname, hash, false) && named.Some? {
        MarkOnly(after, named.value);
      }
    }
  }

  /** The "home" fallback (its `path === ""` or `path === "/"` test) can never fire. */
  lemma HomeFallbackUnreachable(pathname: string)
    ensures PagePath(pathname) != "" && PagePath(pathname) != "/"
  {
    assert "/"[0] == '/';
  }

  lemma SameLabelsFirstHrefMatch(a: seq<Tab>, b: seq<Tab>, path: string)
    requires SameLabels(a, b)
    ensures FirstHrefMatch(a, path) == FirstHrefMatch(b, path)
  {
    assert forall j :: 0 <= j < |a| ==> (HrefMatches(a[j], path) <==> HrefMatches(b[j], path));
  }

  lemma SameLabelsFirstTabNamed(a: seq<Tab>, b: seq<Tab>, name: string)
    requires SameLabels(a, b)
    ensures FirstTabNamed(a, name) == FirstTabNamed(b, name)
  {
    assert forall j :: 0 <= j < |a| ==> a[j].dataTab == b[j].dataTab;
  }

  /** Running `setActiveTab` again on its own result changes nothing. */
  lemma ActiveTabsIdempotent(tabs: seq<Tab>, pathname: string, hash: string)
    ensures ActiveTabs(ActiveTabs(tabs, pathname, hash), pathname, hash) == ActiveTabs(tabs, pathname, hash)
  {
    var r := ActiveTabs(tabs, pathname, hash);
    var path := PagePath(pathname);
    SameLabelsFirstHrefMatch(tabs, r, path);
    var m := FirstHrefMatch(tabs, path);
    SameLabelsAfterLoops(tabs, r, m);
  }

  /** The loops overwrite class and `aria-current`, so their result depends only on the labels. */
  lemma SameLabelsAfterLoops(a: seq<Tab>, b: seq<Tab>, m: Option<nat>)
    requires SameLabels(a, b)
    ensures AfterLoops(a, m) == AfterLoops(b, m)
  {
    assert forall k :: 0 <= k < |a| ==> Mark(a[k], m == Some(k)) == Mark(b[k], m == Some(k));
  }

  /** The handler itself, updating the tab elements in place. */
  method SetActiveTab(tabs: array<Tab>, pathname: string, hash: string)
    modifies tabs
    ensures tabs[..] == ActiveTabs(old(tabs[..]), pathname, hash)
  {
    var path := PagePath(pathname);
    var matched := ClearAndMatch(tabs, path);
    ghost var after := tabs[..];

    if !matched && hash != "" && EndsWith(pathname, DefaultFile) {
      assert MineFallbackApplies(pathname, hash, matched);
      var mine := FirstTabNamed(tabs[..], "mine");
      if mine.Some? {
        var k := mine.value;
        tabs[k] := tabs[k].(active := true, ariaCurrent := Some("page"));
        assert tabs[..] == MarkAt(after, k);
      }
    } else {
      assert !MineFallbackApplies(pathname, hash, matched);
    }

    if !matched && (path == "" || path == "/") {
      // the home fallback: PagePath is never empty and never contains '/'
      assert false;
    }
  }

  /** The two loops of the handler: clear `active` on every tab, then mark the first tab whose `href` matches. */
  method ClearAndMatch(tabs: array<Tab>, path: string) returns (matched: bool)
    modifies tabs
    ensures matched <==> FirstHrefMatch(old(tabs[..]), path).Some?
    ensures tabs[..] == AfterLoops(old(tabs[..]), FirstHrefMatch(old(tabs[..]), path))
  {
    ghost var original := tabs[..];
    ghost var m := FirstHrefMatch(original, path);

    var i := 0;
    while i < tabs.Length
      invariant 0 <= i <= tabs.Length
      invariant forall k :: 0 <= k < i ==> tabs[k] == original[k].(active := false)
      invariant forall k :: i <= k < tabs.Length ==> tabs[k] == original[k]
    {
      tabs[i] := tabs[i].(active := false);
      i := i + 1;
    }

    matched := false;
    i := 0;
    while i < tabs.Length
      invariant 0 <= i <= tabs.Length
      invariant matched <==> m.Some? && m.value < i
      invariant forall k :: 0 <= k < i ==> tabs[k] == Mark(original[k], m == Some(k))
      invariant forall k :: i <= k < tabs.Length ==> tabs[k] == original[k].(active := false)
    {
      var href := tabs[i].href;
      if !matched && href.Some? && href.value != "" && path == href.value {
        assert HrefMatches(original[i], path);
        tabs[i] := tabs[i].(active := true, ariaCurrent := Some("page"));
        matched := true;
      } else {
        tabs[i] := tabs[i].(ariaCurrent := None);
      }
      i := i + 1;
    }
    assert tabs[..] == AfterLoops(original, m);
  }
}
