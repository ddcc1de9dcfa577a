/**
 * What the two tab scripts share: a tab link as a record of the attributes
 * they read and write, and the file name taken from `location.pathname`.
 */
module Page {
  import opened Wrappers

  /** One `.tab` element: its `href` and `data-tab` attributes, whether its class list holds `active`, and its `aria-current` attribute (None: absent). */
  datatype Tab = Tab(href: Option<string>, dataTab: Option<string>, active: bool, ariaCurrent: Option<string>)

  const DefaultFile: string := "index.html"

  lemma DefaultFileIsAFileName()
    ensures DefaultFile != "" && '/' !in DefaultFile
  {
    assert DefaultFile == ['i', 'n', 'd', 'e', 'x', '.', 'h', 't', 'm', 'l'];
  }

  /** `pathname.split("/").pop()`: the longest suffix without a slash. */
  function LastSegment(pathname: string): (r: string)
    ensures '/' !in r
    ensures |r| <= |pathname| && r == pathname[|pathname| - |r|..]
    ensures |r| < |pathname| ==> pathname[|pathname| - |r| - 1] == '/'
    decreases |pathname|
  {
    if |pathname| == 0 then ""
    else
      var n := |pathname| - 1;
      if pathname[n] == '/' then ""
      else LastSegment(pathname[..n]) + [pathname[n]]
  }

  /** `pathname.split("/").pop() || "index.html"` */
  function PagePath(pathname: string): (r: string)
    ensures r != "" && '/' !in r
    ensures LastSegment(pathname) != "" ==> r == LastSegment(pathname)
    ensures LastSegment(pathname) == "" ==> r == DefaultFile
  {
    DefaultFileIsAFileName();
    var segment := LastSegment(pathname);
    if segment == "" then DefaultFile else segment
  }

  /** The file name of `dir/file` is `file`. */
  lemma LastSegmentAfterSlash(dir: string, file: string)
    requires '/' !in file
    ensures LastSegment(dir + "/" + file) == file
  {
    var s := dir + "/" + file;
    var r := LastSegment(s);
    assert s[|dir|] == '/';
    assert s[|dir| + 1..] == file;
  }

  /** Labels (`href`, `data-tab`) agree tab by tab; only class and `aria-current` may differ. */
  predicate SameLabels(a: seq<Tab>, b: seq<Tab>) {
    |a| == |b| && forall k :: 0 <= k < |a| ==> a[k].href == b[k].href && a[k].dataTab == b[k].dataTab
  }
}
