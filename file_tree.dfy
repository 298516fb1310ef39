/**
 * The sidebar file tree (src/components/sidebar/file-tree.tsx): a directory
 * listing with hidden names dropped and directories first, the expand toggle
 * by path (`updateNodes` / `updateWithChildren`) and the search filter
 * `filterFiles`.
 */
module FileTree {
  import opened Wrappers
  import opened JsString

  /** One `readDir` entry. */
  datatype Entry = Entry(name: string, isDirectory: bool, path: string)

  /** A tree node; `children` and `expanded` are always set by this component. */
  datatype Node = Node(name: string, isDirectory: bool, path: string, children: seq<Node>, expanded: bool)

  // ---------------------------------------------------------------------------
  // Listing: filter, sort, map
  // ---------------------------------------------------------------------------

  predicate Hidden(e: Entry) {
    StartsWith(e.name, ".")
  }

  /** `entries.filter(entry => !entry.name.startsWith('.'))` */
  function Visible(es: seq<Entry>): (r: seq<Entry>)
    ensures |r| <= |es|
    ensures forall k :: 0 <= k < |r| ==> r[k] in es && !Hidden(r[k])
    ensures forall k :: 0 <= k < |es| && !Hidden(es[k]) ==> es[k] in r
    decreases |es|
  {
    if |es| == 0 then []
    else
      var rest := Visible(es[1..]);
      assert forall j :: 0 <= j < |es| - 1 ==> es[1..][j] == es[j + 1];
      if !Hidden(es[0]) then
        var r := [es[0]] + rest;
        assert forall k :: 1 <= k < |r| ==> r[k] == rest[k - 1];
        r
      else rest
  }

  /** Code-unit order on names, standing for `localeCompare`. */
  predicate NameLe(a: string, b: string)
    decreases |a|
  {
    |a| == 0 || (|b| > 0 && (a[0] < b[0] || (a[0] == b[0] && NameLe(a[1..], b[1..]))))
  }

  lemma {:induction false} NameLeTotal(a: string, b: string)
    ensures NameLe(a, b) || NameLe(b, a)
    decreases |a|
  {
    if |a| > 0 && |b| > 0 && a[0] == b[0] {
      NameLeTotal(a[1..], b[1..]);
    }
  }

  lemma {:induction false} NameLeTrans(a: string, b: string, c: string)
    requires NameLe(a, b) && NameLe(b, c)
    ensures NameLe(a, c)
    decreases |a|
  {
    if |a| > 0 && a[0] == b[0] && b[0] == c[0] {
      NameLeTrans(a[1..], b[1..], c[1..]);
    }
  }

  /** The sort comparator: a directory before a file, otherwise by name. */
  predicate Before(a: Entry, b: Entry) {
    if a.isDirectory != b.isDirectory then a.isDirectory else NameLe(a.name, b.name)
  }

  lemma BeforeTotal(a: Entry, b: Entry)
    ensures Before(a, b) || Before(b, a)
  {
    NameLeTotal(a.name, b.name);
  }

  lemma BeforeTrans(a: Entry, b: Entry, c: Entry)
    requires Before(a, b) && Before(b, c)
    ensures Before(a, c)
  {
    if a.isDirectory == b.isDirectory && b.isDirectory == c.isDirectory {
      NameLeTrans(a.name, b.name, c.name);
    }
  }

  predicate Sorted(s: seq<Entry>) {
    forall i, j :: 0 <= i < j < |s| ==> Before(s[i], s[j])
  }

  /** Insertion of one entry into a sorted listing. */
  function Insert(x: Entry, s: seq<Entry>): seq<Entry>
    decreases |s|
  {
    if |s| == 0 then [x]
    else if Before(x, s[0]) then [x] + s
    else [s[0]] + Insert(x, s[1..])
  }

  lemma {:induction false} InsertSorted(x: Entry, s: seq<Entry>)
    requires Sorted(s)
    ensures Sorted(Insert(x, s))
    decreases |s|
  {
    if |s| == 0 {
    } else if Before(x, s[0]) {
      forall j | 0 <= j < |s| ensures Before(x, s[j]) {
        if j > 0 {
          BeforeTrans(x, s[0], s[j]);
        }
      }
      SortedCons(x, s);
    } else {
      BeforeTotal(x, s[0]);
      var t := s[1..];
      assert Sorted(t) by {
        forall i, j | 0 <= i < j < |t| ensures Before(t[i], t[j]) {
          assert t[i] == s[i + 1] && t[j] == s[j + 1];
        }
      }
      InsertSorted(x, t);
      SortInsertPermutes(x, t);
      var it := Insert(x, t);
      forall j | 0 <= j < |it| ensures Before(s[0], it[j]) {
        assert it[j] in multiset(it);
        if it[j] != x {
          assert it[j] in multiset(t);
          var m :| 0 <= m < |t| && t[m] == it[j];
          assert s[m + 1] == t[m];
        }
      }
      SortedCons(s[0], it);
    }
  }

  /** An entry that comes before every entry of a sorted listing can head it. */
  lemma SortedCons(y: Entry, t: seq<Entry>)
    requires Sorted(t) && forall j :: 0 <= j < |t| ==> Before(y, t[j])
    ensures Sorted([y] + t)
  {
    var r := [y] + t;
    forall i, j | 0 <= i < j < |r| ensures Before(r[i], r[j]) {
      assert r[j] == t[j - 1];
      if i > 0 {
        assert r[i] == t[i - 1];
      }
    }
  }

  /** `.sort(...)` with the comparator, as an insertion sort. */
  function SortEntries(es: seq<Entry>): (r: seq<Entry>)
    decreases |es|
  {
    if |es| == 0 then [] else Insert(es[0], SortEntries(es[1..]))
  }

  /** The sort only reorders the entries. */
  lemma {:induction false} SortEntriesPermutes(es: seq<Entry>)
    ensures multiset(SortEntries(es)) == multiset(es)
    decreases |es|
  {
    if |es| > 0 {
      SortEntriesPermutes(es[1..]);
      SortInsertPermutes(es[0], SortEntries(es[1..]));
      assert es == [es[0]] + es[1..];
    }
  }

  lemma {:induction false} SortInsertPermutes(x: Entry, s: seq<Entry>)
    ensures multiset(Insert(x, s)) == multiset(s) + multiset{x}
    decreases |s|
  {
    if |s| > 0 && !Before(x, s[0]) {
      SortInsertPermutes(x, s[1..]);
      assert s == [s[0]] + s[1..];
    }
  }

  /** The sort leaves the entries in comparator order. */
  lemma {:induction false} SortEntriesSorted(es: seq<Entry>)
    ensures Sorted(SortEntries(es))
    decreases |es|
  {
    if |es| > 0 {
      SortEntriesSorted(es[1..]);
      InsertSorted(es[0], SortEntries(es[1..]));
    }
  }

  /** `.map(entry => ({ ..., expanded: false, children: [] }))` */
  function NewNode(e: Entry): (n: Node)
    ensures n.name == e.name && n.isDirectory == e.isDirectory && n.path == e.path
    ensures n.children == [] && !n.expanded
  {
    Node(e.name, e.isDirectory, e.path, [], false)
  }

  /** The nodes of one `readDir` result. */
  function Listing(es: seq<Entry>): (r: seq<Node>)
    ensures |r| == |SortEntries(Visible(es))|
    ensures forall k :: 0 <= k < |r| ==> r[k] == NewNode(SortEntries(Visible(es))[k])
  {
    var s := SortEntries(Visible(es));
    seq(|s|, k requires 0 <= k < |s| => NewNode(s[k]))
  }

  /**
   * A listing shows exactly the visible entries, each as a collapsed node
   * with no children, directories before files and each group by name.
   */
  lemma ListingShape(es: seq<Entry>)
    ensures forall e :: e in es && !Hidden(e) ==> NewNode(e) in Listing(es)
    ensures forall k :: 0 <= k < |Listing(es)| ==>
      (!StartsWith(Listing(es)[k].name, ".") && Listing(es)[k].children == [] && !Listing(es)[k].expanded)
    ensures forall i, j :: 0 <= i < j < |Listing(es)| && Listing(es)[j].isDirectory ==> Listing(es)[i].isDirectory
    ensures forall i, j :: 0 <= i < j < |Listing(es)| && Listing(es)[i].isDirectory == Listing(es)[j].isDirectory ==>
      NameLe(Listing(es)[i].name, Listing(es)[j].name)
  {
    var v := Visible(es);
    var s := SortEntries(v);
    var r := Listing(es);
    SortEntriesPermutes(v);
    SortEntriesSorted(v);
    forall e | e in es && !Hidden(e) ensures NewNode(e) in r {
      assert e in multiset(v);
      assert e in multiset(s);
      var m :| 0 <= m < |s| && s[m] == e;
      assert r[m] == NewNode(e);
    }
    forall k | 0 <= k < |r| ensures !StartsWith(r[k].name, ".") {
      assert s[k] in multiset(s);
      assert s[k] in multiset(v);
    }
    forall i, j | 0 <= i < j < |r| && r[j].isDirectory ensures r[i].isDirectory {
      assert Before(s[i], s[j]);
    }
    forall i, j | 0 <= i < j < |r| && r[i].isDirectory == r[j].isDirectory ensures NameLe(r[i].name, r[j].name) {
      assert Before(s[i], s[j]);
    }
  }

  // ---------------------------------------------------------------------------
  // toggleDirectory
  // ---------------------------------------------------------------------------

  /** `updateNodes`: flip `expanded` on a node with the path, else look inside its children. */
  function UpdateNode(n: Node, path: string): (r: Node)
    ensures r.name == n.name && r.isDirectory == n.isDirectory && r.path == n.path
    ensures n.path == path ==> r == n.(expanded := !n.expanded)
    ensures n.path != path ==> r == n.(children := UpdateNodes(n.children, path))
    decreases n, 0
  {
    if n.path == path then n.(expanded := !n.expanded) else n.(children := UpdateNodes(n.children, path))
  }

  /** `nodes.map(...)` of `updateNodes`. */
  function UpdateNodes(ns: seq<Node>, path: string): (r: seq<Node>)
    ensures |r| == |ns|
    decreases ns, 1
  {
    if |ns| == 0 then [] else [UpdateNode(ns[0], path)] + UpdateNodes(ns[1..], path)
  }

  lemma {:induction false} UpdateNodesAt(ns: seq<Node>, path: string, k: nat)
    requires k < |ns|
    ensures UpdateNodes(ns, path)[k] == UpdateNode(ns[k], path)
    decreases k
  {
    if k > 0 {
      UpdateNodesAt(ns[1..], path, k - 1);
    }
  }

  /** Every path in a forest, at any depth. */
  function Paths(ns: seq<Node>): set<string>
    decreases ns
  {
    if |ns| == 0 then {} else {ns[0].path} + Paths(ns[0].children) + Paths(ns[1..])
  }

  /** Toggling a path that occurs nowhere changes nothing. */
  lemma {:induction false} UpdateAbsent(ns: seq<Node>, path: string)
    requires path !in Paths(ns)
    ensures UpdateNodes(ns, path) == ns
    decreases ns
  {
    if |ns| > 0 {
      UpdateAbsent(ns[0].children, path);
      UpdateAbsent(ns[1..], path);
      assert ns == [ns[0]] + ns[1..];
    }
  }

  /** Toggling the same path twice restores the tree. */
  lemma {:induction false} UpdateTwice(ns: seq<Node>, path: string)
    ensures UpdateNodes(UpdateNodes(ns, path), path) == ns
    decreases ns
  {
    if |ns| > 0 {
      var n := ns[0];
      if n.path != path {
        UpdateTwice(n.children, path);
      }
      UpdateTwice(ns[1..], path);
      assert ns == [ns[0]] + ns[1..];
    }
  }

  /** Toggling keeps the paths of the tree. */
  lemma {:induction false} UpdateKeepsPaths(ns: seq<Node>, path: string)
    ensures Paths(UpdateNodes(ns, path)) == Paths(ns)
    decreases ns
  {
    if |ns| > 0 {
      if ns[0].path != path {
        UpdateKeepsPaths(ns[0].children, path);
      }
      UpdateKeepsPaths(ns[1..], path);
    }
  }

  /** `updateWithChildren`: a node with the path gets the loaded children and is flipped; others are looked into. */
  function InstallNode(n: Node, path: string, children: seq<Node>): (r: Node)
    ensures r.name == n.name && r.isDirectory == n.isDirectory && r.path == n.path
    ensures n.path == path ==> r == n.(expanded := !n.expanded, children := children)
    ensures n.path != path ==> r == n.(children := InstallNodes(n.children, path, children))
    decreases n, 0
  {
    if n.path == path then n.(expanded := !n.expanded, children := children)
    else n.(children := InstallNodes(n.children, path, children))
  }

  function InstallNodes(ns: seq<Node>, path: string, children: seq<Node>): (r: seq<Node>)
    ensures |r| == |ns|
    decreases ns, 1
  {
    if |ns| == 0 then [] else [InstallNode(ns[0], path, children)] + InstallNodes(ns[1..], path, children)
  }

  lemma {:induction false} InstallNodesAt(ns: seq<Node>, path: string, children: seq<Node>, k: nat)
    requires k < |ns|
    ensures InstallNodes(ns, path, children)[k] == InstallNode(ns[k], path, children)
    decreases k
  {
    if k > 0 {
      InstallNodesAt(ns[1..], path, children, k - 1);
    }
  }

  /** Installing no children is the plain toggle. */
  lemma {:induction false} InstallEmptyIsUpdate(ns: seq<Node>, path: string)
    requires forall n :: n in ns ==> n.children == []
    ensures InstallNodes(ns, path, []) == UpdateNodes(ns, path)
    decreases ns
  {
    if |ns| > 0 {
      assert ns[0] in ns;
      forall n | n in ns[1..] ensures n.children == [] {
        assert n in ns;
      }
      InstallEmptyIsUpdate(ns[1..], path);
    }
  }

  // ---------------------------------------------------------------------------
  // filterFiles
  // ---------------------------------------------------------------------------

  predicate NameMatches(n: Node, query: string) {
    Contains(ToLower(n.name), query)
  }

  /** What one turn of the `filterFiles` loop pushes for a node: the node, its pruned, expanded copy, or nothing. */
  function KeepOne(n: Node, query: string): (r: seq<Node>)
    ensures |r| <= 1
    decreases n, 0
  {
    if NameMatches(n, query) then [n]
    else if n.isDirectory && |Filter(n.children, query)| > 0 then [n.(children := Filter(n.children, query), expanded := true)]
    else []
  }

  /** What `filterFiles` returns for a forest: what each node pushes, in order. */
  function Filter(ns: seq<Node>, query: string): (r: seq<Node>)
    ensures |r| <= |ns|
    decreases ns, 1
  {
    if |ns| == 0 then [] else KeepOne(ns[0], query) + Filter(ns[1..], query)
  }

  /** A node matches or has a matching node below it. */
  predicate Relevant(n: Node, query: string)
    decreases n
  {
    NameMatches(n, query) || exists k :: 0 <= k < |n.children| && Relevant(n.children[k], query)
  }

  /** Every node kept by the filter matches or has a matching descendant. */
  lemma {:induction false} FilterRelevant(ns: seq<Node>, query: string)
    ensures forall k :: 0 <= k < |Filter(ns, query)| ==> Relevant(Filter(ns, query)[k], query)
    decreases ns
  {
    if |ns| > 0 {
      var n := ns[0];
      var head := KeepOne(n, query);
      var rest := Filter(ns[1..], query);
      FilterRelevant(ns[1..], query);
      if |head| == 1 && !NameMatches(n, query) {
        var fc := Filter(n.children, query);
        FilterRelevant(n.children, query);
        assert head[0].children == fc;
        assert Relevant(fc[0], query);
      }
      var r := Filter(ns, query);
      forall k | 0 <= k < |r| ensures Relevant(r[k], query) {
        if k < |head| {
          assert r[k] == head[k];
        } else {
          assert r[k] == rest[k - |head|];
        }
      }
    }
  }

  /** No node of the forest, at any depth, has a matching name. */
  predicate NoneMatch(ns: seq<Node>, query: string)
    decreases ns
  {
    forall k :: 0 <= k < |ns| ==> !NameMatches(ns[k], query) && NoneMatch(ns[k].children, query)
  }

  /** A forest without a matching name filters to nothing. */
  lemma {:induction false} FilterNoneMatch(ns: seq<Node>, query: string)
    requires NoneMatch(ns, query)
    ensures Filter(ns, query) == []
    decreases ns
  {
    if |ns| > 0 {
      FilterNoneMatch(ns[0].children, query);
      assert forall k :: 0 <= k < |ns| - 1 ==> ns[1..][k] == ns[k + 1];
      FilterNoneMatch(ns[1..], query);
    }
  }

  /** Filtering twice with the same query is filtering once. */
  lemma {:induction false} FilterIdempotent(ns: seq<Node>, query: string)
    ensures Filter(Filter(ns, query), query) == Filter(ns, query)
    decreases ns
  {
    if |ns| > 0 {
      var n := ns[0];
      var head := KeepOne(n, query);
      var rest := Filter(ns[1..], query);
      FilterIdempotent(ns[1..], query);
      if |head| == 1 && !NameMatches(n, query) {
        FilterIdempotent(n.children, query);
      }
      FilterAppend(head, rest, query);
      if |head| == 1 {
        assert Filter(head, query) == KeepOne(head[0], query) + Filter([], query);
      }
    }
  }

  /** The filter of a concatenation is the concatenation of the filters. */
  lemma {:induction false} FilterAppend(a: seq<Node>, b: seq<Node>, query: string)
    ensures Filter(a + b, query) == Filter(a, query) + Filter(b, query)
    decreases |a|
  {
    if |a| == 0 {
      assert a + b == b;
    } else {
      assert (a + b)[0] == a[0] && (a + b)[1..] == a[1..] + b;
      FilterAppend(a[1..], b, query);
    }
  }

  /** The filter of the nodes from `i` on: what node `i` pushes, then the filter of the rest. */
  lemma FilterFrom(nodes: seq<Node>, i: nat, query: string)
    requires i < |nodes|
    ensures Filter(nodes[i..], query) == KeepOne(nodes[i], query) + Filter(nodes[i + 1..], query)
  {
    assert nodes[i..][0] == nodes[i] && nodes[i..][1..] == nodes[i + 1..];
  }

  lemma AppendAssoc(a: seq<Node>, b: seq<Node>, c: seq<Node>)
    ensures a + (b + c) == (a + b) + c
  {
  }

  /** `filterFiles`: the `for` loop pushing kept nodes into `result`, recursing into directories. */
  method FilterFiles(nodes: seq<Node>, query: string) returns (result: seq<Node>)
    ensures result == Filter(nodes, query)
    decreases nodes
  {
    result := [];
    var i := 0;
    while i < |nodes|
      invariant 0 <= i <= |nodes|
      invariant result + Filter(nodes[i..], query) == Filter(nodes, query)
    {
      var node := nodes[i];
      FilterFrom(nodes, i, query);
      var pushed: seq<Node> := [];
      if Contains(ToLower(node.name), query) {
        pushed := [node];
      } else if node.isDirectory {
        var filteredChildren := FilterFiles(node.children, query);
        if |filteredChildren| > 0 {
          pushed := [node.(children := filteredChildren, expanded := true)];
        }
      }
      assert pushed == KeepOne(node, query);
      AppendAssoc(result, pushed, Filter(nodes[i + 1..], query));
      result := result + pushed;
      i := i + 1;
    }
    assert nodes[i..] == [];
  }

  /** `filteredFiles`: the filter runs on the lower-cased query, and only for a non-empty one. */
  function FilteredFiles(files: seq<Node>, searchQuery: string): (r: seq<Node>)
    ensures searchQuery == "" ==> r == files
    ensures searchQuery != "" ==> r == Filter(files, ToLower(searchQuery))
  {
    if searchQuery == "" then files else Filter(files, ToLower(searchQuery))
  }

  // ---------------------------------------------------------------------------
  // The component's state
  // ---------------------------------------------------------------------------

  class Tree {
    var files: seq<Node>

    constructor ()
      ensures files == []
    {
      files := [];
    }

    /** `loadFiles`: nothing without the Electron API, else the listing replaces the tree. */
    method LoadFiles(entries: Option<seq<Entry>>)
      modifies this
      ensures entries.None? ==> files == old(files)
      ensures entries.Some? ==> files == Listing(entries.value)
    {
      if entries.Some? {
        files := Listing(entries.value);
      }
    }

    /**
     * `toggleDirectory`: a file does nothing; a directory shown with no
     * children has its loaded listing installed (when `readDir` answered),
     * otherwise its `expanded` flag is flipped.
     */
    method ToggleDirectory(node: Node, entries: Option<seq<Entry>>)
      modifies this
      ensures !node.isDirectory ==> files == old(files)
      ensures node.isDirectory && |node.children| == 0 ==>
        files == (if entries.Some? then InstallNodes(old(files), node.path, Listing(entries.value)) else old(files))
      ensures node.isDirectory && |node.children| > 0 ==> files == UpdateNodes(old(files), node.path)
    {
      if !node.isDirectory {
        return;
      }
      if |node.children| == 0 {
        if entries.Some? {
          var children := Listing(entries.value);
          files := InstallNodes(files, node.path, children);
        }
      } else {
        files := UpdateNodes(files, node.path);
      }
    }
  }
}
