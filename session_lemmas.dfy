/**
  Properties of routing a URI to a view: the rule `bestView` implements determines
  the view, the views `viewsOf` reports keep registration order and include the
  routed view, and the consequences of the raw string prefix test and of the
  tie-breaking rule on concrete folders.
 */
module SessionLemmas {
  import opened Wrappers
  import opened Cache

  /**
    The routing rule has one answer: an index that matches with maximal length and
    has no equally long match after it, or 0 when nothing matches, is BestIndex.
   */
  lemma BestIndexUnique(fs: seq<URI>, uri: URI, k: nat)
    requires k < |fs|
    requires (exists i :: 0 <= i < |fs| && HasPrefix(uri, fs[i])) ==>
      HasPrefix(uri, fs[k]) &&
      (forall i :: 0 <= i < |fs| && HasPrefix(uri, fs[i]) ==> |fs[i]| <= |fs[k]|) &&
      (forall i :: k < i < |fs| && HasPrefix(uri, fs[i]) ==> |fs[i]| < |fs[k]|)
    requires (forall i :: 0 <= i < |fs| ==> !HasPrefix(uri, fs[i])) ==> k == 0
    ensures k == BestIndex(fs, uri)
  {
    var r := BestIndex(fs, uri);
    if exists i :: 0 <= i < |fs| && HasPrefix(uri, fs[i]) {
      if k < r {
        assert false;
      } else if r < k {
        assert false;
      }
    }
  }

  /** A view appended last takes every URI its folder matches, unless a strictly longer folder matches too. */
  lemma AppendedViewWinsTies(fs: seq<URI>, f: URI, uri: URI)
    requires HasPrefix(uri, f)
    requires forall i :: 0 <= i < |fs| && HasPrefix(uri, fs[i]) ==> |fs[i]| <= |f|
    ensures BestIndex(fs + [f], uri) == |fs|
  {
    var gs := fs + [f];
    assert gs[|fs|] == f;
    assert forall i :: 0 <= i < |fs| ==> gs[i] == fs[i];
    BestIndexUnique(gs, uri, |fs|);
  }

  /** The views whose folder matches the URI keep their relative order: filtering distributes over concatenation. */
  lemma {:induction false} MatchingAppend(a: seq<View?>, b: seq<View?>, uri: URI)
    requires null !in a && null !in b
    ensures Matching(a + b, uri) == Matching(a, uri) + Matching(b, uri)
  {
    if b == [] {
      assert a + b == a;
    } else {
      var last := |b| - 1;
      var ab := a + b;
      assert ab[..|ab| - 1] == a + b[..last];
      MatchingAppend(a, b[..last], uri);
      var x, y := Matching(a, uri), Matching(b[..last], uri);
      var z := if HasPrefix(uri, b[last].folder) then [b[last]] else [];
      assert (x + y) + z == x + (y + z);
    }
  }

  /** The view a URI is routed to is one of the views `viewsOf` reports, whenever that list is non-empty. */
  lemma RoutedIsAmongMatching(vs: seq<View?>, uri: URI)
    requires null !in vs && |vs| > 0
    requires Matching(vs, uri) != []
    ensures vs[BestIndex(Folders(vs), uri)] in Matching(vs, uri)
  {
    var m := Matching(vs, uri);
    var fs := Folders(vs);
    assert m[0] in vs && HasPrefix(uri, m[0].folder);
    var j :| 0 <= j < |vs| && vs[j] == m[0];
    assert HasPrefix(uri, fs[j]);
  }

  // ---------------------------------------------------------------------------
  // Concrete routing examples
  // ---------------------------------------------------------------------------

  /** A file in a nested folder goes to the nested folder's view, other files to the outer one. */
  lemma NestedFolderRouting()
    ensures BestIndex(["/a", "/a/b"], "/a/b/x.go") == 1
    ensures BestIndex(["/a", "/a/b"], "/a/y.go") == 0
  {
    assert HasPrefix("/a/b/x.go", "/a/b");
    BestIndexUnique(["/a", "/a/b"], "/a/b/x.go", 1);
    assert HasPrefix("/a/y.go", "/a");
    assert "/a/y.go"[3] != "/a/b"[3];
    BestIndexUnique(["/a", "/a/b"], "/a/y.go", 0);
  }

  /** The prefix test is on raw strings: folder "/a/b" also takes "/a/bc/x.go". */
  lemma RawPrefixRouting()
    ensures HasPrefix("/a/bc/x.go", "/a/b")
    ensures BestIndex(["/a", "/a/b"], "/a/bc/x.go") == 1
  {
    assert HasPrefix("/a/bc/x.go", "/a/b");
    BestIndexUnique(["/a", "/a/b"], "/a/bc/x.go", 1);
  }

  /** Two views for the same folder: the one registered later gets the file. */
  lemma TieGoesToLaterView()
    ensures BestIndex(["/a", "/a"], "/a/x.go") == 1
  {
    assert HasPrefix("/a/x.go", "/a");
    BestIndexUnique(["/a", "/a"], "/a/x.go", 1);
  }

  /** A file outside every folder goes to the first view. */
  lemma UnmatchedGoesToFirstView()
    ensures BestIndex(["/b", "/c"], "/a/x.go") == 0
  {
    assert "/a/x.go"[1] != "/b"[1];
    assert "/a/x.go"[1] != "/c"[1];
  }
}
