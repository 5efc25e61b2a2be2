/**
  The session of the language server (package `cache`): the ordered list of views
  (one per workspace folder), the memo that routes a file URI to a view, and the set
  of files that have an unsaved overlay.
 */
module Cache {
  import opened Wrappers
  import opened Source

  /** span.URI: a file or folder URI, compared as a plain string. */
  type URI = string

  /** strings.HasPrefix(uri, folder): a raw string prefix, not a path-component match. */
  predicate HasPrefix(uri: URI, folder: URI)
  {
    folder <= uri
  }

  // ---------------------------------------------------------------------------
  // Routing: which folder a URI belongs to
  // ---------------------------------------------------------------------------

  /**
    The index `bestView`'s loop ends with: the last folder, in order, that is a
    prefix of the URI and at least as long as every matching folder before it.
   */
  function Longest(fs: seq<URI>, uri: URI): (r: Option<nat>)
    ensures r.Some? ==> r.value < |fs| && HasPrefix(uri, fs[r.value])
    ensures r.None? <==> forall i :: 0 <= i < |fs| ==> !HasPrefix(uri, fs[i])
    ensures r.Some? ==> forall i :: 0 <= i < |fs| && HasPrefix(uri, fs[i]) ==> |fs[i]| <= |fs[r.value]|
    ensures r.Some? ==> forall i :: r.value < i < |fs| && HasPrefix(uri, fs[i]) ==> |fs[i]| < |fs[r.value]|
  {
    if fs == [] then None
    else
      var last := |fs| - 1;
      var prev := Longest(fs[..last], uri);
      assert forall i :: 0 <= i < last ==> fs[..last][i] == fs[i];
      if HasPrefix(uri, fs[last]) && (prev.None? || |fs[prev.value]| <= |fs[last]|) then Some(last)
      else prev
  }

  /**
    The index of the view `bestView` picks among views with folders `fs`: a matching
    folder of maximal length, the later one on a tie, and the first view when no
    folder matches.
   */
  function BestIndex(fs: seq<URI>, uri: URI): (r: nat)
    requires |fs| > 0
    ensures r < |fs|
    ensures (exists i :: 0 <= i < |fs| && HasPrefix(uri, fs[i])) ==>
      HasPrefix(uri, fs[r]) &&
      (forall i :: 0 <= i < |fs| && HasPrefix(uri, fs[i]) ==> |fs[i]| <= |fs[r]|) &&
      (forall i :: r < i < |fs| && HasPrefix(uri, fs[i]) ==> |fs[i]| < |fs[r]|)
    ensures (forall i :: 0 <= i < |fs| ==> !HasPrefix(uri, fs[i])) ==> r == 0
  {
    var l := Longest(fs, uri);
    if l.Some? then l.value else 0
  }

  // ---------------------------------------------------------------------------
  // Views
  // ---------------------------------------------------------------------------

  /** A view: one workspace folder with its options. */
  class View {
    const id: nat
    const name: string
    const folder: URI
    const options: Options
    /** Set by `view.shutdown`, whose other effects (cancelling work) are not modelled. */
    var isShutdown: bool

    constructor (id: nat, name: string, folder: URI, options: Options)
      ensures this.id == id && this.name == name && this.folder == folder && this.options == options
      ensures !isShutdown
    {
      this.id := id;
      this.name := name;
      this.folder := folder;
      this.options := options;
      isShutdown := false;
    }

    method Shutdown()
      modifies this
      ensures isShutdown
    {
      isShutdown := true;
    }
  }

  /** The folders of the views, in order. */
  function Folders(vs: seq<View?>): (fs: seq<URI>)
    requires null !in vs
    ensures |fs| == |vs|
    ensures forall i :: 0 <= i < |vs| ==> fs[i] == vs[i].folder
  {
    seq(|vs|, i requires 0 <= i < |vs| => vs[i].folder)
  }

  /** The views whose folder is a prefix of the URI, in registration order. */
  function Matching(vs: seq<View?>, uri: URI): (r: seq<View?>)
    requires null !in vs
    ensures |r| <= |vs| && null !in r
    ensures forall i :: 0 <= i < |r| ==> r[i] in vs && HasPrefix(uri, r[i].folder)
    ensures forall i :: 0 <= i < |vs| && HasPrefix(uri, vs[i].folder) ==> vs[i] in r
  {
    if vs == [] then []
    else
      var last := |vs| - 1;
      assert forall i :: 0 <= i < last ==> vs[..last][i] == vs[i];
      Matching(vs[..last], uri) + if HasPrefix(uri, vs[last].folder) then [vs[last]] else []
  }

  /** The first position holding `v`, or -1. */
  function IndexOf(vs: seq<View?>, v: View?): (i: int)
    ensures -1 <= i < |vs|
    ensures i == -1 <==> v !in vs
    ensures 0 <= i ==> vs[i] == v && forall j :: 0 <= j < i ==> vs[j] != v
  {
    if vs == [] then -1
    else if vs[0] == v then 0
    else
      var j := IndexOf(vs[1..], v);
      if j == -1 then -1 else j + 1
  }

  predicate Distinct(vs: seq<View?>)
  {
    forall i, j :: 0 <= i < j < |vs| ==> vs[i] != vs[j]
  }

  /** Removal by moving the last element into the slot and dropping the last slot. */
  function SwapRemove(vs: seq<View?>, i: nat): (r: seq<View?>)
    requires i < |vs|
    ensures |r| == |vs| - 1
    ensures i < |r| ==> r[i] == vs[|vs| - 1]
    ensures forall j :: 0 <= j < |r| && j != i ==> r[j] == vs[j]
    ensures multiset(r) + multiset{vs[i]} == multiset(vs)
    ensures Distinct(vs) ==> Distinct(r) && vs[i] !in r
  {
    var last := |vs| - 1;
    var r := vs[i := vs[last]][..last];
    assert vs == vs[..last] + [vs[last]];
    assert i < last ==> vs[..last] == vs[..i] + [vs[i]] + vs[i + 1..last];
    assert i < last ==> r == vs[..i] + [vs[last]] + vs[i + 1..last];
    r
  }

  // ---------------------------------------------------------------------------
  // The session
  // ---------------------------------------------------------------------------

  datatype SessionError =
    | NoViews                                    // "no views in the session"
    | ViewNotFound(name: string, folder: URI)    // "view %s for %v not found"

  class Session {
    var views: seq<View?>
    /** viewMap; None is Go's nil map, which Shutdown leaves behind. */
    var viewMap: Option<map<URI, View>>
    /** The URIs that have an overlay; overlay contents are not part of this model. */
    var overlays: set<URI>
    /** The view counter createView increments (a package-level atomic in Go). */
    var viewIndex: nat
    /** The cache's options hook, applied to every new view's options. */
    const cacheOptions: Option<Options -> Options>

    /**
      Between operations no slot is nil, no view is listed twice, every id is at
      most the counter, a nil memo only occurs with no views, and every memo entry
      is the view that routing picks for its URI.
     */
    ghost predicate Valid()
      reads this
    {
      null !in views &&
      Distinct(views) &&
      (forall i :: 0 <= i < |views| ==> views[i].id <= viewIndex) &&
      (viewMap.None? ==> views == []) &&
      (viewMap.Some? ==> forall u :: u in viewMap.value ==>
        |views| > 0 && viewMap.value[u] == views[BestIndex(Folders(views), u)])
    }

    /** The view routing picks for a URI. */
    function Routed(uri: URI): View
      reads this
      requires Valid() && |views| > 0
    {
      views[BestIndex(Folders(views), uri)]
    }

    constructor (overlays: set<URI>, cacheOptions: Option<Options -> Options>)
      ensures Valid()
      ensures views == [] && viewMap == Some(map[]) && this.overlays == overlays && viewIndex == 0
      ensures this.cacheOptions == cacheOptions
    {
      views := [];
      viewMap := Some(map[]);
      this.overlays := overlays;
      viewIndex := 0;
      this.cacheOptions := cacheOptions;
    }

    /**
      createView, without module discovery and package loading: a fresh view with
      the next id and the options after the cache's hook.
     */
    method CreateView(name: string, folder: URI, options: Options) returns (v: View)
      modifies this`viewIndex
      ensures viewIndex == old(viewIndex) + 1
      ensures fresh(v) && v.id == viewIndex && v.name == name && v.folder == folder && !v.isShutdown
      ensures v.options == if cacheOptions.Some? then cacheOptions.value(options) else options
    {
      viewIndex := viewIndex + 1;
      var o := options;
      if cacheOptions.Some? {
        o := cacheOptions.value(o);
      }
      v := new View(viewIndex, name, folder, o);
    }

    /** Appends a new view and empties the memo. */
    method NewView(name: string, folder: URI, options: Options) returns (v: View)
      requires Valid()
      modifies this
      ensures Valid()
      ensures views == old(views) + [v] && viewMap == Some(map[])
      ensures fresh(v) && v.name == name && v.folder == folder && !v.isShutdown
      ensures v.id == viewIndex && viewIndex == old(viewIndex) + 1
      ensures v.options == if cacheOptions.Some? then cacheOptions.value(options) else options
      ensures overlays == old(overlays)
    {
      v := CreateView(name, folder, options);
      views := views + [v];
      viewMap := Some(map[]);
    }

    /** View(name): the first view with that name, or nil. */
    method ViewByName(name: string) returns (v: View?)
      requires Valid()
      ensures v == null ==> forall i :: 0 <= i < |views| ==> views[i].name != name
      ensures v != null ==>
        exists i :: 0 <= i < |views| && views[i] == v && v.name == name && forall j :: 0 <= j < i ==> views[j].name != name
    {
      for i := 0 to |views|
        invariant forall j :: 0 <= j < i ==> views[j].name != name
      {
        if views[i].name == name {
          return views[i];
        }
      }
      return null;
    }

    /** bestView: the longest matching folder, the later view on a tie, else the first view. */
    method BestView(uri: URI) returns (r: Result<View, SessionError>)
      requires Valid()
      ensures r.Failure? <==> |views| == 0
      ensures r.Failure? ==> r.error == NoViews
      ensures r.Success? ==> r.value == views[BestIndex(Folders(views), uri)]
    {
      if |views| == 0 {
        return Failure(NoViews);
      }
      ghost var fs := Folders(views);
      var longest: View? := null;
      ghost var k: Option<nat> := None;
      for i := 0 to |views|
        invariant k == Longest(fs[..i], uri)
        invariant k.None? ==> longest == null
        invariant k.Some? ==> k.value < i && longest == views[k.value]
      {
        assert fs[..i + 1][..i] == fs[..i];
        var view := views[i];
        if longest != null && |longest.folder| > |view.folder| {
          continue;
        }
        if HasPrefix(uri, view.folder) {
          longest := view;
          k := Some(i);
        }
      }
      assert fs[..|views|] == fs;
      if longest != null {
        return Success(longest);
      }
      return Success(views[0]);
    }

    /**
      viewOf: the memoised view for the URI, or the routed view, which is then
      memoised. Memoisation is transparent: the result is always the routed view.
     */
    method ViewOf(uri: URI) returns (r: Result<View, SessionError>)
      requires Valid()
      modifies this`viewMap
      ensures Valid()
      ensures r.Failure? <==> |views| == 0
      ensures r.Failure? ==> r.error == NoViews && viewMap == old(viewMap)
      ensures r.Success? ==> r.value == Routed(uri)
      ensures old(viewMap).Some? && uri in old(viewMap).value ==>
        r == Success(old(viewMap).value[uri]) && viewMap == old(viewMap)
      ensures r.Success? ==> viewMap.Some? && old(viewMap).Some? && viewMap.value == old(viewMap).value[uri := r.value]
    {
      if viewMap.Some? && uri in viewMap.value {
        return Success(viewMap.value[uri]);
      }
      r := BestView(uri);
      if r.Failure? {
        return;
      }
      viewMap := Some(viewMap.value[uri := r.value]);
    }

    /** viewsOf: every view whose folder is a prefix of the URI, in order. */
    method ViewsOf(uri: URI) returns (vs: seq<View?>)
      requires Valid()
      ensures vs == Matching(views, uri)
    {
      vs := [];
      for i := 0 to |views|
        invariant vs == Matching(views[..i], uri)
      {
        assert views[..i + 1][..i] == views[..i];
        if HasPrefix(uri, views[i].folder) {
          vs := vs + [views[i]];
        }
      }
      assert views[..|views|] == views;
    }

    /** Views: a copy of the view list. */
    method Views() returns (vs: seq<View?>)
      ensures vs == views
    {
      var result := new View?[|views|];
      for i := 0 to |views|
        invariant result[..i] == views[..i]
      {
        result[i] := views[i];
      }
      vs := result[..];
    }

    /**
      dropView: always empties the memo; nils out the first slot holding the view
      and shuts it down, or reports that the view is not in the session.
     */
    method DropView(v: View) returns (i: int, err: Option<SessionError>)
      modifies this, v
      ensures viewMap == Some(map[])
      ensures i == IndexOf(old(views), v)
      ensures v in old(views) ==> err == None && views == old(views)[i := null] && v.isShutdown
      ensures v !in old(views) ==>
        err == Some(ViewNotFound(v.name, v.folder)) && views == old(views) && v.isShutdown == old(v.isShutdown)
      ensures overlays == old(overlays) && viewIndex == old(viewIndex)
    {
      viewMap := Some(map[]);
      for j := 0 to |views|
        invariant forall k :: 0 <= k < j ==> views[k] != v
      {
        if v == views[j] {
          views := views[j := null];
          v.Shutdown();
          return j, None;
        }
      }
      return -1, Some(ViewNotFound(v.name, v.folder));
    }

    /** removeView: drops the view and fills its slot with the last view. */
    method RemoveView(v: View) returns (err: Option<SessionError>)
      requires Valid()
      modifies this, v
      ensures Valid()
      ensures viewMap == Some(map[])
      ensures v in old(views) ==> err == None && views == SwapRemove(old(views), IndexOf(old(views), v)) && v.isShutdown
      ensures v !in old(views) ==>
        err == Some(ViewNotFound(v.name, v.folder)) && views == old(views) && v.isShutdown == old(v.isShutdown)
      ensures overlays == old(overlays) && viewIndex == old(viewIndex)
    {
      var i;
      i, err := DropView(v);
      if err.Some? {
        return;
      }
      var last := |views| - 1;
      views := views[i := views[last]];
      views := views[last := null];
      views := views[..last];
    }

    /** updateView: drops the view and puts a new one for the same folder in its slot. */
    method UpdateView(v: View, options: Options) returns (r: Result<View, SessionError>)
      requires Valid()
      modifies this, v
      ensures Valid()
      ensures viewMap == Some(map[])
      ensures v in old(views) ==>
        r.Success? && fresh(r.value) && v.isShutdown &&
        views == old(views)[IndexOf(old(views), v) := r.value] &&
        r.value.name == v.name && r.value.folder == v.folder &&
        r.value.options == (if cacheOptions.Some? then cacheOptions.value(options) else options) &&
        !r.value.isShutdown && r.value.id == viewIndex && viewIndex == old(viewIndex) + 1
      ensures v !in old(views) ==>
        r == Failure(ViewNotFound(v.name, v.folder)) && views == old(views) && viewIndex == old(viewIndex) &&
        v.isShutdown == old(v.isShutdown)
      ensures overlays == old(overlays)
    {
      var i, err := DropView(v);
      if err.Some? {
        return Failure(err.value);
      }
      var nv := CreateView(v.name, v.folder, options);
      views := views[i := nv];
      r := Success(nv);
    }

    /** Shutdown: shuts every view down and leaves no views and a nil memo. */
    method Shutdown()
      requires Valid()
      modifies this, views
      ensures Valid()
      ensures forall i :: 0 <= i < |old(views)| ==> old(views)[i].isShutdown
      ensures views == [] && viewMap == None
      ensures overlays == old(overlays) && viewIndex == old(viewIndex)
    {
      for i := 0 to |views|
        invariant views == old(views) && viewMap == old(viewMap)
        invariant overlays == old(overlays) && viewIndex == old(viewIndex)
        invariant forall j :: 0 <= j < i ==> views[j].isShutdown
      {
        views[i].Shutdown();
      }
      views := [];
      viewMap := None;
    }

    /** IsOpen: whether the URI has an overlay. */
    method IsOpen(uri: URI) returns (open: bool)
      ensures open <==> uri in overlays
    {
      open := uri in overlays;
    }
  }
}
