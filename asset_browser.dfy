/** AssetBrowser (asset_browser.py): finding the step a shot's footage comes
    from (resolve_upstream_source), picking the media file of a published
    version folder (_find_media), and listing the published versions of a
    step newest first (populate_versions). */
module AssetBrowser {
  import opened PyModel

  // ---------------------------------------------------------------- the pipeline

  /** A step of the project, by its short name. */
  type StepId = string

  /** What resolve_upstream_source reads from the project and the shot.
      `inputs[s]` lists the steps the input pipes of `s` come out of, in pipe
      order; a step that is not in the map has no input pipes. `status[s]` is
      the short name of the state of the shot's current status for `s`; a
      step that is not in the map has no status. */
  datatype Pipeline = Pipeline(inputs: map<StepId, seq<StepId>>, status: map<StepId, string>)

  /** The state short names that mark a step as skipped. */
  const SkipStates: seq<string> := ["NA", "OMIT", "NO", "WAIT"]

  /** The upstream steps of `s`, one per input pipe. */
  function Upstream(g: Pipeline, s: StepId): seq<StepId> {
    if s in g.inputs then g.inputs[s] else []
  }

  /** The step has a status whose upper-cased state short name is a skip state. */
  predicate Skipped(g: Pipeline, u: StepId) {
    u in g.status && Upper(g.status[u]) in SkipStates
  }

  // ---------------------------------------------------- resolve_upstream_source

  /** resolve_upstream_source(shot, current), with `depth` nested calls left
      before the interpreter's recursion limit raises RecursionError. */
  function Resolve(g: Pipeline, current: Option<StepId>, depth: nat): (r: Outcome<Option<StepId>>)
    decreases depth, 1, 0
    ensures !r.Diverges?
    ensures r.Returns? && r.value.Some? ==> current.Some? && !Skipped(g, r.value.value)
  {
    if current.None? then Returns(None)
    else SearchPipes(g, Upstream(g, current.value), 0, depth)
  }

  /** The loop over the input pipes, from pipe `k` on: an upstream step that is
      not skipped is the answer; a skipped one is searched in turn, and its
      answer, if any, is returned. */
  function SearchPipes(g: Pipeline, ups: seq<StepId>, k: nat, depth: nat): (r: Outcome<Option<StepId>>)
    requires k <= |ups|
    decreases depth, 0, |ups| - k
    ensures !r.Diverges?
    ensures r.Returns? && r.value.Some? ==> !Skipped(g, r.value.value)
  {
    if k == |ups| then Returns(None)
    else if !Skipped(g, ups[k]) then Returns(Some(ups[k]))
    else if depth == 0 then Raises
    else
      match Resolve(g, Some(ups[k]), depth - 1)
      case Returns(Some(found)) => Returns(Some(found))
      case Returns(None) => SearchPipes(g, ups, k + 1, depth)
      case Raises => Raises
      case Diverges => Diverges
  }

  /** resolve_upstream_source as the loop it is written as. */
  method ResolveUpstreamSource(g: Pipeline, current: Option<StepId>, depth: nat)
    returns (r: Outcome<Option<StepId>>)
    decreases depth
    ensures r == Resolve(g, current, depth)
  {
    if current.None? {
      return Returns(None);
    }
    var pipes := Upstream(g, current.value);
    if pipes == [] {
      return Returns(None);
    }
    for k := 0 to |pipes|
      invariant SearchPipes(g, pipes, k, depth) == Resolve(g, current, depth)
    {
      var upstream := pipes[k];
      var isSkipped := false;
      if upstream in g.status {
        var stateShort := Upper(g.status[upstream]);
        if stateShort in SkipStates {
          isSkipped := true;
        }
      }
      if isSkipped {
        if depth == 0 {
          return Raises;
        }
        var found := ResolveUpstreamSource(g, Some(upstream), depth - 1);
        if found.Raises? {
          return Raises;
        }
        if found.value.Some? {
          return found;
        }
      } else {
        return Returns(Some(upstream));
      }
    }
    return Returns(None);
  }

  /** `path` climbs the input pipes from `start`: each step is an upstream
      step of the one before it, every step but the last is skipped, and the
      last is not. */
  predicate SkipChain(g: Pipeline, start: StepId, path: seq<StepId>) {
    |path| > 0
    && path[0] in Upstream(g, start)
    && (forall i :: 0 < i < |path| ==> path[i] in Upstream(g, path[i - 1]))
    && (forall i :: 0 <= i < |path| - 1 ==> Skipped(g, path[i]))
    && !Skipped(g, path[|path| - 1])
  }

  /** Without a current step, or without input pipes, there is no source. */
  lemma NoStepNoSource(g: Pipeline, current: Option<StepId>, depth: nat)
    requires current.None? || Upstream(g, current.value) == []
    ensures Resolve(g, current, depth) == Returns(None)
  { }

  /** The pipe leads to a skipped step whose own search ends without a source. */
  predicate FoundNothing(g: Pipeline, u: StepId, depth: nat) {
    Skipped(g, u) && depth > 0 && Resolve(g, Some(u), depth - 1) == Returns(None)
  }

  /** When every pipe before `k` leads to a skipped step whose own search
      found nothing, the search carries on at pipe `k`. */
  lemma {:induction false} SearchSkipsTo(g: Pipeline, ups: seq<StepId>, j: nat, k: nat, depth: nat)
    requires j <= k <= |ups|
    requires forall i :: j <= i < k ==> FoundNothing(g, ups[i], depth)
    decreases k - j
    ensures SearchPipes(g, ups, j, depth) == SearchPipes(g, ups, k, depth)
  {
    if j < k {
      SearchSkipsTo(g, ups, j + 1, k, depth);
    }
  }

  /** Pipes are tried in order: the first upstream step that is not skipped,
      after skipped ones whose searches found nothing, is the source. */
  lemma FirstActiveUpstream(g: Pipeline, start: StepId, k: nat, depth: nat)
    requires k < |Upstream(g, start)| && !Skipped(g, Upstream(g, start)[k])
    requires forall i :: 0 <= i < k ==> FoundNothing(g, Upstream(g, start)[i], depth)
    ensures Resolve(g, Some(start), depth) == Returns(Some(Upstream(g, start)[k]))
  {
    SearchSkipsTo(g, Upstream(g, start), 0, k, depth);
  }

  /** A skipped upstream step whose search finds a source ends the search
      with that source, whatever later pipes hold. */
  lemma SkippedUpstreamFinds(g: Pipeline, start: StepId, k: nat, depth: nat, found: StepId)
    requires k < |Upstream(g, start)| && Skipped(g, Upstream(g, start)[k]) && depth > 0
    requires Resolve(g, Some(Upstream(g, start)[k]), depth - 1) == Returns(Some(found))
    requires forall i :: 0 <= i < k ==> FoundNothing(g, Upstream(g, start)[i], depth)
    ensures Resolve(g, Some(start), depth) == Returns(Some(found))
  {
    SearchSkipsTo(g, Upstream(g, start), 0, k, depth);
  }

  /** Soundness: a source that is found is reached from the start through
      skipped steps only. */
  lemma {:induction false} ResolveSound(g: Pipeline, start: StepId, depth: nat, found: StepId)
    requires Resolve(g, Some(start), depth) == Returns(Some(found))
    decreases depth, 1, 0
    ensures exists path :: SkipChain(g, start, path) && path[|path| - 1] == found
  {
    SearchSound(g, start, 0, depth, found);
  }

  lemma {:induction false} SearchSound(g: Pipeline, start: StepId, k: nat, depth: nat, found: StepId)
    requires k <= |Upstream(g, start)|
    requires SearchPipes(g, Upstream(g, start), k, depth) == Returns(Some(found))
    decreases depth, 0, |Upstream(g, start)| - k
    ensures exists path :: SkipChain(g, start, path) && path[|path| - 1] == found
  {
    var ups := Upstream(g, start);
    if !Skipped(g, ups[k]) {
      assert SkipChain(g, start, [ups[k]]);
    } else if Resolve(g, Some(ups[k]), depth - 1) == Returns(Some(found)) {
      ResolveSound(g, ups[k], depth - 1, found);
      var p :| SkipChain(g, ups[k], p) && p[|p| - 1] == found;
      ChainExtend(g, start, ups[k], p);
    } else {
      SearchSound(g, start, k + 1, depth, found);
    }
  }

  /** A chain from a skipped upstream step of `start` is a chain from `start`. */
  lemma ChainExtend(g: Pipeline, start: StepId, u: StepId, p: seq<StepId>)
    requires u in Upstream(g, start) && Skipped(g, u) && SkipChain(g, u, p)
    ensures SkipChain(g, start, [u] + p) && ([u] + p)[|p|] == p[|p| - 1]
  {
    var path := [u] + p;
    assert forall i :: 0 < i < |path| ==> path[i] == p[i - 1];
  }

  /** A search that ends without a source has tried every remaining pipe:
      each led to a skipped step whose own search found nothing. */
  lemma {:induction false} SearchNone(g: Pipeline, ups: seq<StepId>, k: nat, depth: nat)
    requires k <= |ups| && SearchPipes(g, ups, k, depth) == Returns(None)
    decreases |ups| - k
    ensures forall i :: k <= i < |ups| ==> FoundNothing(g, ups[i], depth)
  {
    if k < |ups| {
      SearchNone(g, ups, k + 1, depth);
    }
  }

  /** Completeness: a search that ends without a source leaves no chain of
      skipped steps leading to an active one. */
  lemma {:induction false} NoSourceNoChain(g: Pipeline, start: StepId, depth: nat, path: seq<StepId>)
    requires Resolve(g, Some(start), depth) == Returns(None)
    decreases |path|
    ensures !SkipChain(g, start, path)
  {
    var ups := Upstream(g, start);
    SearchNone(g, ups, 0, depth);
    if SkipChain(g, start, path) {
      var i :| 0 <= i < |ups| && ups[i] == path[0];
      if |path| > 1 {
        var rest := path[1..];
        assert forall m :: 0 < m < |rest| ==> rest[m] == path[m + 1];
        NoSourceNoChain(g, path[0], depth - 1, rest);
        assert SkipChain(g, path[0], rest);
      }
    }
  }

  /** Once the search returns, it finds a source exactly when a chain of
      skipped steps leads to an active one. */
  lemma FoundIffChain(g: Pipeline, start: StepId, depth: nat)
    requires Resolve(g, Some(start), depth).Returns?
    ensures Resolve(g, Some(start), depth).value.Some? <==> exists path :: SkipChain(g, start, path)
  {
    var r := Resolve(g, Some(start), depth);
    if r.value.Some? {
      ResolveSound(g, start, depth, r.value.value);
    } else {
      forall path | SkipChain(g, start, path)
        ensures false
      {
        NoSourceNoChain(g, start, depth, path);
      }
    }
  }

  /** A rank that drops along every pipe into a skipped step: such a rank
      exists exactly when the skipped steps form no cycle. */
  ghost predicate SkipRanked(g: Pipeline, rank: StepId -> nat) {
    forall s, u :: u in Upstream(g, s) && Skipped(g, u) ==> rank(u) < rank(s)
  }

  /** Termination: with no cycle of skipped steps, a recursion limit above
      the start's rank is never reached. */
  lemma {:induction false} RankedResolves(g: Pipeline, rank: StepId -> nat, start: StepId, depth: nat)
    requires SkipRanked(g, rank) && depth > rank(start)
    decreases depth, 1, 0
    ensures Resolve(g, Some(start), depth).Returns?
  {
    RankedSearches(g, rank, start, 0, depth);
  }

  lemma {:induction false} RankedSearches(g: Pipeline, rank: StepId -> nat, start: StepId, k: nat, depth: nat)
    requires SkipRanked(g, rank) && depth > rank(start) && k <= |Upstream(g, start)|
    decreases depth, 0, |Upstream(g, start)| - k
    ensures SearchPipes(g, Upstream(g, start), k, depth).Returns?
  {
    var ups := Upstream(g, start);
    if k < |ups| && Skipped(g, ups[k]) {
      assert ups[k] in Upstream(g, start);
      RankedResolves(g, rank, ups[k], depth - 1);
      RankedSearches(g, rank, start, k + 1, depth);
    }
  }

  /** Without a visited set, a skipped step whose first pipe comes out of
      itself recurses until the recursion limit raises. */
  lemma {:induction false} SkippedSelfLoopRaises(g: Pipeline, a: StepId, depth: nat)
    requires |Upstream(g, a)| > 0 && Upstream(g, a)[0] == a && Skipped(g, a)
    ensures Resolve(g, Some(a), depth) == Raises
  {
    if depth > 0 {
      SkippedSelfLoopRaises(g, a, depth - 1);
    }
  }

  /** The answer does not depend on the recursion limit once the search returns. */
  lemma {:induction false} DepthIrrelevant(g: Pipeline, current: Option<StepId>, depth: nat, more: nat)
    requires Resolve(g, current, depth).Returns? && depth <= more
    decreases depth, 1, 0
    ensures Resolve(g, current, more) == Resolve(g, current, depth)
  {
    if current.Some? {
      SearchDepthIrrelevant(g, Upstream(g, current.value), 0, depth, more);
    }
  }

  lemma {:induction false} SearchDepthIrrelevant(g: Pipeline, ups: seq<StepId>, k: nat, depth: nat, more: nat)
    requires k <= |ups| && SearchPipes(g, ups, k, depth).Returns? && depth <= more
    decreases depth, 0, |ups| - k
    ensures SearchPipes(g, ups, k, more) == SearchPipes(g, ups, k, depth)
  {
    if k < |ups| && Skipped(g, ups[k]) {
      DepthIrrelevant(g, Some(ups[k]), depth - 1, more - 1);
      if Resolve(g, Some(ups[k]), depth - 1) == Returns(None) {
        SearchDepthIrrelevant(g, ups, k + 1, depth, more);
      }
    }
  }

  /** Skip states are matched case-insensitively: `wait` and `Omit` skip a
      step, `WIP` does not. */
  lemma SkipStateExamples(g: Pipeline)
    requires g.status == map["comp" := "wait", "plate" := "Omit", "roto" := "WIP"]
    ensures Skipped(g, "comp") && Skipped(g, "plate") && !Skipped(g, "roto") && !Skipped(g, "grade")
  {
    assert Upper("wait") == "WAIT";
    assert Upper("Omit") == "OMIT";
    assert Upper("WIP") == "WIP";
  }

  // ---------------------------------------------------------------- _find_media

  /** posixpath.join(a, b). */
  function Join(a: string, b: string): (r: string)
    ensures EndsWith(r, b)
  {
    if StartsWith(b, "/") then b
    else if a == [] || EndsWith(a, "/") then a + b
    else a + "/" + b
  }

  /** posixpath.basename(p): what follows the last `/`. */
  function Basename(p: string): (r: string)
    decreases |p|
    ensures '/' !in r && EndsWith(p, r)
    ensures |r| < |p| ==> p[|p| - |r| - 1] == '/'
  {
    if p == [] || p[|p| - 1] == '/' then []
    else Basename(p[..|p| - 1]) + [p[|p| - 1]]
  }

  /** Names starting with `.` are not considered. */
  predicate Hidden(name: string) {
    StartsWith(name, ".")
  }

  predicate IsMovie(name: string) {
    var l := Lower(name);
    EndsWith(l, ".mov") || EndsWith(l, ".mp4") || EndsWith(l, ".mxf")
  }

  predicate IsImage(name: string) {
    var l := Lower(name);
    EndsWith(l, ".exr") || EndsWith(l, ".dpx") || EndsWith(l, ".png")
    || EndsWith(l, ".jpg") || EndsWith(l, ".tif") || EndsWith(l, ".tiff")
  }

  /** The listed names that are not hidden, in listing order. */
  function Visible(names: seq<string>): (r: seq<string>)
    ensures forall f :: f in r <==> f in names && !Hidden(f)
  {
    if names == [] then []
    else (if Hidden(names[0]) then [] else [names[0]]) + Visible(names[1..])
  }

  /** The first movie among `files`. */
  function FirstMovie(files: seq<string>): (r: Option<string>)
    ensures r.Some? ==> r.value in files && IsMovie(r.value)
    ensures r.None? <==> forall f :: f in files ==> !IsMovie(f)
  {
    if files == [] then None
    else if IsMovie(files[0]) then Some(files[0])
    else FirstMovie(files[1..])
  }

  /** The first image among `files`. */
  function FirstImage(files: seq<string>): (r: Option<string>)
    ensures r.Some? ==> r.value in files && IsImage(r.value)
    ensures r.None? <==> forall f :: f in files ==> !IsImage(f)
  {
    if files == [] then None
    else if IsImage(files[0]) then Some(files[0])
    else FirstImage(files[1..])
  }

  /** _find_media(folder) on the folder's listing; a listing of None is a
      folder that cannot be listed (OSError). */
  function MediaOf(folder: string, listing: Option<seq<string>>): Option<string> {
    if listing.None? then None
    else
      var files := Visible(listing.value);
      match FirstMovie(files)
      case Some(f) => Some(Join(folder, f))
      case None =>
        match FirstImage(files)
        case Some(f) => Some(Join(folder, f))
        case None => None
  }

  /** _find_media as the two first-match loops it is written as. */
  method FindMedia(folder: string, listing: Option<seq<string>>) returns (r: Option<string>)
    ensures r == MediaOf(folder, listing)
  {
    if listing.None? {
      return None;
    }
    var files := Visible(listing.value);
    for k := 0 to |files|
      invariant FirstMovie(files) == FirstMovie(files[k..])
    {
      assert files[k..][1..] == files[k + 1..];
      if IsMovie(files[k]) {
        return Some(Join(folder, files[k]));
      }
    }
    for k := 0 to |files|
      invariant FirstImage(files) == FirstImage(files[k..])
    {
      assert files[k..][1..] == files[k + 1..];
      if IsImage(files[k]) {
        return Some(Join(folder, files[k]));
      }
    }
    return None;
  }

  lemma {:induction false} VisibleAppend(a: seq<string>, b: seq<string>)
    decreases |a|
    ensures Visible(a + b) == Visible(a) + Visible(b)
  {
    if a == [] {
      assert a + b == b;
    } else {
      assert (a + b)[1..] == a[1..] + b;
      VisibleAppend(a[1..], b);
    }
  }

  lemma {:induction false} FirstMovieAppend(a: seq<string>, b: seq<string>)
    requires forall f :: f in a ==> !IsMovie(f)
    decreases |a|
    ensures FirstMovie(a + b) == FirstMovie(b)
  {
    if a == [] {
      assert a + b == b;
    } else {
      assert (a + b)[1..] == a[1..] + b;
      FirstMovieAppend(a[1..], b);
    }
  }

  /** Any media found is a listed name that is not hidden, joined to the
      folder, and it is a movie or an image. */
  lemma MediaIsVisible(folder: string, names: seq<string>, path: string)
    requires MediaOf(folder, Some(names)) == Some(path)
    ensures exists f :: f in names && !Hidden(f) && (IsMovie(f) || IsImage(f)) && path == Join(folder, f)
  {
    var files := Visible(names);
    var f := if FirstMovie(files).Some? then FirstMovie(files).value else FirstImage(files).value;
    assert f in names && !Hidden(f) && (IsMovie(f) || IsImage(f)) && path == Join(folder, f);
  }

  /** Movies come first: the first listed movie that is not hidden is the
      media, even when images are listed before it. */
  lemma MoviePreferred(folder: string, names: seq<string>, i: nat)
    requires i < |names| && !Hidden(names[i]) && IsMovie(names[i])
    requires forall j :: 0 <= j < i ==> Hidden(names[j]) || !IsMovie(names[j])
    ensures MediaOf(folder, Some(names)) == Some(Join(folder, names[i]))
  {
    assert names == names[..i] + ([names[i]] + names[i + 1..]);
    VisibleAppend(names[..i], [names[i]] + names[i + 1..]);
    VisibleAppend([names[i]], names[i + 1..]);
    assert Visible([names[i]]) == [names[i]];
    FirstMovieAppend(Visible(names[..i]), [names[i]] + Visible(names[i + 1..]));
  }

  /** The first visible image of `names` is the first image that is not hidden. */
  lemma {:induction false} FirstVisibleImage(names: seq<string>, i: nat)
    requires i < |names| && !Hidden(names[i]) && IsImage(names[i])
    requires forall j :: 0 <= j < i ==> Hidden(names[j]) || !IsImage(names[j])
    decreases i
    ensures FirstImage(Visible(names)) == Some(names[i])
  {
    var head := if Hidden(names[0]) then [] else [names[0]];
    var rest := Visible(names[1..]);
    assert Visible(names) == head + rest;
    if i == 0 {
      assert (head + rest)[0] == names[0];
    } else {
      FirstVisibleImage(names[1..], i - 1);
      if head != [] {
        assert (head + rest)[1..] == rest;
      } else {
        assert head + rest == rest;
      }
    }
  }

  /** Without a movie, the first listed image that is not hidden is the media. */
  lemma ImageWithoutMovie(folder: string, names: seq<string>, i: nat)
    requires forall f :: f in names && !Hidden(f) ==> !IsMovie(f)
    requires i < |names| && !Hidden(names[i]) && IsImage(names[i])
    requires forall j :: 0 <= j < i ==> Hidden(names[j]) || !IsImage(names[j])
    ensures MediaOf(folder, Some(names)) == Some(Join(folder, names[i]))
  {
    var files := Visible(names);
    assert forall f :: f in files ==> !IsMovie(f);
    assert FirstMovie(files) == None;
    FirstVisibleImage(names, i);
  }

  /** No media exactly when no listed name that is not hidden is a movie or
      an image, or when the folder cannot be listed. */
  lemma NoMediaIff(folder: string, listing: Option<seq<string>>)
    ensures MediaOf(folder, listing).None? <==>
      listing.None? || forall f :: f in listing.value && !Hidden(f) ==> !IsMovie(f) && !IsImage(f)
  { }

  // ---------------------------------------------------------- populate_versions

  /** A row of the version tree: the text shown and the media path it holds. */
  datatype VersionRow = VersionRow(text: string, path: string)

  /** The listing of a folder; a folder that is not in the map cannot be listed. */
  function Listing(listings: map<string, seq<string>>, folder: string): Option<seq<string>> {
    if folder in listings then Some(listings[folder]) else None
  }

  /** The row a published folder contributes: one, when it holds media. */
  function RowOf(folder: string, listings: map<string, seq<string>>): (r: seq<VersionRow>)
    ensures |r| <= 1
    ensures r != [] <==> MediaOf(folder, Listing(listings, folder)).Some?
    ensures r != [] ==> r[0].path == MediaOf(folder, Listing(listings, folder)).value
  {
    match MediaOf(folder, Listing(listings, folder))
    case None => []
    case Some(m) => [VersionRow(Basename(folder) + "  (" + Basename(m) + ")", m)]
  }

  /** The rows populate_versions adds for the published folders, taken in
      reverse order. */
  function VersionRows(folders: seq<string>, listings: map<string, seq<string>>): seq<VersionRow> {
    if folders == [] then []
    else VersionRows(folders[1..], listings) + RowOf(folders[0], listings)
  }

  /** The tree widget populate_versions fills. */
  class VersionTree {
    var rows: seq<VersionRow>

    constructor ()
      ensures rows == []
    {
      rows := [];
    }

    method Clear()
      modifies this
      ensures rows == []
    {
      rows := [];
    }

    method AddTopLevelItem(row: VersionRow)
      modifies this
      ensures rows == old(rows) + [row]
    {
      rows := rows + [row];
    }
  }

  /** populate_versions(step): `hasShot` says whether a current shot is set and
      `folders` are its published version folders for the step. */
  method PopulateVersions(tree: VersionTree, hasShot: bool, step: Option<StepId>,
                          folders: seq<string>, listings: map<string, seq<string>>)
    modifies tree
    ensures tree.rows == if hasShot && step.Some? then VersionRows(folders, listings) else []
  {
    tree.Clear();
    if !hasShot || step.None? {
      return;
    }
    var i := |folders|;
    while i > 0
      invariant 0 <= i <= |folders|
      invariant tree.rows == VersionRows(folders[i..], listings)
    {
      i := i - 1;
      var folder := folders[i];
      assert folders[i..][1..] == folders[i + 1..];
      var vName := Basename(folder);
      var mediaFile := FindMedia(folder, Listing(listings, folder));
      if mediaFile.Some? {
        tree.AddTopLevelItem(VersionRow(vName + "  (" + Basename(mediaFile.value) + ")", mediaFile.value));
      }
    }
  }

  /** Newest first: the rows of later folders come before those of earlier ones. */
  lemma {:induction false} VersionRowsReversed(a: seq<string>, b: seq<string>, listings: map<string, seq<string>>)
    decreases |a|
    ensures VersionRows(a + b, listings) == VersionRows(b, listings) + VersionRows(a, listings)
  {
    if a == [] {
      assert a + b == b;
    } else {
      assert (a + b)[1..] == a[1..] + b;
      VersionRowsReversed(a[1..], b, listings);
    }
  }

  /** At most one row per folder. */
  lemma {:induction false} VersionRowsCount(folders: seq<string>, listings: map<string, seq<string>>)
    ensures |VersionRows(folders, listings)| <= |folders|
  {
    if folders != [] {
      VersionRowsCount(folders[1..], listings);
    }
  }

  /** Every row carries the media path of one of the folders. */
  lemma {:induction false} VersionRowsSound(folders: seq<string>, listings: map<string, seq<string>>)
    ensures forall r :: r in VersionRows(folders, listings) ==>
      exists f :: f in folders && MediaOf(f, Listing(listings, f)) == Some(r.path)
  {
    if folders != [] {
      VersionRowsSound(folders[1..], listings);
      var head := RowOf(folders[0], listings);
      forall r | r in VersionRows(folders, listings)
        ensures exists f :: f in folders && MediaOf(f, Listing(listings, f)) == Some(r.path)
      {
        if r in VersionRows(folders[1..], listings) {
          var f :| f in folders[1..] && MediaOf(f, Listing(listings, f)) == Some(r.path);
          assert f in folders;
        } else {
          assert r in head;
          assert folders[0] in folders;
        }
      }
    }
  }

  /** Every folder with media has a row carrying its media path. */
  lemma {:induction false} VersionRowsComplete(folders: seq<string>, listings: map<string, seq<string>>)
    ensures forall f :: f in folders && MediaOf(f, Listing(listings, f)).Some? ==>
      exists r :: r in VersionRows(folders, listings) && Some(r.path) == MediaOf(f, Listing(listings, f))
  {
    if folders != [] {
      VersionRowsComplete(folders[1..], listings);
      var head := RowOf(folders[0], listings);
      forall f | f in folders && MediaOf(f, Listing(listings, f)).Some?
        ensures exists r :: r in VersionRows(folders, listings) && Some(r.path) == MediaOf(f, Listing(listings, f))
      {
        if f == folders[0] {
          assert head[0] in VersionRows(folders, listings);
        } else {
          assert f in folders[1..];
          var r :| r in VersionRows(folders[1..], listings) && Some(r.path) == MediaOf(f, Listing(listings, f));
          assert r in VersionRows(folders, listings);
        }
      }
    }
  }
}
