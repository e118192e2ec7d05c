/**
 * The commit-inspection core of the `CommitViewer` component
 * (src/renderer/components/commit-viewer.tsx).
 *
 * The component remembers the last commit object it rendered. A render with a
 * different commit object is "dirty": it records the new commit, shows no
 * patches and starts a load of that commit's patches. A render with the same
 * object lists the stored patches. A load completes later, at a time the
 * caller chooses, and overwrites the stored patches with whatever it found,
 * whichever commit it was started for.
 *
 * The pure part (ShortenSha, ParentsLine, PatchItems, RunLoad) and a value
 * model of the component's state (ViewState, RenderStep, CompleteStep) come
 * first; the class `CommitViewer` updates its fields in place and is proved
 * to follow RenderStep and CompleteStep.
 */
module CommitViewerModel {
  import opened Nodegit
  import Strings

  /** Number of characters `shortenSha` keeps. */
  const ShortShaLength := 6

  /** `sha.substr(0, 6)`: the first six characters, or all of a shorter string. */
  function ShortenSha(sha: string): (r: string)
    ensures r <= sha
    ensures |r| == if |sha| < ShortShaLength then |sha| else ShortShaLength
  {
    if |sha| <= ShortShaLength then sha else sha[..ShortShaLength]
  }

  /** The shortened identifier of every parent, in order. */
  function ShortIds(shas: seq<string>): (r: seq<string>)
    ensures |r| == |shas|
    ensures forall i :: 0 <= i < |r| ==> r[i] == ShortenSha(shas[i])
  {
    seq(|shas|, i requires 0 <= i < |shas| => ShortenSha(shas[i]))
  }

  /** The "Parents:" line: the shortened parent identifiers joined by single spaces. */
  function ParentsLine(parents: seq<string>): (r: string)
    ensures parents == [] ==> r == ""
    ensures |parents| == 1 ==> r == ShortenSha(parents[0])
  {
    Strings.Join(ShortIds(parents), ' ')
  }

  /**
   * The parents line loses nothing: splitting it at spaces gives back the
   * shortened identifiers, for any commit with at least one parent whose
   * identifiers hold no space (hexadecimal SHAs never do).
   */
  lemma ParentsLineSplits(parents: seq<string>)
    requires |parents| >= 1
    requires forall i :: 0 <= i < |parents| ==> ' ' !in parents[i]
    ensures Strings.Split(ParentsLine(parents), ' ') == ShortIds(parents)
    ensures forall i :: 0 <= i < |parents| ==> |Strings.Split(ParentsLine(parents), ' ')[i]| <= ShortShaLength
  {
    Strings.SplitJoin(ShortIds(parents), ' ');
  }

  /** One entry of the rendered patch list (a `PatchItem` element). */
  datatype PatchItem = PatchItem(patch: Patch, selected: bool, key: string)

  /**
   * The `patches.map(...)` projection: one item per patch, in order, keyed by
   * the patch's new-file path and selected exactly when it is the very object
   * passed as the selection.
   */
  function PatchItems(patches: seq<Patch>, selectedPatch: Patch?): (items: seq<PatchItem>)
    ensures |items| == |patches|
    ensures forall i :: 0 <= i < |items| ==>
              items[i].patch == patches[i] && items[i].key == patches[i].newPath
    ensures forall i :: 0 <= i < |items| ==> (items[i].selected <==> patches[i] == selectedPatch)
  {
    if patches == [] then []
    else
      [PatchItem(patches[0], patches[0] == selectedPatch, patches[0].newPath)]
        + PatchItems(patches[1..], selectedPatch)
  }

  /** What one load does: the backend calls it makes, in order, and the patches it delivers. */
  datatype LoadRun = LoadRun(calls: seq<BackendCall>, patches: seq<Patch>)

  predicate RanFindSimilar(run: LoadRun)
  {
    exists i :: 0 <= i < |run.calls| && run.calls[i].FindSimilar?
  }

  /**
   * The promise chain of `updatePatches`: ask for the commit's diffs; with none
   * the result is empty; otherwise run similarity detection on the first diff
   * alone and deliver that diff's patches as they stand afterwards.
   */
  function RunLoad(backend: Backend, commit: Commit): (run: LoadRun)
    ensures |run.calls| >= 1 && run.calls[0] == GetDiff(commit)
    ensures RanFindSimilar(run) <==> backend.getDiff(commit) != []
    ensures forall i :: 0 <= i < |run.calls| && run.calls[i].FindSimilar? ==>
              backend.getDiff(commit) != [] && run.calls[i].diff == backend.getDiff(commit)[0]
    ensures backend.getDiff(commit) == [] ==> run.patches == []
    ensures backend.getDiff(commit) != [] ==>
              run.patches == backend.patches(backend.findSimilar(backend.getDiff(commit)[0]))
  {
    var diffs := backend.getDiff(commit);
    if |diffs| > 0 then
      var diff := diffs[0];
      var run := LoadRun([GetDiff(commit), FindSimilar(diff), Patches(diff)],
                         backend.patches(backend.findSimilar(diff)));
      assert run.calls[1].FindSimilar?;
      run
    else
      LoadRun([GetDiff(commit)], [])
  }

  /**
   * The component's state as a value: the last commit rendered (`this.commit`,
   * null before the first render), the stored patches (`state.patches`) and
   * the loads started and not yet completed.
   */
  datatype ViewState = ViewState(lastCommit: Commit?, patches: seq<Patch>, pending: multiset<Commit>)

  /** The state right after construction. */
  function Initial(): ViewState
  {
    ViewState(null, [], multiset{})
  }

  /** A render is dirty when its commit is not the object rendered last. */
  predicate Dirty(s: ViewState, commit: Commit)
  {
    s.lastCommit != commit
  }

  /** What one render shows, leaving out the author, message and dates. */
  datatype RenderModel = RenderModel(shortSha: string, parentsLine: string, items: seq<PatchItem>)

  /** The state a render of `commit` leaves: the commit recorded, and a load started if it was dirty. */
  function RenderedState(s: ViewState, commit: Commit): (r: ViewState)
    ensures r.lastCommit == commit && r.patches == s.patches
    ensures s.pending <= r.pending
    ensures r.pending - s.pending == if Dirty(s, commit) then multiset{commit} else multiset{}
  {
    s.(lastCommit := commit,
       pending := if Dirty(s, commit) then s.pending + multiset{commit} else s.pending)
  }

  /** One render: the next state and what is shown. */
  function RenderStep(s: ViewState, commit: Commit, selectedPatch: Patch?): (r: (ViewState, RenderModel))
    ensures r.0 == RenderedState(s, commit)
    ensures r.1.shortSha == ShortenSha(commit.sha) && r.1.parentsLine == ParentsLine(commit.parents)
    ensures Dirty(s, commit) ==> r.1.items == []
    ensures !Dirty(s, commit) ==> |r.1.items| == |s.patches|
    ensures !Dirty(s, commit) ==>
              forall i :: 0 <= i < |s.patches| ==>
                r.1.items[i].patch == s.patches[i] && (r.1.items[i].selected <==> s.patches[i] == selectedPatch)
  {
    var items := if Dirty(s, commit) then [] else PatchItems(s.patches, selectedPatch);
    (RenderedState(s, commit), RenderModel(ShortenSha(commit.sha), ParentsLine(commit.parents), items))
  }

  /** A started load of `commit` completes: its result replaces the stored patches. */
  function CompleteStep(s: ViewState, backend: Backend, commit: Commit): (r: ViewState)
    requires commit in s.pending
    ensures r.lastCommit == s.lastCommit
    ensures r.patches == RunLoad(backend, commit).patches
    ensures r.pending + multiset{commit} == s.pending
  {
    s.(patches := RunLoad(backend, commit).patches, pending := s.pending - multiset{commit})
  }

  /** The component itself, with the fields render and the load completion update. */
  class CommitViewer {
    const backend: Backend
    var lastCommit: Commit?
    var patches: seq<Patch>
    var pending: multiset<Commit>

    function State(): ViewState
      reads this
    {
      ViewState(lastCommit, patches, pending)
    }

    constructor (backend: Backend)
      ensures this.backend == backend
      ensures State() == Initial()
    {
      this.backend := backend;
      lastCommit := null;
      patches := [];
      pending := multiset{};
    }

    /** Starts a load of `commit`; it completes through CompleteLoad. */
    method UpdatePatches(commit: Commit)
      modifies this`pending
      ensures pending == old(pending) + multiset{commit}
    {
      pending := pending + multiset{commit};
    }

    method Render(commit: Commit, selectedPatch: Patch?) returns (view: RenderModel)
      modifies this
      ensures (State(), view) == RenderStep(old(State()), commit, selectedPatch)
    {
      var patchesDirty := false;
      if lastCommit != commit {
        lastCommit := commit;
        patchesDirty := true;
      }
      var current := lastCommit;

      var stored := patches;
      var items: seq<PatchItem> := [];
      if patchesDirty {
        UpdatePatches(current);
      } else {
        items := PatchItems(stored, selectedPatch);
      }
      view := RenderModel(ShortenSha(current.sha), ParentsLine(current.parents), items);
    }

    /** The `setState` at the end of a load: no check of which commit it was for. */
    method CompleteLoad(commit: Commit)
      requires commit in pending
      modifies this`patches, this`pending
      ensures State() == CompleteStep(old(State()), backend, commit)
    {
      var run := RunLoad(backend, commit);
      pending := pending - multiset{commit};
      patches := run.patches;
    }
  }
}
