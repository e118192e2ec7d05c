/**
 * What the commit viewer guarantees, and what it does not, stated over the
 * value model of its state (RenderStep, CompleteStep) and its projections.
 */
module CommitViewerProperties {
  import opened Nodegit
  import opened CommitViewerModel

  // ---------------------------------------------------------------------------
  // Short identifiers

  /** Shortening is idempotent: a short identifier shortens to itself. */
  lemma ShortenShaIdempotent(sha: string)
    ensures ShortenSha(ShortenSha(sha)) == ShortenSha(sha)
  {
  }

  /** Two identifiers that agree on their first six characters have the same short form. */
  lemma ShortenShaSeesOnlyPrefix(a: string, b: string)
    requires |a| >= ShortShaLength && |b| >= ShortShaLength
    requires a[..ShortShaLength] == b[..ShortShaLength]
    ensures ShortenSha(a) == ShortenSha(b)
  {
  }

  // ---------------------------------------------------------------------------
  // Selection

  /** With no selection, no item is marked selected. */
  lemma NullSelectionSelectsNothing(patches: seq<Patch>)
    ensures forall i :: 0 <= i < |patches| ==> !PatchItems(patches, null)[i].selected
  {
  }

  /** A selection that is not one of the listed patch objects marks nothing. */
  lemma UnlistedSelectionSelectsNothing(patches: seq<Patch>, selectedPatch: Patch?)
    requires selectedPatch !in patches
    ensures forall i :: 0 <= i < |patches| ==> !PatchItems(patches, selectedPatch)[i].selected
  {
  }

  /** When the listed patch objects are distinct, at most one item is selected. */
  lemma AtMostOneSelected(patches: seq<Patch>, selectedPatch: Patch?)
    requires forall i, j :: 0 <= i < j < |patches| ==> patches[i] != patches[j]
    ensures forall i, j ::
              (0 <= i < |patches| && 0 <= j < |patches| &&
               PatchItems(patches, selectedPatch)[i].selected &&
               PatchItems(patches, selectedPatch)[j].selected) ==> i == j
  {
  }

  /**
   * Selection is by object identity, not by path: of two distinct patch
   * objects with the same new-file path, only the selected object is marked,
   * although both items carry the same key.
   */
  lemma SelectionIsByIdentity(p: Patch, q: Patch)
    requires p != q && p.newPath == q.newPath
    ensures PatchItems([p, q], p)[0].selected
    ensures !PatchItems([p, q], p)[1].selected
    ensures PatchItems([p, q], p)[0].key == PatchItems([p, q], p)[1].key
  {
  }

  // ---------------------------------------------------------------------------
  // Loading

  /** With no diffs, a load delivers nothing and never runs similarity detection. */
  lemma EmptyDiffsLoadNothing(backend: Backend, commit: Commit)
    requires backend.getDiff(commit) == []
    ensures RunLoad(backend, commit).patches == []
    ensures !RanFindSimilar(RunLoad(backend, commit))
  {
  }

  /**
   * A load looks at the first diff only: two backends that report the same
   * first diff for a commit, and treat diffs alike, deliver the same patches,
   * whatever further diffs they report.
   */
  lemma LoadUsesFirstDiffOnly(b1: Backend, b2: Backend, commit: Commit)
    requires b1.getDiff(commit) != [] && b2.getDiff(commit) != []
    requires b1.getDiff(commit)[0] == b2.getDiff(commit)[0]
    requires b1.findSimilar == b2.findSimilar && b1.patches == b2.patches
    ensures RunLoad(b1, commit).patches == RunLoad(b2, commit).patches
  {
  }

  // ---------------------------------------------------------------------------
  // Rendering and dirty tracking

  /** The first render is always dirty: it shows no patches and starts one load, of its commit. */
  lemma FirstRenderStartsLoad(commit: Commit, selectedPatch: Patch?)
    ensures RenderStep(Initial(), commit, selectedPatch).0.lastCommit == commit
    ensures RenderStep(Initial(), commit, selectedPatch).0.pending == multiset{commit}
    ensures RenderStep(Initial(), commit, selectedPatch).1.items == []
  {
  }

  /**
   * A dirty render records the new commit, starts exactly one load, of that
   * commit, leaves the stored patches alone and shows none of them.
   */
  lemma DirtyRenderShowsNothing(s: ViewState, commit: Commit, selectedPatch: Patch?)
    requires s.lastCommit != commit
    ensures RenderStep(s, commit, selectedPatch).0
            == s.(lastCommit := commit, pending := s.pending + multiset{commit})
    ensures RenderStep(s, commit, selectedPatch).1.items == []
  {
  }

  /**
   * A clean render changes nothing and lists the stored patches, whatever
   * commit they were loaded for.
   */
  lemma CleanRenderListsStoredPatches(s: ViewState, commit: Commit, selectedPatch: Patch?)
    requires s.lastCommit == commit
    ensures RenderStep(s, commit, selectedPatch).0 == s
    ensures RenderStep(s, commit, selectedPatch).1.items == PatchItems(s.patches, selectedPatch)
  {
  }

  /** Rendering twice with the same commit starts no second load and leaves the state as the first render left it. */
  lemma RenderIdempotent(s: ViewState, commit: Commit, sel1: Patch?, sel2: Patch?)
    ensures var s1 := RenderStep(s, commit, sel1).0;
            RenderStep(s1, commit, sel2).0 == s1 &&
            RenderStep(s1, commit, sel2).1.items == PatchItems(s.patches, sel2)
  {
  }

  /** The state after rendering each commit of `commits` in turn. */
  function RenderAll(s: ViewState, commits: seq<Commit>): ViewState
    decreases |commits|
  {
    if commits == [] then s
    else RenderAll(RenderedState(s, commits[0]), commits[1..])
  }

  /** The commits of `commits` that differ from the one before them (the first from `last`). */
  function Changes(last: Commit?, commits: seq<Commit>): seq<Commit>
    decreases |commits|
  {
    if commits == [] then []
    else (if commits[0] != last then [commits[0]] else []) + Changes(commits[0], commits[1..])
  }

  /**
   * Over any run of renders, exactly one load is started per change of
   * commit object, for the commit changed to.
   */
  lemma {:induction false} OneLoadPerChange(s: ViewState, commits: seq<Commit>)
    ensures RenderAll(s, commits).pending == s.pending + multiset(Changes(s.lastCommit, commits))
    decreases |commits|
  {
    if commits != [] {
      var c := commits[0];
      var started := if c != s.lastCommit then [c] else [];
      var s1 := RenderedState(s, c);
      assert s1.pending == s.pending + multiset(started);
      var rest := Changes(c, commits[1..]);
      OneLoadPerChange(s1, commits[1..]);
      assert Changes(s.lastCommit, commits) == started + rest;
      assert multiset(started + rest) == multiset(started) + multiset(rest);
    }
  }

  /**
   * Rendering never touches the stored patches, and after a run of renders
   * the last commit rendered is the one remembered.
   */
  lemma {:induction false} RenderAllRemembersLast(s: ViewState, commits: seq<Commit>)
    ensures RenderAll(s, commits).patches == s.patches
    ensures commits != [] ==> RenderAll(s, commits).lastCommit == commits[|commits| - 1]
    decreases |commits|
  {
    if commits != [] {
      RenderAllRemembersLast(RenderedState(s, commits[0]), commits[1..]);
      assert |commits| > 1 ==> commits[1..][|commits[1..]| - 1] == commits[|commits| - 1];
    }
  }

  /** A run of renders of one commit, starting from that commit, holds no change. */
  lemma {:induction false} NoChangesInRepeats(commit: Commit, commits: seq<Commit>)
    requires forall i :: 0 <= i < |commits| ==> commits[i] == commit
    ensures Changes(commit, commits) == []
    decreases |commits|
  {
    if commits != [] {
      NoChangesInRepeats(commit, commits[1..]);
    }
  }

  /**
   * Re-rendering the commit last rendered, any number of times, starts no
   * load and leaves the state exactly as it was.
   */
  lemma RepeatedRendersChangeNothing(s: ViewState, commit: Commit, commits: seq<Commit>)
    requires s.lastCommit == commit
    requires forall i :: 0 <= i < |commits| ==> commits[i] == commit
    ensures RenderAll(s, commits) == s
  {
    NoChangesInRepeats(commit, commits);
    OneLoadPerChange(s, commits);
    RenderAllRemembersLast(s, commits);
  }

  // ---------------------------------------------------------------------------
  // Completion

  /** The state after the started loads of `commits` complete, in that order. */
  function CompleteAll(s: ViewState, backend: Backend, commits: seq<Commit>): ViewState
    requires multiset(commits) <= s.pending
    decreases |commits|
  {
    if commits == [] then s
    else
      assert commits == [commits[0]] + commits[1..];
      CompleteAll(CompleteStep(s, backend, commits[0]), backend, commits[1..])
  }

  /** After any sequence of completions, exactly the completed loads are no longer pending. */
  lemma {:induction false} CompletionsLeavePending(s: ViewState, backend: Backend, commits: seq<Commit>)
    requires multiset(commits) <= s.pending
    ensures CompleteAll(s, backend, commits).pending == s.pending - multiset(commits)
    decreases |commits|
  {
    if commits != [] {
      var c, rest := commits[0], commits[1..];
      assert commits == [c] + rest;
      assert multiset(commits) == multiset{c} + multiset(rest);
      var s1 := CompleteStep(s, backend, c);
      assert multiset(rest) <= s1.pending;
      CompletionsLeavePending(s1, backend, rest);
      assert s1.pending - multiset(rest) == s.pending - multiset(commits);
    }
  }

  /**
   * Completions are not checked against the commit on display: after any
   * sequence of completions the stored patches are those of the LAST load to
   * complete, the displayed commit is untouched and the completed loads are
   * no longer pending.
   */
  lemma {:induction false} LastCompletionWins(s: ViewState, backend: Backend, commits: seq<Commit>)
    requires commits != []
    requires multiset(commits) <= s.pending
    ensures CompleteAll(s, backend, commits).patches == RunLoad(backend, commits[|commits| - 1]).patches
    ensures CompleteAll(s, backend, commits).lastCommit == s.lastCommit
    ensures CompleteAll(s, backend, commits).pending == s.pending - multiset(commits)
    decreases |commits|
  {
    CompletionsLeavePending(s, backend, commits);
    var c, rest := commits[0], commits[1..];
    assert commits == [c] + rest;
    assert multiset(commits) == multiset{c} + multiset(rest);
    var s1 := CompleteStep(s, backend, c);
    assert multiset(rest) <= s1.pending;
    assert CompleteAll(s, backend, commits) == CompleteAll(s1, backend, rest);
    if rest != [] {
      LastCompletionWins(s1, backend, rest);
      assert rest[|rest| - 1] == commits[|commits| - 1];
    }
  }

  /**
   * No last-request-wins: render commit `a`, then commit `b`; `b`'s load
   * completes first and `a`'s after it. The stored patches are then `a`'s
   * while `b` is on display, and the next render of `b` lists `a`'s patches.
   */
  lemma StaleLoadOverwritesNewer(s: ViewState, backend: Backend, a: Commit, b: Commit, selectedPatch: Patch?)
    requires a != b && s.lastCommit != a
    ensures var s1 := RenderStep(s, a, selectedPatch).0;
            var s2 := RenderStep(s1, b, selectedPatch).0;
            b in s2.pending &&
            var s3 := CompleteStep(s2, backend, b);
            a in s3.pending &&
            var s4 := CompleteStep(s3, backend, a);
            s4.lastCommit == b &&
            s4.patches == RunLoad(backend, a).patches &&
            RenderStep(s4, b, selectedPatch).1.items == PatchItems(RunLoad(backend, a).patches, selectedPatch)
  {
  }

  /**
   * The same story told with the component itself: its methods compose to
   * the stale overwrite.
   */
  method OutOfOrderCompletion(backend: Backend, a: Commit, b: Commit, selectedPatch: Patch?)
    returns (viewer: CommitViewer, view: RenderModel)
    requires a != b
    ensures fresh(viewer)
    ensures viewer.lastCommit == b && viewer.pending == multiset{}
    ensures viewer.patches == RunLoad(backend, a).patches
    ensures view.items == PatchItems(RunLoad(backend, a).patches, selectedPatch)
  {
    viewer := new CommitViewer(backend);
    var first := viewer.Render(a, selectedPatch);
    var second := viewer.Render(b, selectedPatch);
    viewer.CompleteLoad(b);
    viewer.CompleteLoad(a);
    view := viewer.Render(b, selectedPatch);
  }
}
