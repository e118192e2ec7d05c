# Commit viewer: a verified model of its commit-inspection core

This project models the `CommitViewer` component of gitamine, a desktop Git
client. Given a commit, the component shows the commit's short identifier,
its parents' short identifiers and the list of file patches the commit
introduces. It reloads those patches from the Git backend (nodegit)
whenever the commit it is asked to render is a different object from the
one it rendered last.

What is modelled:

- **Dirty tracking.** The component remembers the last commit object it
  rendered (`this.commit`, unset at first). A render with a different object
  records that object, shows an empty patch list and starts one load. A
  render with the same object lists the stored patches (`state.patches`).
- **The loader.** A load asks the backend for the commit's diffs. With no
  diffs it delivers `[]` and runs no similarity detection. Otherwise it runs
  `findSimilar` on the first diff only and delivers that diff's patches.
- **Completion.** A finished load overwrites `state.patches` with its
  result. It does not check which commit the load was started for.
- **The patch list.** Each item is keyed by the patch's new-file path. An
  item is selected exactly when its patch is the very object passed as
  `selectedPatch`.
- **The header helpers.** `shortenSha`, and the parents line: short
  identifiers joined by single spaces.

Files:

- `nodegit.dfy` (module `Nodegit`). Commits, diffs and patches are classes
  whose fields never change, so `===` and `!==` are Dafny reference
  (in)equality. The backend's `getDiff`, `findSimilar` and `patches` are
  three uninterpreted total functions packed in a `Backend` value.
- `strings.dfy` (module `Strings`). JavaScript's `join` and, as its partner,
  `split`, with the round trip proved.
- `commit_viewer.dfy` (module `CommitViewerModel`). The pure projections,
  the loader (`RunLoad`, which also records the backend calls a load makes),
  and a value model of the component's state (`ViewState`, `RenderStep`,
  `CompleteStep`). The class `CommitViewer` holds `lastCommit`, `patches`
  and the multiset `pending` of loads started and not yet completed. Its
  `Render` and `CompleteLoad` update those fields in place and are proved to
  follow `RenderStep` and `CompleteStep`.
- `commit_viewer_properties.dfy` (module `CommitViewerProperties`). The
  properties: idempotent re-rendering, one load per change of commit, empty
  list on a dirty render, order and selection of the list, the empty-diff
  case, and the absence of any staleness guard. That last one is shown both
  on the value model and by a client of the class.

Asynchrony is modelled without concurrency. `Render` adds the commit to
`pending`. A separate call `CompleteLoad(c)` delivers a started load of `c`
at any later time, in any order relative to other loads.

Some behaviour a reader might expect of such a viewer is not what the code
does, and the model follows the code:

- One might expect last-request-wins. The code has no such guard, so a
  late result for a superseded commit overwrites the patches
  (`LastCompletionWins`, `StaleLoadOverwritesNewer`, `OutOfOrderCompletion`).
- One might expect no patches to be shown while a load is in flight. The code
  hides them only on the dirty render itself. A later clean render of the
  same commit, before the load completes, lists whatever `state.patches`
  holds (`CleanRenderListsStoredPatches`).
- One might expect the selection to be matched by new-file path. The code compares
  patch objects by identity (`SelectionIsByIdentity`).
- One might expect failed loads to be reported. The code has no error
  handling, so the model has none either.

## Model

| member | source | states |
|---|---|---|
| `CommitViewerModel.ShortenSha` | src/renderer/components/commit-viewer.tsx:5-7 | the short identifier is a prefix of the SHA, of length 6, or the whole SHA when it is shorter |
| `CommitViewerModel.ShortIds` | src/renderer/components/commit-viewer.tsx:90 | one short identifier per parent, in parent order |
| `Strings.Join` | src/renderer/components/commit-viewer.tsx:90 | `join` of no parts is the empty string and of a single part is that part (round trip with split in `Strings.SplitJoin`) |
| `CommitViewerModel.ParentsLine` | src/renderer/components/commit-viewer.tsx:90 | a root commit's parents line is empty; a single parent's line is its short identifier (several parents: `ParentsLineSplits`) |
| `Strings.SplitJoin` | src/renderer/components/commit-viewer.tsx:90 | splitting a join at the separator gives back the parts when no part holds the separator |
| `CommitViewerModel.ParentsLineSplits` | src/renderer/components/commit-viewer.tsx:90 | the parents line, split at spaces, gives back exactly the parents' short identifiers in order, each at most 6 characters |
| `CommitViewerModel.PatchItems` | src/renderer/components/commit-viewer.tsx:72-78 | one item per stored patch in the same order; each keyed by its patch's new-file path; selected iff its patch is the selected object |
| `CommitViewerModel.RunLoad` | src/renderer/components/commit-viewer.tsx:40-49 | a load first asks for the commit's diffs; similarity detection runs iff there is a diff, and only on the first; no diffs gives `[]`, otherwise the first diff's patches after similarity detection |
| `CommitViewerModel.RenderedState` | src/renderer/components/commit-viewer.tsx:59-70 | a render records its commit, keeps the stored patches, and adds exactly one pending load, of that commit, iff it is dirty, otherwise none |
| `CommitViewerModel.RenderStep` | src/renderer/components/commit-viewer.tsx:57-79 | a render's new state is `RenderedState`; it shows the short identifier and parents line of its commit, an empty list when dirty, and when clean one item per stored patch in order, selected iff it is the selected object |
| `CommitViewerModel.CompleteStep` | src/renderer/components/commit-viewer.tsx:50-54 | a completion keeps the remembered commit, sets the stored patches to the load's result and removes exactly that one load from the pending ones |
| `CommitViewerModel.CommitViewer.constructor` | src/renderer/components/commit-viewer.tsx:25-31 | a new component has no last commit, no stored patches and no load in flight |
| `CommitViewerModel.CommitViewer.UpdatePatches` | src/renderer/components/commit-viewer.tsx:39-40 | starting a load adds exactly one pending load, for the given commit, and changes nothing else |
| `CommitViewerModel.CommitViewer.Render` | src/renderer/components/commit-viewer.tsx:57-79 | the new fields and the rendered list are those of `RenderStep`: dirty iff the commit object differs from the last, recorded, one load started and an empty list when dirty, stored patches listed when clean |
| `CommitViewerModel.CommitViewer.CompleteLoad` | src/renderer/components/commit-viewer.tsx:50-54 | a completed load replaces the stored patches with its result and is no longer pending; the last commit is untouched and never consulted |
| `CommitViewerProperties.ShortenShaIdempotent` | src/renderer/components/commit-viewer.tsx:5-7 | shortening a short identifier again changes nothing |
| `CommitViewerProperties.ShortenShaSeesOnlyPrefix` | src/renderer/components/commit-viewer.tsx:5-7 | SHAs agreeing on their first 6 characters shorten to the same identifier |
| `CommitViewerProperties.NullSelectionSelectsNothing` | src/renderer/components/commit-viewer.tsx:75 | with a null selection no item is selected |
| `CommitViewerProperties.UnlistedSelectionSelectsNothing` | src/renderer/components/commit-viewer.tsx:75 | a selected patch object not in the stored list highlights no item |
| `CommitViewerProperties.AtMostOneSelected` | src/renderer/components/commit-viewer.tsx:75 | when the listed patch objects are distinct, at most one item is selected |
| `CommitViewerProperties.SelectionIsByIdentity` | src/renderer/components/commit-viewer.tsx:73-77 | two distinct patches with the same new-file path get the same key, but only the selected object is marked |
| `CommitViewerProperties.EmptyDiffsLoadNothing` | src/renderer/components/commit-viewer.tsx:42-48 | with no diffs the load yields `[]` and runs no similarity detection |
| `CommitViewerProperties.LoadUsesFirstDiffOnly` | src/renderer/components/commit-viewer.tsx:42-45 | the load's result depends only on the first diff, not on any later one |
| `CommitViewerProperties.FirstRenderStartsLoad` | src/renderer/components/commit-viewer.tsx:59-70 | the first render after construction is dirty: it records the commit, starts exactly one load, of that commit, and shows an empty list |
| `CommitViewerProperties.DirtyRenderShowsNothing` | src/renderer/components/commit-viewer.tsx:59-71 | a render with a new commit object records it, adds exactly one pending load, keeps the stored patches and shows an empty list whatever they hold |
| `CommitViewerProperties.CleanRenderListsStoredPatches` | src/renderer/components/commit-viewer.tsx:64-78 | a render with the same commit object changes no state and lists the stored patches, whichever commit they were loaded for |
| `CommitViewerProperties.RenderIdempotent` | src/renderer/components/commit-viewer.tsx:59-79 | a second render with the same commit starts no load and leaves the state as the first left it |
| `CommitViewerProperties.OneLoadPerChange` | src/renderer/components/commit-viewer.tsx:59-70 | over any sequence of renders, the loads started are exactly the commits at which the commit object changed |
| `CommitViewerProperties.RenderAllRemembersLast` | src/renderer/components/commit-viewer.tsx:59-63 | rendering never alters the stored patches, and the last commit rendered is the one remembered |
| `CommitViewerProperties.NoChangesInRepeats` | src/renderer/components/commit-viewer.tsx:60 | a run of renders of the remembered commit contains no change of commit object |
| `CommitViewerProperties.RepeatedRendersChangeNothing` | src/renderer/components/commit-viewer.tsx:59-63 | re-rendering the remembered commit any number of times starts no load and leaves the whole state unchanged |
| `CommitViewerProperties.CompletionsLeavePending` | src/renderer/components/commit-viewer.tsx:50-54 | after any sequence of completions the pending loads are exactly the earlier pending ones minus those completed |
| `CommitViewerProperties.LastCompletionWins` | src/renderer/components/commit-viewer.tsx:50-54 | after any sequence of completions the stored patches are those of the last load to complete; the remembered commit is unchanged |
| `CommitViewerProperties.StaleLoadOverwritesNewer` | src/renderer/components/commit-viewer.tsx:50-54 | render a then b, complete b then a: the stored patches are a's while b is remembered, and the next render of b lists a's patches |
| `CommitViewerProperties.OutOfOrderCompletion` | src/renderer/components/commit-viewer.tsx:39-79 | the component's own methods produce the same stale overwrite, starting from a new component |

## Left out

- `src/main/main.ts`: window creation, menus, dev-mode reloading and the IPC triggers that open the clone, init and open-repository windows. This is process and UI plumbing made of foreign calls.
- `resize`: it changes a DOM style through a React ref.
- `formatDate`, the authored-date and last-modified lines, the author name and e-mail and the commit message. They are locale-dependent date formatting or direct projections of the commit, with no logic.
- The JSX markup and the `onPatchSelect` callback, which the component only passes on to each item.
- nodegit internals. `getDiff`, `findSimilar`, `patches` and `newFile().path()` are uninterpreted. `findSimilar` changes the diff in place; the model sees it as a function from the diff to the diff it leaves, and `patches` is applied to that.
- Fresh objects per load. In the program every load calls `getDiff` again, which builds new diff objects, and `patches()` builds new patch objects. The model's backend is a set of functions, so loading the same commit twice gives back the very same diff and patch objects. A `selectedPatch` taken from an earlier load of a commit therefore still marks an item after that commit is reloaded in the model, while in the program it marks nothing.
- Promise scheduling and React's re-render after `setState`. A load's completion is a separate call (`CompleteLoad`), and the re-render that follows it is a separate `Render` call by the caller.
- A rejected backend promise. The code neither catches nor handles it, so a failed load simply never completes; the model has no completion for it.
- `ShortenSha` works on `seq<char>`. JavaScript's `substr` counts UTF-16 code units, which is the same for the ASCII hexadecimal SHAs it is given.
