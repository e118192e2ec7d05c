/**
 * The parts of the version-control backend (nodegit) that the commit viewer
 * touches. Commits, diffs and patches are objects the backend owns; the
 * viewer compares them by identity, so they are classes whose fields never
 * change after construction. The backend operations themselves are opaque:
 * a `Backend` value packages them as total functions.
 */
module Nodegit {

  /** A commit object: its hexadecimal identifier and the identifiers of its parents. */
  class Commit {
    const sha: string
    const parents: seq<string>

    constructor (sha: string, parents: seq<string>)
      ensures this.sha == sha && this.parents == parents
    {
      this.sha := sha;
      this.parents := parents;
    }
  }

  /** An opaque diff handle between a commit and its parent. */
  class Diff {
  }

  /** One file-level change of a diff; `newPath` is `newFile().path()`. */
  class Patch {
    const newPath: string

    constructor (newPath: string)
      ensures this.newPath == newPath
    {
      this.newPath := newPath;
    }
  }

  /**
   * The backend calls the loader makes, left uninterpreted:
   *  - getDiff:     `commit.getDiff()`, the diffs of a commit against its parents;
   *  - findSimilar: `diff.findSimilar({})`, rename/copy detection, seen through
   *                 the diff it leaves behind;
   *  - patches:     `diff.patches()`, the diff's patches in backend order.
   */
  datatype Backend = Backend(
    getDiff: Commit -> seq<Diff>,
    findSimilar: Diff -> Diff,
    patches: Diff -> seq<Patch>)

  /** One call the loader makes into the backend. */
  datatype BackendCall =
    | GetDiff(commit: Commit)
    | FindSimilar(diff: Diff)
    | Patches(diff: Diff)
}
