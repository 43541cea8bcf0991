/**
 * File-system paths as sequences of components, with the two operations of Rust's
 * `std::path` the program relies on: `parent` and `join`.
 */
module Paths {
  import opened Wrappers

  datatype Path = Path(absolute: bool, parts: seq<string>)

  /**
   * The directory containing `p`. A path that ends in a root or is empty has no
   * parent; a one-component relative path has the empty path as its parent.
   */
  function Parent(p: Path): (r: Option<Path>)
    ensures r.None? <==> p.parts == []
    ensures r.Some? ==> r.value.absolute == p.absolute && r.value.parts + [p.parts[|p.parts| - 1]] == p.parts
  {
    if p.parts == [] then None else Some(Path(p.absolute, p.parts[..|p.parts| - 1]))
  }

  /** `base.join(p)`: an absolute `p` replaces `base`, a relative one is appended to it. */
  function Join(base: Path, p: Path): (r: Path)
    ensures p.absolute ==> r == p
    ensures !p.absolute ==> r.absolute == base.absolute && |r.parts| == |base.parts| + |p.parts| && r.parts[..|base.parts|] == base.parts && r.parts[|base.parts|..] == p.parts
  {
    if p.absolute then p else Path(base.absolute, base.parts + p.parts)
  }
}
