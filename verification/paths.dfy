/**
 * File-system paths as sequences of components, the granularity at which
 * Rust's `Path::strip_prefix` works and at which `Path::display` joins with '/'.
 */
module Paths {
  import opened Wrappers

  type Path = seq<string>

  /** `path.strip_prefix(base)`: the rest of `path` when `base` is a
      component-wise prefix of it, and no value otherwise. */
  function StripPrefix(path: Path, base: Path): (r: Option<Path>)
    ensures r.Some? <==> base <= path
    ensures r.Some? ==> base + r.value == path && |r.value| == |path| - |base|
  {
    if base <= path then Some(path[|base|..]) else None
  }

  /** `path.display()` on a Unix-style path: components joined by '/'. */
  function Display(p: Path): string
    decreases |p|
  {
    if p == [] then ""
    else if |p| == 1 then p[0]
    else Display(p[..|p| - 1]) + "/" + p[|p| - 1]
  }

  /** A character that occurs in no component does not occur in the display
      either: the only characters `Display` adds are separators. */
  lemma {:induction false} DisplayAvoids(p: Path, c: char)
    requires c != '/'
    requires forall i :: 0 <= i < |p| ==> c !in p[i]
    ensures c !in Display(p)
    decreases |p|
  {
    if |p| > 1 {
      DisplayAvoids(p[..|p| - 1], c);
    }
  }
}
