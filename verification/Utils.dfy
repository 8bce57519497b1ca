/** The helpers of utils/utils.go, and the option and result types the project shares. */
module Utils {

  datatype Option<+T> = None | Some(value: T)

  /** The error returns of the operator: `Err` is any non-nil error. */
  datatype Result<+T> = Ok(value: T) | Err

  function Last<T>(xs: seq<T>): T
    requires xs != []
  {
    xs[|xs| - 1]
  }

  /** A lookup in a string map that gives the empty string for a missing key. */
  function Entry(data: map<string, string>, key: string): string {
    if key in data then data[key] else ""
  }

  /** `slice` without any occurrence of `s`, the other entries in order. */
  function Removed(slice: seq<string>, s: string): (r: seq<string>)
    ensures s !in r && |r| <= |slice|
    ensures forall x :: x in r <==> x in slice && x != s
  {
    if slice == [] then []
    else if slice[0] == s then Removed(slice[1..], s)
    else [slice[0]] + Removed(slice[1..], s)
  }

  lemma {:induction false} RemovedSplit(a: seq<string>, b: seq<string>, s: string)
    ensures Removed(a + b, s) == Removed(a, s) + Removed(b, s)
  {
    if a == [] {
      assert a + b == b;
    } else {
      assert (a + b)[1..] == a[1..] + b;
      RemovedSplit(a[1..], b, s);
    }
  }

  /** Adding a fresh entry at the end and removing it again gives the list back. */
  lemma {:induction false} RemoveUndoesAppend(slice: seq<string>, s: string)
    requires s !in slice
    ensures Removed(slice + [s], s) == slice
  {
    RemovedSplit(slice, [s], s);
    RemovedKeepsOthers(slice, s);
  }

  lemma {:induction false} RemovedKeepsOthers(slice: seq<string>, s: string)
    requires s !in slice
    ensures Removed(slice, s) == slice
  {
    if slice != [] {
      RemovedKeepsOthers(slice[1..], s);
    }
  }

  lemma {:induction false} RemovedShorter(slice: seq<string>, s: string)
    requires s in slice
    ensures |Removed(slice, s)| < |slice|
  {
    if slice[0] != s {
      RemovedShorter(slice[1..], s);
    }
  }

  method Contains(slice: seq<string>, s: string) returns (found: bool)
    ensures found <==> s in slice
  {
    for i := 0 to |slice|
      invariant s !in slice[..i]
    {
      if slice[i] == s {
        return true;
      }
    }
    assert slice[..|slice|] == slice;
    return false;
  }

  method Remove(slice: seq<string>, s: string) returns (result: seq<string>)
    ensures result == Removed(slice, s)
  {
    result := [];
    for i := 0 to |slice|
      invariant result == Removed(slice[..i], s)
    {
      assert slice[..i + 1] == slice[..i] + [slice[i]];
      RemovedSplit(slice[..i], [slice[i]], s);
      if slice[i] == s {
        continue;
      }
      result := result + [slice[i]];
    }
    assert slice[..|slice|] == slice;
  }

  /** The parts in their order, with the separator between any two. */
  function JoinWith(parts: seq<string>, separator: string): string {
    if parts == [] then ""
    else if |parts| == 1 then parts[0]
    else parts[0] + separator + JoinWith(parts[1..], separator)
  }

  /** The list of images of `source` under `transform`. */
  function Mapped(source: seq<string>, transform: string -> string): (r: seq<string>)
    ensures |r| == |source|
    ensures forall i :: 0 <= i < |r| ==> r[i] == transform(source[i])
  {
    seq(|source|, i requires 0 <= i < |source| => transform(source[i]))
  }

  method MapItems(source: seq<string>, transform: string -> string) returns (target: array<string>)
    ensures fresh(target)
    ensures target[..] == Mapped(source, transform)
  {
    target := new string[|source|];
    var i := 0;
    while i < |source|
      invariant 0 <= i <= |source| == target.Length
      invariant forall k :: 0 <= k < i ==> target[k] == transform(source[k])
    {
      target[i] := transform(source[i]);
      i := i + 1;
    }
  }
}
