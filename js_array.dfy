/** The one JavaScript array primitive the stroke handlers rely on:
    `Array.prototype.splice(start, deleteCount, ...items)`, restricted to
    the in-range calls the canvas makes (start and deleteCount within the
    array, so no clamping or negative start is needed). */
module JsArray {

  /** The array after `splice(start, deleteCount, ...items)`: the first
      `start` elements stay, `deleteCount` elements after them are removed,
      `items` take their place and the rest shifts along. */
  function Splice<T>(s: seq<T>, start: nat, deleteCount: nat, items: seq<T>): (r: seq<T>)
    requires start + deleteCount <= |s|
    ensures |r| == |s| - deleteCount + |items|
    ensures forall i :: 0 <= i < start ==> r[i] == s[i]
    ensures forall i :: 0 <= i < |items| ==> r[start + i] == items[i]
    ensures forall i :: start + deleteCount <= i < |s| ==> r[i - deleteCount + |items|] == s[i]
  {
    s[..start] + items + s[start + deleteCount..]
  }

  /** Replacing one element by one element is the same as updating that
      index in place: the length is kept and nothing else moves. */
  lemma SpliceOneIsUpdate<T>(s: seq<T>, i: nat, v: T)
    requires i < |s|
    ensures Splice(s, i, 1, [v]) == s[i := v]
  {
  }
}
