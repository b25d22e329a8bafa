/** `Array.prototype.find`, as the two slices use it to pick the record to edit. */
module ArrayFind {
  import opened Wrappers

  /** The index `find` stops at: the first element that satisfies `p`, if any. */
  function FirstIndex<T>(s: seq<T>, p: T -> bool): (r: Option<nat>)
    ensures r.Some? ==> r.value < |s| && p(s[r.value])
    ensures r.Some? ==> forall j :: 0 <= j < r.value ==> !p(s[j])
    ensures r.None? <==> forall j :: 0 <= j < |s| ==> !p(s[j])
  {
    if s == [] then None
    else if p(s[0]) then Some(0)
    else match FirstIndex(s[1..], p)
      case None => None
      case Some(k) => Some(k + 1)
  }

  /** `find` only looks at which elements satisfy `p`: equal verdicts give equal results. */
  lemma {:induction false} FirstIndexDependsOnVerdicts<T>(s: seq<T>, t: seq<T>, p: T -> bool)
    requires |s| == |t|
    requires forall j :: 0 <= j < |s| ==> p(s[j]) == p(t[j])
    ensures FirstIndex(s, p) == FirstIndex(t, p)
  {
    if s != [] && !p(s[0]) {
      FirstIndexDependsOnVerdicts(s[1..], t[1..], p);
    }
  }

  /** The linear scan `find` performs; it returns the index of the element it finds. */
  method Find<T>(s: seq<T>, p: T -> bool) returns (r: Option<nat>)
    ensures r == FirstIndex(s, p)
  {
    var i := 0;
    while i < |s|
      invariant 0 <= i <= |s|
      invariant forall j :: 0 <= j < i ==> !p(s[j])
    {
      if p(s[i]) {
        return Some(i);
      }
      i := i + 1;
    }
    return None;
  }
}
