/** Table selection `_pr` (des.py:11) and the Python list indexing it
    relies on. */
module Select {

  datatype Option<T> = None | Some(value: T)

  /** Every entry of the table `m` is a valid index into a list of length `len`. */
  predicate InBounds(m: seq<nat>, len: nat)
  {
    forall i :: 0 <= i < |m| ==> m[i] < len
  }

  /** `_pr(k, m) = [k[m[i]] for i in range(len(m))]`, where it is defined. */
  function Pr<T>(k: seq<T>, m: seq<nat>): (r: seq<T>)
    requires InBounds(m, |k|)
    ensures |r| == |m|
  {
    seq(|m|, i requires 0 <= i < |m| => k[m[i]])
  }

  /** `_pr(k, m)` with Python's failure made explicit: the comprehension
      indexes `k` left to right and raises `IndexError` (here `None`) at the
      first entry that is not below `len(k)`. */
  function TryPr<T>(k: seq<T>, m: seq<nat>): Option<seq<T>>
  {
    if m == [] then Some([])
    else if m[0] >= |k| then None
    else match TryPr(k, m[1..])
      case None => None
      case Some(rest) => Some([k[m[0]]] + rest)
  }

  /** `_pr` is defined exactly when the table is in bounds, and then it is `Pr`. */
  lemma {:induction false} TryPrDefinedIff<T>(k: seq<T>, m: seq<nat>)
    ensures TryPr(k, m).Some? <==> InBounds(m, |k|)
    ensures InBounds(m, |k|) ==> TryPr(k, m) == Some(Pr(k, m))
  {
    if m != [] {
      TryPrDefinedIff(k, m[1..]);
      if InBounds(m, |k|) {
        assert Pr(k, m) == [k[m[0]]] + Pr(k, m[1..]);
      }
      if m[0] < |k| && !InBounds(m[1..], |k|) {
        var i :| 0 <= i < |m| - 1 && m[1..][i] >= |k|;
        assert m[i + 1] >= |k|;
      }
    }
  }

  /** A sequence that agrees with b and then ends in x is b + [x]. */
  lemma {:induction false} SnocExt<T>(a: seq<T>, b: seq<T>, x: T)
    requires |a| == |b| + 1 && a[|b|] == x
    requires forall j :: 0 <= j < |b| ==> a[j] == b[j]
    ensures a == b + [x]
  {
    assert forall j :: 0 <= j < |a| ==> a[j] == (b + [x])[j];
  }

  /** Python's `s[j]` for an integer `j`: a negative index counts from the end. */
  function PyAt<T>(s: seq<T>, j: int): T
    requires -|s| <= j < |s|
  {
    if j >= 0 then s[j] else s[|s| + j]
  }
}
