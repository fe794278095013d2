/** In-place array operations that the tables of the node share. */
module ArrayOps {
  import opened Seqs

  /** Move the entries k+1..n one place down over entry k. */
  method CloseGap<T>(a: array<T>, k: nat, n: nat)
    requires k < n <= a.Length
    modifies a
    ensures a[..] == ShiftDown(old(a[..]), k, n)
  {
    var i := k;
    while i < n - 1
      invariant k <= i <= n - 1
      invariant forall p :: 0 <= p < a.Length ==> a[p] == old(a[if k <= p < i then p + 1 else p])
    {
      a[i] := a[i + 1];
      i := i + 1;
    }
  }

  method Exchange<T>(a: array<T>, i: nat, j: nat)
    requires i < a.Length && j < a.Length
    modifies a
    ensures a[..] == old(a[..][i := a[j]][j := a[i]])
  {
    var temp := a[i];
    a[i] := a[j];
    a[j] := temp;
  }
}
