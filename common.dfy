/** Shared vocabulary of the dashboard model: optional values, the outcome of
    an awaited collaborator call, and the chain's token catalog entries. */
module Common {

  /** A value that may be absent (`null` / `undefined` in the dashboard). */
  datatype Option<+T> = None | Some(value: T) {
    /** The value, or `default` when absent (the `??` operator). */
    function GetOr(default: T): T {
      match this
      case Some(v) => v
      case None => default
    }
  }

  /** How an awaited collaborator call ended: it resolved with a value or it
      rejected. The collaborator itself (network, backend) is not modelled. */
  datatype Outcome<+R> = Resolved(value: R) | Rejected

  /** An entry of a chain's token catalog (`ITokenAvailable`); the address is
      the key the multi-select uses. */
  datatype TokenAvailable = TokenAvailable(symbol: string, address: string, logoURI: string)

  /** The colour class a P&L figure is shown in. */
  datatype Tone = Gray | Green | Red {
    function ClassName(): string {
      match this
      case Gray => "text-gray-500"
      case Green => "text-green-600"
      case Red => "text-red-500"
    }
  }

  /** `xs` occurs in `ys` in the same order, possibly with gaps. */
  predicate IsSubsequence<T(==)>(xs: seq<T>, ys: seq<T>)
    decreases |ys|
  {
    if ys == [] then xs == []
    else (xs != [] && xs[0] == ys[0] && IsSubsequence(xs[1..], ys[1..])) || IsSubsequence(xs, ys[1..])
  }

  /** A subsequence is no longer than the sequence it is taken from and holds
      only elements of it. */
  lemma {:induction false} SubsequenceBounds<T>(xs: seq<T>, ys: seq<T>)
    requires IsSubsequence(xs, ys)
    ensures |xs| <= |ys|
    ensures forall x :: x in xs ==> x in ys
    decreases |ys|
  {
    if ys == [] {
    } else if xs != [] && xs[0] == ys[0] && IsSubsequence(xs[1..], ys[1..]) {
      SubsequenceBounds(xs[1..], ys[1..]);
      assert forall x :: x in xs ==> x == xs[0] || x in xs[1..];
    } else {
      SubsequenceBounds(xs, ys[1..]);
    }
  }
}
