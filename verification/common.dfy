/** Values shared by every part of the model: optional values, the Python
    exceptions the modelled code can raise, coordinates, and Python's
    truthiness rules for optional strings. */
module Common {

  /** Python's `None` or a present value. */
  datatype Option<+T> = None | Some(value: T) {

    /** `x if x is not None else default` */
    function GetOr(default: T): T {
      match this
      case Some(v) => v
      case None => default
    }
  }

  /** The Python exceptions that the modelled code raises on inputs it does
      not guard against. */
  datatype PyError =
    | EmptySequence      // ValueError from min()/max() of an empty list
    | IndexOutOfRange    // IndexError from indexing a list
    | BadIntLiteral      // ValueError from int() of a non-numeric string
    | NotANumber         // TypeError from int() of None, a list or a mapping

  /** The result of a Python call: a value, or an exception that propagates. */
  datatype Outcome<+T> = Ok(value: T) | Raised(error: PyError)

  /** A coordinate in the program's internal order: latitude first. */
  datatype LatLon = LatLon(lat: real, lon: real)

  function Min(a: int, b: int): int { if a <= b then a else b }
  function Max(a: int, b: int): int { if a <= b then b else a }

  /** Python truthiness of an optional string: `None` and `""` are false. */
  predicate Truthy(s: Option<string>) {
    s.Some? && s.value != ""
  }

  /** Python's `a or b` on optional strings. */
  function Or(a: Option<string>, b: Option<string>): Option<string> {
    if Truthy(a) then a else b
  }

  /** `xs[0] or xs[1] or ... or xs[n-1]`, evaluated left to right. */
  function OrChain(xs: seq<Option<string>>): Option<string>
    requires |xs| > 0
  {
    if |xs| == 1 then xs[0] else Or(xs[0], OrChain(xs[1..]))
  }

  /** Index of the first truthy entry, when there is one. */
  function FirstTruthyIndex(xs: seq<Option<string>>): (k: nat)
    requires exists j :: 0 <= j < |xs| && Truthy(xs[j])
    ensures k < |xs| && Truthy(xs[k])
    ensures forall j :: 0 <= j < k ==> !Truthy(xs[j])
  {
    if Truthy(xs[0]) then 0
    else
      assert exists j :: 0 <= j < |xs[1..]| && Truthy(xs[1..][j]) by {
        var j :| 0 <= j < |xs| && Truthy(xs[j]);
        assert j > 0 && xs[1..][j - 1] == xs[j];
      }
      1 + FirstTruthyIndex(xs[1..])
  }

  /** A chain of `or`s is truthy exactly when one operand is, and is then the
      first truthy operand; when none is truthy it is the last operand. */
  lemma {:induction false} OrChainPicksFirstTruthy(xs: seq<Option<string>>)
    requires |xs| > 0
    ensures Truthy(OrChain(xs)) <==> exists j :: 0 <= j < |xs| && Truthy(xs[j])
    ensures Truthy(OrChain(xs)) ==> OrChain(xs) == xs[FirstTruthyIndex(xs)]
    ensures !Truthy(OrChain(xs)) ==> OrChain(xs) == xs[|xs| - 1]
  {
    if |xs| > 1 {
      OrChainPicksFirstTruthy(xs[1..]);
      if !Truthy(xs[0]) {
        if Truthy(OrChain(xs)) {
          assert FirstTruthyIndex(xs) == 1 + FirstTruthyIndex(xs[1..]);
        }
        if exists j :: 0 <= j < |xs| && Truthy(xs[j]) {
          var j :| 0 <= j < |xs| && Truthy(xs[j]);
          assert xs[1..][j - 1] == xs[j];
        }
      }
    }
  }

  /** Python's `s[:k]`, including the meaning of a negative `k`. */
  function SliceTo<T>(s: seq<T>, k: int): (r: seq<T>)
    ensures r <= s
    ensures 0 <= k ==> |r| == Min(k, |s|)
    ensures k < 0 ==> |r| == Max(0, |s| + k)
  {
    if 0 <= k then (if k <= |s| then s[..k] else s)
    else if 0 < |s| + k then s[..|s| + k]
    else []
  }

  /** Python's `s[i]`: a negative index counts from the end. */
  predicate ValidIndex<T>(s: seq<T>, i: int) {
    -|s| <= i < |s|
  }

  function PyIndex<T>(s: seq<T>, i: int): T
    requires ValidIndex(s, i)
  {
    if 0 <= i then s[i] else s[|s| + i]
  }

  /** Pairs of equal elements do not occur. */
  predicate NoDuplicates<T(==)>(s: seq<T>) {
    forall i, j :: 0 <= i < j < |s| ==> s[i] != s[j]
  }
}
