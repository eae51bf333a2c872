/** Vocabulary shared by every module of the incident controller's model. */
module Common {

  /** Instants are whole microseconds since an arbitrary epoch. */
  type Time = int

  datatype Option<+T> = None | Some(value: T)

  /** The smaller of two numbers, as Python's `min`. */
  function Min(a: int, b: int): int {
    if a <= b then a else b
  }

  function Max(a: int, b: int): int {
    if a >= b then a else b
  }

  function RealMax(a: real, b: real): real {
    if a >= b then a else b
  }

  function RealAbs(a: real): real {
    if a < 0.0 then -a else a
  }

  /** The elements of a sequence, without order or multiplicity. */
  function Elements<T>(s: seq<T>): set<T> {
    set x | x in s
  }

  lemma ElementsOfSnoc<T>(s: seq<T>, x: T)
    ensures Elements(s + [x]) == Elements(s) + {x}
  {
  }

  lemma {:induction false} ElementsNoLarger<T>(s: seq<T>)
    ensures |Elements(s)| <= |s|
  {
    if s == [] {
    } else {
      var front := s[..|s| - 1];
      ElementsNoLarger(front);
      assert s == front + [s[|s| - 1]];
      ElementsOfSnoc(front, s[|s| - 1]);
    }
  }

  /** Each element at its first occurrence, as Python's `dict.fromkeys` keeps them. */
  function Unique<T(==, !new)>(s: seq<T>): (u: seq<T>)
    ensures forall x :: x in u <==> x in s
    ensures forall i, j :: 0 <= i < j < |u| ==> u[i] != u[j]
  {
    if s == [] then []
    else
      var n := |s| - 1;
      var rest := Unique(s[..n]);
      assert s == s[..n] + [s[n]];
      if s[n] in rest then rest else rest + [s[n]]
  }
}
