/** Types and small facts shared by the other modules. */
module Base {

  datatype Option<+T> = None | Some(value: T)

  function Count(b: bool): nat { if b then 1 else 0 }

  /** Two sets that agree except on `x`. */
  lemma OneApart<T>(a: set<T>, b: set<T>, x: T)
    requires a - {x} == b - {x}
    ensures |a| == |b| + Count(x in a) - Count(x in b)
  {
    assert a == if x in a then (a - {x}) + {x} else a - {x};
    assert b == if x in b then (a - {x}) + {x} else a - {x};
  }
}
