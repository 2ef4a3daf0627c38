/** Nullable SQL values and SQL's three-valued conditions. */
module Sql {

  datatype Cell<+T> = Null | Val(v: T)

  datatype Tri = True | False | Unknown

  datatype Option<+T> = None | Some(value: T)

  function FromBool(b: bool): Tri {
    if b then True else False
  }

  function Not(p: Tri): Tri {
    match p
    case True => False
    case False => True
    case Unknown => Unknown
  }

  function And(p: Tri, q: Tri): Tri {
    if p == False || q == False then False
    else if p == True && q == True then True
    else Unknown
  }

  function Or(p: Tri, q: Tri): Tri {
    Not(And(Not(p), Not(q)))
  }

  function IsNull<T(==)>(c: Cell<T>): Tri {
    FromBool(c.Null?)
  }

  function Less(a: Cell<int>, b: int): Tri {
    if a.Null? then Unknown else FromBool(a.v < b)
  }

  function Equal<T(==)>(a: Cell<T>, b: Cell<T>): Tri {
    if a.Null? || b.Null? then Unknown else FromBool(a.v == b.v)
  }

  /** `a IS DISTINCT FROM b`, which is never unknown. */
  function IsDistinct<T(==)>(a: Cell<T>, b: Cell<T>): Tri {
    FromBool(a != b)
  }

  /** An `IF` or a `WHERE` takes a condition only when it is true; unknown counts as not taken. */
  predicate Holds(p: Tri) {
    p == True
  }

  /** A `CHECK` constraint fails only when its condition is false; unknown passes. */
  predicate Passes(p: Tri) {
    p != False
  }

  /** The range of the BIGINT columns. */
  predicate IsBigint(n: int) {
    -0x8000_0000_0000_0000 <= n < 0x8000_0000_0000_0000
  }
}
