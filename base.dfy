/** Values shared by every module: optional values, the Python exceptions the
    modelled code can raise, and the two result shapes used for them. */
module Base {

  datatype Option<T> = None | Some(value: T)

  /** A Python exception, named after its class. The string says what
      failed (a path, a key, or a short description). */
  datatype Error =
    | FileNotFound(path: string)
    | FileExists(path: string)
    | IsADirectory(path: string)
    | NotADirectory(path: string)
    | JsonDecodeError(path: string)
    | KeyError(key: string)
    | TypeError(what: string)
    | AttributeError(what: string)
    | ValueError(what: string)

  /** A computation that returns a value or raises. */
  datatype Result<T> = Ok(value: T) | Err(error: Error)

  /** A step that only has an effect: it completes or raises. */
  datatype Outcome = Pass | Fail(error: Error)

  predicate StartsWith(s: string, p: string) {
    |p| <= |s| && s[..|p|] == p
  }

  predicate EndsWith(s: string, p: string) {
    |p| <= |s| && s[|s| - |p|..] == p
  }

  /** Concatenation regroups freely. */
  lemma AppendAssoc<T>(a: seq<T>, b: seq<T>, c: seq<T>)
    ensures (a + b) + c == a + (b + c)
  {
  }

  /** Two leading elements and three more make one five-element list. */
  lemma AppendTwoThree<T>(a: T, b: T, c: T, d: T, e: T)
    ensures [a, b] + [c, d, e] == [a, b, c, d, e]
  {
  }

  /** Eight parts, all empty but the `k`-th, concatenate to that part. */
  lemma OneOfEight<T>(x1: seq<T>, x2: seq<T>, x3: seq<T>, x4: seq<T>, x5: seq<T>, x6: seq<T>, x7: seq<T>, x8: seq<T>,
                      k: nat, y: seq<T>)
    requires x1 == (if k == 1 then y else []) && x2 == (if k == 2 then y else [])
    requires x3 == (if k == 3 then y else []) && x4 == (if k == 4 then y else [])
    requires x5 == (if k == 5 then y else []) && x6 == (if k == 6 then y else [])
    requires x7 == (if k == 7 then y else []) && x8 == (if k == 8 then y else [])
    requires 1 <= k <= 8
    ensures x1 + x2 + x3 + x4 + x5 + x6 + x7 + x8 == y
  {
  }

  /** Eleven parts, all empty but the `k`-th, concatenate to that part. */
  lemma OneOfEleven<T>(x1: seq<T>, x2: seq<T>, x3: seq<T>, x4: seq<T>, x5: seq<T>, x6: seq<T>, x7: seq<T>, x8: seq<T>,
                       x9: seq<T>, x10: seq<T>, x11: seq<T>, k: nat, y: seq<T>)
    requires x1 == (if k == 1 then y else []) && x2 == (if k == 2 then y else [])
    requires x3 == (if k == 3 then y else []) && x4 == (if k == 4 then y else [])
    requires x5 == (if k == 5 then y else []) && x6 == (if k == 6 then y else [])
    requires x7 == (if k == 7 then y else []) && x8 == (if k == 8 then y else [])
    requires x9 == (if k == 9 then y else []) && x10 == (if k == 10 then y else [])
    requires x11 == (if k == 11 then y else [])
    requires 1 <= k <= 11
    ensures x1 + x2 + x3 + x4 + x5 + x6 + x7 + x8 + x9 + x10 + x11 == y
  {
  }
}
