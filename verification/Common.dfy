/** Small datatypes shared by every module. */
module Common {
  datatype Option<+T> = None | Some(value: T)

  datatype Result<+T, +E> = Ok(value: T) | Err(error: E)

  function Max(a: int, b: int): int {
    if a < b then b else a
  }

  function Min(a: int, b: int): int {
    if a < b then a else b
  }

  /** A natural number in decimal. */
  function Digits(n: nat): (s: string)
    ensures |s| > 0
  {
    if n < 10 then ['0' + n as char] else Digits(n / 10) + ['0' + (n % 10) as char]
  }

  predicate NulFree(s: string) {
    forall i :: 0 <= i < |s| ==> s[i] != '\0'
  }

  /** Splitting at the first NUL is unambiguous. */
  lemma FirstNul(a: string, b: string, a': string, b': string)
    requires NulFree(a) && NulFree(a') && a + ['\0'] + b == a' + ['\0'] + b'
    ensures a == a' && b == b'
  {
    var x, y := a + ['\0'] + b, a' + ['\0'] + b';
    assert x[|a|] == '\0' && y[|a'|] == '\0';
    assert forall i :: 0 <= i < |a| ==> x[i] == a[i];
    assert forall i :: 0 <= i < |a'| ==> y[i] == a'[i];
    assert x[..|a|] == a && y[..|a'|] == a' && x[|a| + 1..] == b && y[|a'| + 1..] == b';
  }
}
