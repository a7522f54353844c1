/** Small helpers shared by the storefront components: an optional value
    (a JavaScript `null`able state), the outcome of an HTTP request, and
    the `filter(x => x !== v)` idiom on sequences. */
module Shared {

  datatype Option<+T> = None | Some(value: T)

  /** What a `fetch` call produced, as far as a handler branches on it:
      a 2xx response, a non-2xx response, or a thrown error whose
      `message` the handler may show. */
  datatype Response = Ok | NotOk | Failed(message: string)

  /** A `string | null` error state is shown by `{error && ...}`, so the
      empty string counts as "no error" (JavaScript truthiness). */
  predicate Shown(error: Option<string>): (b: bool)
    ensures error == None ==> !b
    ensures error == Some("") ==> !b
    ensures forall m :: error == Some(m) && m != "" ==> b
  {
    error.Some? && error.value != ""
  }

  /** `s.filter(y => y !== x)`. */
  function Without(s: seq<int>, x: int): (r: seq<int>)
    ensures x !in r
    ensures forall y :: y in r <==> y in s && y != x
    ensures |r| <= |s|
    ensures x !in s ==> r == s
    decreases |s|
  {
    if |s| == 0 then []
    else if s[|s| - 1] == x then Without(s[..|s| - 1], x)
    else Without(s[..|s| - 1], x) + [s[|s| - 1]]
  }

  predicate NoDuplicates(s: seq<int>)
  {
    forall i, j :: 0 <= i < j < |s| ==> s[i] != s[j]
  }

  /** Filtering distributes over concatenation: the elements that survive
      keep their relative order. */
  lemma {:induction false} WithoutAppend(a: seq<int>, b: seq<int>, x: int)
    ensures Without(a + b, x) == Without(a, x) + Without(b, x)
    decreases |b|
  {
    if |b| == 0 {
      assert a + b == a;
    } else {
      var b' := b[..|b| - 1];
      assert (a + b)[..|a + b| - 1] == a + b';
      WithoutAppend(a, b', x);
    }
  }

  lemma {:induction false} WithoutKeepsNoDuplicates(s: seq<int>, x: int)
    requires NoDuplicates(s)
    ensures NoDuplicates(Without(s, x))
    decreases |s|
  {
    if |s| > 0 {
      var s', last := s[..|s| - 1], s[|s| - 1];
      WithoutKeepsNoDuplicates(s', x);
      if last != x {
        assert last !in s' by {
          forall i | 0 <= i < |s'| ensures s'[i] != last { assert s[i] != s[|s| - 1]; }
        }
        var r' := Without(s', x);
        assert Without(s, x) == r' + [last];
        forall i, j | 0 <= i < j < |r' + [last]| ensures (r' + [last])[i] != (r' + [last])[j] {
          if j == |r'| { assert (r' + [last])[i] in s'; }
        }
      }
    }
  }

  lemma WithoutAppendOne(s: seq<int>, z: int, x: int)
    ensures Without(s + [z], x) == if z == x then Without(s, x) else Without(s, x) + [z]
  {
    assert (s + [z])[..|s + [z]| - 1] == s;
  }
}
