/** Small value types shared by the modules of this model: optional values
    (JavaScript `undefined`/`null`) and the truthiness tests the front end
    applies to them. */
module Common {

  /** A value that may be absent (`undefined` or `null`). */
  datatype Option<+T> = None | Some(value: T) {
    function GetOr(default: T): T {
      match this
      case Some(v) => v
      case None => default
    }
  }

  /** A computation that may fail; used where the source throws or panics. */
  datatype Result<+R, +E> = Ok(value: R) | Err(error: E)

  /** `if (s)` on a `string | undefined`: the empty string is falsy. */
  predicate TruthyString(s: Option<string>) {
    s.Some? && s.value != ""
  }

  /** `if (n)` on a `number | undefined`: zero is falsy (NaN is not modelled). */
  predicate TruthyInt(n: Option<int>) {
    n.Some? && n.value != 0
  }

  /** `if (x)` on a `number | undefined` that holds a measure rather than an id. */
  predicate TruthyReal(x: Option<real>) {
    x.Some? && x.value != 0.0
  }

  /** Drops the absent entries, keeping the others in order (lodash `compact`
      on a list of objects whose entries may be null). */
  function Compact<T>(s: seq<Option<T>>): seq<T> {
    if s == [] then []
    else (if s[0].Some? then [s[0].value] else []) + Compact(s[1..])
  }

  lemma {:induction false} CompactAppend<T>(a: seq<Option<T>>, b: seq<Option<T>>)
    ensures Compact(a + b) == Compact(a) + Compact(b)
  {
    if a != [] {
      calc {
        Compact(a + b);
        { assert (a + b)[0] == a[0]; assert (a + b)[1..] == a[1..] + b; }
        (if a[0].Some? then [a[0].value] else []) + Compact(a[1..] + b);
        { CompactAppend(a[1..], b); }
        (if a[0].Some? then [a[0].value] else []) + (Compact(a[1..]) + Compact(b));
        Compact(a) + Compact(b);
      }
    } else {
      assert a + b == b;
    }
  }

  /** Every present entry appears as often in the result as in the input,
      and nothing else appears. */
  lemma {:induction false} CompactCounts<T>(s: seq<Option<T>>, x: T)
    ensures multiset(Compact(s))[x] == multiset(s)[Some(x)]
  {
    if s != [] {
      CompactCounts(s[1..], x);
      assert s == [s[0]] + s[1..];
    }
  }

  /** One output per present input: the length is the number of entries
      that are not null. */
  lemma {:induction false} CompactLength<T>(s: seq<Option<T>>)
    ensures |Compact(s)| == |s| - multiset(s)[None]
  {
    if s != [] {
      CompactLength(s[1..]);
      assert s == [s[0]] + s[1..];
    }
  }

  /** A present first (last) entry is the first (last) entry of the result. */
  lemma {:induction false} CompactEnds<T>(s: seq<Option<T>>)
    requires |s| > 0 && s[0].Some? && s[|s| - 1].Some?
    ensures |Compact(s)| > 0
    ensures Compact(s)[0] == s[0].value
    ensures Compact(s)[|Compact(s)| - 1] == s[|s| - 1].value
  {
    var n := |s|;
    assert s == s[..n - 1] + [s[n - 1]];
    CompactAppend(s[..n - 1], [s[n - 1]]);
    assert Compact([s[n - 1]]) == [s[n - 1].value];
  }
}
