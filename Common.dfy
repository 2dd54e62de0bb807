/** Shared vocabulary of the finance tracker model: optional values, the
    outcome of a call that may raise, and list comprehensions with a filter. */
module Common {

  datatype Option<+T> = None | Some(value: T) {
    /** `x or default` / `d.get(k, default)` */
    function GetOr(default: T): T {
      if Some? then value else default
    }
  }

  /** Every failure the core reports is a Python `ValueError`; its message is kept. */
  datatype Error = ValueError(message: string)

  /** A call either returns a value or raises. */
  datatype Result<+T> = Ok(value: T) | Raised(error: Error)

  /** A record after a field-by-field update that may stop part-way: the
      fields written before the failing check stay written. */
  datatype Patched<+T> = Patched(record: T, error: Option<Error>)

  /** Python truthiness of an optional string argument: `None` and `""` are false. */
  predicate Given(s: Option<string>) {
    s.Some? && s.value != ""
  }

  /** `s or default` for an optional string. */
  function OrElse(s: Option<string>, default: string): (r: string)
    ensures Given(s) ==> r == s.value
    ensures !Given(s) ==> r == default
  {
    if Given(s) then s.value else default
  }

  /** `[x for x in s if p(x)]`: the elements of `s` that satisfy `p`, in order
      (`SelectAppend` gives the order). */
  function Select<T(==,!new)>(s: seq<T>, p: T -> bool): (r: seq<T>)
    ensures |r| <= |s|
  {
    if s == [] then []
    else
      var init, last := s[..|s| - 1], s[|s| - 1];
      assert s == init + [last];
      Select(init, p) + (if p(last) then [last] else [])
  }

  /** The comprehension holds exactly the elements of `s` that satisfy `p`. */
  lemma {:induction false} SelectMembers<T(!new)>(s: seq<T>, p: T -> bool)
    ensures forall x :: x in Select(s, p) <==> x in s && p(x)
  {
    if s != [] {
      var init := s[..|s| - 1];
      assert s == init + [s[|s| - 1]];
      SelectMembers(init, p);
    }
  }

  /** Filtering a list with one more element at the end. */
  lemma SelectSnoc<T(!new)>(s: seq<T>, x: T, p: T -> bool)
    ensures Select(s + [x], p) == Select(s, p) + (if p(x) then [x] else [])
  {
    assert (s + [x])[..|s|] == s;
  }

  /** Filtering distributes over concatenation, so `Select` keeps the order of `s`. */
  lemma {:induction false} SelectAppend<T(!new)>(a: seq<T>, b: seq<T>, p: T -> bool)
    ensures Select(a + b, p) == Select(a, p) + Select(b, p)
    decreases |b|
  {
    if b == [] {
      assert a + b == a;
    } else {
      var init := b[..|b| - 1];
      assert (a + b)[..|a + b| - 1] == a + init;
      SelectAppend(a, init, p);
    }
  }

  /** Nothing is dropped exactly when every element satisfies `p`. */
  lemma {:induction false} SelectKeepsAll<T(!new)>(s: seq<T>, p: T -> bool)
    ensures |Select(s, p)| == |s| <==> forall i :: 0 <= i < |s| ==> p(s[i])
  {
    if s != [] {
      var init := s[..|s| - 1];
      SelectKeepsAll(init, p);
      assert forall i :: 0 <= i < |init| ==> init[i] == s[i];
    }
  }

  /** If every element satisfies `p`, the comprehension is the list itself. */
  lemma {:induction false} SelectAll<T(!new)>(s: seq<T>, p: T -> bool)
    requires forall i :: 0 <= i < |s| ==> p(s[i])
    ensures Select(s, p) == s
  {
    if s != [] {
      var init := s[..|s| - 1];
      assert s == init + [s[|s| - 1]];
      SelectAll(init, p);
    }
  }

  /** If no element satisfies `p`, the comprehension is empty. */
  lemma {:induction false} SelectNone<T(!new)>(s: seq<T>, p: T -> bool)
    requires forall i :: 0 <= i < |s| ==> !p(s[i])
    ensures Select(s, p) == []
  {
    if s != [] {
      SelectNone(s[..|s| - 1], p);
    }
  }
}
