/**
  The insertion-ordered, duplicate-free string lists of the style record, and the one
  way they grow: a value is pushed only if it is truthy (non-empty), differs from the
  list's sentinel, and is not yet included (tests/randw-style-analysis.spec.ts:134-166).
 */
module OrderedSet {
  import opened Options

  predicate NoDup(xs: seq<string>) {
    forall i, j :: 0 <= i < j < |xs| ==> xs[i] != xs[j]
  }

  /** The filter every candidate value goes through before the `includes` test. */
  predicate Passes(v: string, sentinel: Option<string>) {
    v != "" && sentinel != Some(v)
  }

  /** Every element of `xs` would pass the filter again. */
  predicate Clean(xs: seq<string>, sentinel: Option<string>) {
    forall i :: 0 <= i < |xs| ==> Passes(xs[i], sentinel)
  }

  /** Nothing `v` could add is missing from `xs`. */
  predicate Settled(xs: seq<string>, v: string, sentinel: Option<string>) {
    !Passes(v, sentinel) || v in xs
  }

  /** `if (v && v !== sentinel && !xs.includes(v)) xs.push(v)` */
  function Insert(xs: seq<string>, v: string, sentinel: Option<string>): (r: seq<string>)
    ensures r == xs || r == xs + [v]
    ensures |r| == |xs| + 1 <==> Passes(v, sentinel) && v !in xs
  {
    if Passes(v, sentinel) && v !in xs then xs + [v] else xs
  }

  /** What an insertion keeps: the old elements, the list invariants, and settledness of every value. */
  lemma InsertKeeps(xs: seq<string>, v: string, sentinel: Option<string>)
    ensures forall x :: x in Insert(xs, v, sentinel) <==> x in xs || (x == v && Passes(v, sentinel))
    ensures Settled(Insert(xs, v, sentinel), v, sentinel)
    ensures Settled(xs, v, sentinel) ==> Insert(xs, v, sentinel) == xs
    ensures NoDup(xs) ==> NoDup(Insert(xs, v, sentinel))
    ensures Clean(xs, sentinel) ==> Clean(Insert(xs, v, sentinel), sentinel)
  {
  }

  /** Offering the same value twice in a row is the same as offering it once. */
  lemma InsertIdempotent(xs: seq<string>, v: string, sentinel: Option<string>)
    ensures Insert(Insert(xs, v, sentinel), v, sentinel) == Insert(xs, v, sentinel)
  {
    InsertKeeps(xs, v, sentinel);
  }

  /** The list after the values `vs` were offered one after another, first to last. */
  function InsertAll(xs: seq<string>, vs: seq<string>, sentinel: Option<string>): seq<string>
    decreases |vs|
  {
    if vs == [] then xs
    else Insert(InsertAll(xs, vs[..|vs| - 1], sentinel), vs[|vs| - 1], sentinel)
  }

  /**
    Reference definition of the final order: the values of `vs` that pass the filter,
    each kept at its first occurrence only.
   */
  function FirstSeen(vs: seq<string>, sentinel: Option<string>): seq<string>
    decreases |vs|
  {
    if vs == [] then []
    else
      var init, v := vs[..|vs| - 1], vs[|vs| - 1];
      if Passes(v, sentinel) && v !in init then FirstSeen(init, sentinel) + [v]
      else FirstSeen(init, sentinel)
  }

  lemma {:induction false} InsertAllGrows(xs: seq<string>, vs: seq<string>, sentinel: Option<string>)
    ensures xs <= InsertAll(xs, vs, sentinel)
    ensures |InsertAll(xs, vs, sentinel)| <= |xs| + |vs|
    decreases |vs|
  {
    if vs != [] {
      InsertAllGrows(xs, vs[..|vs| - 1], sentinel);
    }
  }

  lemma {:induction false} InsertAllMembers(xs: seq<string>, vs: seq<string>, sentinel: Option<string>, x: string)
    ensures x in InsertAll(xs, vs, sentinel) <==> x in xs || (Passes(x, sentinel) && x in vs)
    decreases |vs|
  {
    if vs != [] {
      var init := vs[..|vs| - 1];
      InsertAllMembers(xs, init, sentinel, x);
      InsertKeeps(InsertAll(xs, init, sentinel), vs[|vs| - 1], sentinel);
      assert vs == init + [vs[|vs| - 1]];
    }
  }

  lemma {:induction false} InsertAllKeepsInvariant(xs: seq<string>, vs: seq<string>, sentinel: Option<string>)
    requires NoDup(xs) && Clean(xs, sentinel)
    ensures NoDup(InsertAll(xs, vs, sentinel)) && Clean(InsertAll(xs, vs, sentinel), sentinel)
    decreases |vs|
  {
    if vs != [] {
      InsertAllKeepsInvariant(xs, vs[..|vs| - 1], sentinel);
      InsertKeeps(InsertAll(xs, vs[..|vs| - 1], sentinel), vs[|vs| - 1], sentinel);
    }
  }

  lemma {:induction false} InsertAllSplit(xs: seq<string>, us: seq<string>, vs: seq<string>, sentinel: Option<string>)
    ensures InsertAll(xs, us + vs, sentinel) == InsertAll(InsertAll(xs, us, sentinel), vs, sentinel)
    decreases |vs|
  {
    if vs != [] {
      assert (us + vs)[..|us + vs| - 1] == us + vs[..|vs| - 1];
      InsertAllSplit(xs, us, vs[..|vs| - 1], sentinel);
    } else {
      assert us + vs == us;
    }
  }

  /** Offering again a value that was offered before changes nothing, wherever it is interleaved. */
  lemma InsertAllRepeat(xs: seq<string>, us: seq<string>, v: string, vs: seq<string>, sentinel: Option<string>)
    requires v in xs || v in us
    ensures InsertAll(xs, us + [v] + vs, sentinel) == InsertAll(xs, us + vs, sentinel)
  {
    var before := InsertAll(xs, us, sentinel);
    InsertAllMembers(xs, us, sentinel, v);
    InsertKeeps(before, v, sentinel);
    assert InsertAll(xs, us + [v], sentinel) == Insert(before, v, sentinel) by {
      assert (us + [v])[..|us|] == us;
    }
    InsertAllSplit(xs, us + [v], vs, sentinel);
    InsertAllSplit(xs, us, vs, sentinel);
  }

  /** Starting from an empty list, the result is exactly the first-seen order of the accepted values. */
  lemma {:induction false} InsertAllFirstSeen(vs: seq<string>, sentinel: Option<string>)
    ensures InsertAll([], vs, sentinel) == FirstSeen(vs, sentinel)
    decreases |vs|
  {
    if vs != [] {
      var init, v := vs[..|vs| - 1], vs[|vs| - 1];
      InsertAllFirstSeen(init, sentinel);
      InsertAllMembers([], init, sentinel, v);
    }
  }
}
