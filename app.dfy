/**
 * src/App.tsx: the list of decoded texts, extended on every decode with
 * `Array.from(new Set([...codes, text]))`.
 */
module App {
  import opened Wrappers

  predicate NoDuplicates(s: seq<string>)
  {
    forall i, j :: 0 <= i < j < |s| ==> s[i] != s[j]
  }

  /** `Array.from(new Set(xs))`: a Set keeps the first occurrence of each value, in insertion order. */
  function Distinct(xs: seq<string>): (r: seq<string>)
    ensures forall x :: x in r <==> x in xs
    ensures NoDuplicates(r)
    ensures |r| <= |xs|
    decreases |xs|
  {
    if xs == [] then []
    else
      var d := Distinct(xs[..|xs| - 1]);
      var last := xs[|xs| - 1];
      assert forall x :: x in xs <==> x in xs[..|xs| - 1] || x == last by {
        assert xs == xs[..|xs| - 1] + [last];
      }
      if last in d then d else d + [last]
  }

  /** A list without duplicates is its own `Distinct`. */
  lemma {:induction false} DistinctOfNoDuplicates(xs: seq<string>)
    requires NoDuplicates(xs)
    ensures Distinct(xs) == xs
    decreases |xs|
  {
    if xs != [] {
      var init := xs[..|xs| - 1];
      assert NoDuplicates(init);
      DistinctOfNoDuplicates(init);
      assert xs[|xs| - 1] !in init;
      assert init + [xs[|xs| - 1]] == xs;
    }
  }

  /** `onDecodedHandler`: a falsy result leaves `codes` alone, a decoded `text` goes through the Set. */
  function OnDecoded(codes: seq<string>, result: Option<string>): (r: seq<string>)
    ensures result.None? ==> r == codes
    ensures result.Some? ==> forall x :: x in r <==> x in codes || x == result.value
    ensures result.Some? ==> NoDuplicates(r)
  {
    match result
    case None => codes
    case Some(text) => Distinct(codes + [text])
  }

  /**
   * On a duplicate-free list (every list this handler builds from `[]`),
   * a new text is appended at the end exactly when it is absent, so the
   * first-occurrence order is kept.
   */
  lemma {:induction false} OnDecodedAppendsIfAbsent(codes: seq<string>, text: string)
    requires NoDuplicates(codes)
    ensures OnDecoded(codes, Some(text)) == if text in codes then codes else codes + [text]
  {
    DistinctOfNoDuplicates(codes);
    assert (codes + [text])[..|codes|] == codes;
  }

  /** Decoding the same text twice leaves the list as after the first time. */
  lemma OnDecodedIdempotent(codes: seq<string>, text: string)
    ensures OnDecoded(OnDecoded(codes, Some(text)), Some(text)) == OnDecoded(codes, Some(text))
  {
    var once := OnDecoded(codes, Some(text));
    OnDecodedAppendsIfAbsent(once, text);
  }

  /** Starting from `[]`, any sequence of decode results keeps the list duplicate-free. */
  lemma {:induction false} OnDecodedFromEmptyIsDistinct(results: seq<Option<string>>)
    ensures NoDuplicates(Replay(results))
    decreases |results|
  {
    if results != [] {
      OnDecodedFromEmptyIsDistinct(results[..|results| - 1]);
    }
  }

  /** The `codes` state after the handler has seen `results`, in order, from the initial `[]`. */
  function Replay(results: seq<Option<string>>): seq<string>
    decreases |results|
  {
    if results == [] then [] else OnDecoded(Replay(results[..|results| - 1]), results[|results| - 1])
  }
}
