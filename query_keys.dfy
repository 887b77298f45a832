/** Query keys of the cache: arrays of parts, compared part by part. An
    invalidation with key `p` reaches every cached query whose key starts
    with `p`. */
module QueryKeys {
  /** One part of a key: a text, or the `{ filters }` object of a list key. */
  datatype KeyPart = Label(text: string) | Filters(filters: string)

  type Key = seq<KeyPart>

  /** The queries an invalidation with key `p` reaches. */
  predicate Matches(p: Key, key: Key)
  {
    |p| <= |key| && key[..|p|] == p
  }

  lemma MatchesTransitive(a: Key, b: Key, c: Key)
    requires Matches(a, b) && Matches(b, c)
    ensures Matches(a, c)
  {
    assert c[..|a|] == c[..|b|][..|a|];
  }

  /** Keys that differ at a position both have never match either way. */
  lemma DifferentPartNoMatch(a: Key, b: Key, i: nat)
    requires i < |a| && i < |b| && a[i] != b[i]
    ensures !Matches(a, b) && !Matches(b, a)
  {
    assert |a| <= |b| ==> b[..|a|][i] == b[i];
    assert |b| <= |a| ==> a[..|b|][i] == a[i];
  }
}
