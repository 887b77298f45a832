/** `transactionKeys`: the cache keys of the transaction queries. */
module TransactionsQueryKeys {
  import opened QueryKeys

  const All: Key := [Label("transactions")]

  function Lists(): Key { All + [Label("list")] }

  function List(filters: string): Key { Lists() + [Filters(filters)] }

  function Types(): Key { All + [Label("types")] }

  function Type(transactionType: string): Key { Types() + [Label(transactionType)] }

  function Details(): Key { All + [Label("detail")] }

  function Detail(id: string): Key { Details() + [Label(id)] }

  /** Every transaction key starts with `['transactions']`. */
  lemma EveryKeyUnderAll(filters: string, transactionType: string, id: string)
    ensures Matches(All, Lists()) && Matches(All, List(filters))
    ensures Matches(All, Types()) && Matches(All, Type(transactionType))
    ensures Matches(All, Details()) && Matches(All, Detail(id))
  {
  }

  /** The creation and deletion hooks invalidate `lists()` and `types()`:
      that reaches every list query and every per-type query. */
  lemma InvalidationCoversFamilies(filters: string, transactionType: string)
    ensures Matches(Lists(), List(filters))
    ensures Matches(Types(), Type(transactionType))
    ensures Type(transactionType) == [Label("transactions"), Label("types"), Label(transactionType)]
  {
  }

  /** The three families differ in their second part, so no family's key
      reaches another family's queries. */
  lemma FamiliesSeparate(filters: string, transactionType: string, id: string)
    ensures !Matches(Lists(), Type(transactionType)) && !Matches(Lists(), Detail(id))
    ensures !Matches(Types(), List(filters)) && !Matches(Types(), Detail(id))
    ensures !Matches(Details(), List(filters)) && !Matches(Details(), Type(transactionType))
  {
    assert "list"[1] != "types"[1] && "list"[0] != "detail"[0] && "types"[0] != "detail"[0];
    assert Label("list") != Label("types") && Label("list") != Label("detail") && Label("types") != Label("detail");
    DifferentPartNoMatch(Lists(), Type(transactionType), 1);
    DifferentPartNoMatch(Lists(), Detail(id), 1);
    DifferentPartNoMatch(Types(), List(filters), 1);
    DifferentPartNoMatch(Types(), Detail(id), 1);
    DifferentPartNoMatch(Details(), List(filters), 1);
    DifferentPartNoMatch(Details(), Type(transactionType), 1);
  }

  /** Different types and different ids give different keys. */
  lemma TypeAndDetailInjective(t1: string, t2: string, id1: string, id2: string)
    ensures Type(t1) == Type(t2) ==> t1 == t2
    ensures Detail(id1) == Detail(id2) ==> id1 == id2
  {
    if Type(t1) == Type(t2) {
      assert Type(t1)[2] == Type(t2)[2];
    }
    if Detail(id1) == Detail(id2) {
      assert Detail(id1)[2] == Detail(id2)[2];
    }
  }
}
