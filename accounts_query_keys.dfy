/** `accountKeys`: the cache keys of the account queries. */
module AccountsQueryKeys {
  import opened QueryKeys

  const All: Key := [Label("accounts")]

  function Lists(): Key { All + [Label("list")] }

  function List(filters: string): Key { Lists() + [Filters(filters)] }

  function Details(): Key { All + [Label("detail")] }

  function Detail(id: string): Key { Details() + [Label(id)] }

  /** Every account key starts with `['accounts']`. */
  lemma EveryKeyUnderAll(filters: string, id: string)
    ensures Matches(All, Lists()) && Matches(All, List(filters))
    ensures Matches(All, Details()) && Matches(All, Detail(id))
  {
  }

  /** `lists()` is `['accounts', 'list']` and is a strict prefix of every `list(f)`. */
  lemma ListsCoverList(filters: string)
    ensures Lists() == [Label("accounts"), Label("list")]
    ensures Matches(Lists(), List(filters)) && Lists() != List(filters)
  {
  }

  /** `detail(id)` is `['accounts', 'detail', id]`, and different ids give different keys. */
  lemma DetailInjective(id1: string, id2: string)
    ensures Detail(id1) == [Label("accounts"), Label("detail"), Label(id1)]
    ensures Detail(id1) == Detail(id2) ==> id1 == id2
  {
    if Detail(id1) == Detail(id2) {
      assert Detail(id1)[2] == Detail(id2)[2];
    }
  }

  /** Invalidating the lists never reaches a detail query, and invalidating a
      detail never reaches a list. */
  lemma ListsAndDetailsSeparate(filters: string, id: string)
    ensures !Matches(Lists(), Detail(id)) && !Matches(Detail(id), List(filters))
    ensures !Matches(Details(), List(filters)) && !Matches(Lists(), Details())
  {
    assert "list" != "detail" by {
      assert "list"[0] != "detail"[0];
    }
    DifferentPartNoMatch(Lists(), Detail(id), 1);
    DifferentPartNoMatch(Detail(id), List(filters), 1);
    DifferentPartNoMatch(Details(), List(filters), 1);
    DifferentPartNoMatch(Lists(), Details(), 1);
  }

  /** Updating account `id` invalidates its detail and the lists; it reaches
      no other account's detail. */
  lemma UpdateInvalidation(id: string, other: string, filters: string)
    requires other != id
    ensures Matches(Detail(id), Detail(id)) && Matches(Lists(), List(filters))
    ensures !Matches(Detail(id), Detail(other))
  {
    DifferentPartNoMatch(Detail(id), Detail(other), 2);
  }
}
