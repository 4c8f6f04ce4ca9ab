/** Offset paging as the list endpoints do it: `skip = (page - 1) * limit`,
    `take = limit`, with page 1 and limit 10 when the query omits them. */
module Paging {
  import opened Common

  const DefaultPage: int := 1
  const DefaultLimit: int := 10

  function Min(a: int, b: int): int { if a <= b then a else b }

  /** The page and limit a query resolves to once defaults are applied. */
  function EffectivePage(page: Option<int>): int { page.GetOr(DefaultPage) }
  function EffectiveLimit(limit: Option<int>): int { limit.GetOr(DefaultLimit) }

  predicate ValidPaging(page: Option<int>, limit: Option<int>) {
    EffectivePage(page) >= 1 && EffectiveLimit(limit) >= 1
  }

  /** Number of rows skipped before the requested page. */
  function Skip(page: int, limit: int): (r: int)
    requires page >= 1 && limit >= 1
    ensures 0 <= r
    ensures page == 1 ==> r == 0
  {
    (page - 1) * limit
  }

  /** The rows of `s` a query with `skip`/`take` returns. */
  function PageOf<T>(s: seq<T>, page: int, limit: int): (r: seq<T>)
    requires page >= 1 && limit >= 1
    ensures |r| <= limit
    ensures |r| == if Skip(page, limit) >= |s| then 0 else Min(limit, |s| - Skip(page, limit))
    ensures forall i :: 0 <= i < |r| ==> r[i] == s[Skip(page, limit) + i]
  {
    var skip := Skip(page, limit);
    if skip >= |s| then [] else s[skip .. Min(skip + limit, |s|)]
  }

  /** Each page starts `limit` rows after the one before it. */
  lemma NextPageStart(page: int, limit: int)
    requires page >= 1 && limit >= 1
    ensures Skip(page + 1, limit) == Skip(page, limit) + limit
  {
  }

  /** `order` enumerates `keys`, each exactly once, as a query over a whole
      table does. */
  predicate ListsEachOnce<K>(order: seq<K>, keys: set<K>) {
    && (forall i :: 0 <= i < |order| ==> order[i] in keys)
    && (forall k :: k in keys ==> k in order)
    && (forall i, j :: 0 <= i < j < |order| ==> order[i] != order[j])
  }

  /** A listing of every row once is as long as the table. */
  lemma {:induction false} ListsEachOnceSize<K>(order: seq<K>, keys: set<K>)
    requires ListsEachOnce(order, keys)
    ensures |order| == |keys|
  {
    if order != [] {
      var rest := keys - {order[0]};
      forall k | k in rest ensures k in order[1..] {
        var i :| 0 <= i < |order| && order[i] == k;
        assert i != 0;
        assert order[1..][i - 1] == k;
      }
      assert ListsEachOnce(order[1..], rest);
      ListsEachOnceSize(order[1..], rest);
    } else {
      assert keys == {};
    }
  }

  /** Pages 1 to n of `s`, one after the other. */
  function FirstPages<T>(s: seq<T>, n: nat, limit: int): seq<T>
    requires limit >= 1
  {
    if n == 0 then [] else FirstPages(s, n - 1, limit) + PageOf(s, n, limit)
  }

  /** Reading pages 1..n in turn yields exactly the first n * limit rows: no
      row is skipped and none is listed twice. */
  lemma {:induction false} FirstPagesArePrefix<T>(s: seq<T>, n: nat, limit: int)
    requires limit >= 1
    ensures FirstPages(s, n, limit) == s[..Min(|s|, n * limit)]
  {
    if n > 0 {
      FirstPagesArePrefix(s, n - 1, limit);
      var skip := Skip(n, limit);
      NextPageStart(n, limit);
      var end := Skip(n + 1, limit);
      assert end == n * limit;
      var page := PageOf(s, n, limit);
      if skip >= |s| {
        assert Min(|s|, end) == |s|;
      } else {
        assert page == s[skip .. Min(end, |s|)];
        assert s[..skip] + s[skip .. Min(end, |s|)] == s[..Min(|s|, end)];
      }
    }
  }

  /** Row k of `s` is found on page k / limit + 1, at position k % limit. */
  lemma RowIsOnItsPage<T>(s: seq<T>, k: nat, limit: int)
    requires k < |s| && limit >= 1
    ensures var page := PageOf(s, k / limit + 1, limit);
      k % limit < |page| && page[k % limit] == s[k]
  {
    var p := k / limit + 1;
    assert Skip(p, limit) == (k / limit) * limit;
    assert k == (k / limit) * limit + k % limit;
  }
}
