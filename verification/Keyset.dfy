/** Keyset pagination: rows with an id above the last one seen, in id order, up to a limit. */
module Keyset {
  import opened Basics

  predicate Ascending(page: seq<nat>) {
    forall i, j | 0 <= i < j < |page| :: page[i] < page[j]
  }

  /** `page` is what `WHERE id > after ORDER BY id LIMIT limit` returns over `ids`. */
  predicate IsPage(ids: set<nat>, after: nat, limit: nat, page: seq<nat>) {
    && Ascending(page) && |page| <= limit
    && (forall i | 0 <= i < |page| :: page[i] in ids && page[i] > after)
    && (forall id | id in ids && id > after && id !in page :: |page| == limit && forall i | 0 <= i < |page| :: page[i] < id)
  }

  function SetOf(page: seq<nat>): (ids: set<nat>) {
    set id | id in page
  }

  lemma SetOfNext(page: seq<nat>, i: nat)
    requires i < |page|
    ensures SetOf(page[..i + 1]) == SetOf(page[..i]) + {page[i]}
  {
  }

  method LeastOf(ids: set<nat>) returns (least: nat)
    requires ids != {}
    ensures least in ids && forall id | id in ids :: least <= id
  {
    least :| least in ids;
    var rest := ids - {least};
    while rest != {}
      invariant rest <= ids && least in ids
      invariant forall id | id in ids && id !in rest :: least <= id
      decreases |rest|
    {
      var id :| id in rest;
      rest := rest - {id};
      if id < least {
        least := id;
      }
    }
  }

  method FetchPage(ids: set<nat>, after: nat, limit: nat) returns (page: seq<nat>)
    ensures IsPage(ids, after, limit, page)
  {
    page := [];
    var rest := set id | id in ids && id > after;
    while |page| < limit && rest != {}
      invariant |page| <= limit && Ascending(page)
      invariant forall id | id in rest :: id in ids && id > after
      invariant forall i | 0 <= i < |page| :: page[i] in ids && page[i] > after
      invariant forall id | id in ids && id > after :: id in page || id in rest
      invariant forall i, id | 0 <= i < |page| && id in rest :: page[i] < id
      decreases |rest|
    {
      var id := LeastOf(rest);
      page := page + [id];
      rest := rest - {id};
    }
  }

  /** An empty page means the scan is complete. */
  lemma EmptyPage(ids: set<nat>, after: nat, limit: nat)
    requires limit > 0
    ensures IsPage(ids, after, limit, []) <==> forall id | id in ids :: id <= after
  {
  }

  /** Everything between two page starts is on the page. */
  lemma PageCovers(ids: set<nat>, after: nat, limit: nat, page: seq<nat>, id: nat)
    requires IsPage(ids, after, limit, page) && page != []
    ensures id in ids && after < id <= Last(page) <==> id in page
  {
  }
}
