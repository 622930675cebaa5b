/** Keyset pagination of a player's rounds: internal/games/read.go (History). */
module HistoryPages {
  import opened Wrappers

  type Id = nat

  datatype Row = Row(user: nat, game: string, createdAt: int)
  datatype Page = Page(items: seq<Id>, next: Option<Id>)
  datatype Error = InvalidInput

  const GAMES: set<string> := {"", "dice", "scratch", "summon", "slot", "blackjack"}

  predicate Matches(rows: map<Id, Row>, user: nat, game: string, id: Id) {
    id in rows && rows[id].user == user && (game == "" || rows[id].game == game)
  }

  /** The display order: by creation time, then by id. */
  predicate Newer(rows: map<Id, Row>, a: Id, b: Id) {
    && a in rows && b in rows
    && (rows[a].createdAt > rows[b].createdAt || (rows[a].createdAt == rows[b].createdAt && a > b))
  }

  /** The rows a query with this cursor asks for. */
  predicate InScope(rows: map<Id, Row>, user: nat, game: string, before: Option<Id>, id: Id) {
    Matches(rows, user, game, id) && (before.Some? ==> Newer(rows, before.value, id))
  }

  predicate Descending(rows: map<Id, Row>, items: seq<Id>) {
    forall i, j :: 0 <= i < j < |items| ==> Newer(rows, items[i], items[j])
  }

  /** The first rows in scope, newest first, nothing left out between them; a next cursor exactly when there is more. */
  ghost predicate IsPage(rows: map<Id, Row>, user: nat, game: string, before: Option<Id>, limit: nat, page: Page) {
    && Descending(rows, page.items) && |page.items| <= limit
    && (forall i :: 0 <= i < |page.items| ==> InScope(rows, user, game, before, page.items[i]))
    && (page.next.None? ==> forall id :: InScope(rows, user, game, before, id) ==> id in page.items)
    && (page.next.Some? ==>
          && |page.items| == limit > 0 && page.next.value == page.items[limit - 1]
          && (exists id :: InScope(rows, user, game, page.next, id))
          && forall id :: InScope(rows, user, game, before, id) ==>
            id in page.items || Newer(rows, page.next.value, id))
  }

  /** The newest row in scope of a cursor. */
  method Newest(rows: map<Id, Row>, user: nat, game: string, before: Option<Id>) returns (r: Option<Id>)
    ensures r.None? ==> forall id :: !InScope(rows, user, game, before, id)
    ensures r.Some? ==> InScope(rows, user, game, before, r.value)
    ensures r.Some? ==> forall id :: InScope(rows, user, game, before, id) ==> id == r.value || Newer(rows, r.value, id)
  {
    r := None;
    var rest := rows.Keys;
    while rest != {}
      invariant rest <= rows.Keys
      invariant r.Some? ==> InScope(rows, user, game, before, r.value)
      invariant forall id :: InScope(rows, user, game, before, id) && id !in rest ==>
                r.Some? && (id == r.value || Newer(rows, r.value, id))
      decreases rest
    {
      var id :| id in rest;
      if InScope(rows, user, game, before, id) && (r.None? || Newer(rows, id, r.value)) {
        r := Some(id);
      }
      rest := rest - {id};
    }
    assert forall id :: InScope(rows, user, game, before, id) ==> id in rows.Keys;
  }

  /** What has been fetched so far: the newest rows in scope, all others older than the last. */
  ghost predicate Fetched(rows: map<Id, Row>, user: nat, game: string, before: Option<Id>, ids: seq<Id>) {
    && Descending(rows, ids)
    && (forall i :: 0 <= i < |ids| ==> InScope(rows, user, game, before, ids[i]))
    && (forall id :: InScope(rows, user, game, before, id) ==>
          id in ids || InScope(rows, user, game, Last(ids, before), id))
  }

  function Last(ids: seq<Id>, before: Option<Id>): Option<Id> { if ids == [] then before else Some(ids[|ids| - 1]) }

  lemma FetchOne(rows: map<Id, Row>, user: nat, game: string, before: Option<Id>, ids: seq<Id>, id: Id)
    requires Fetched(rows, user, game, before, ids) && InScope(rows, user, game, Last(ids, before), id)
    requires forall k :: InScope(rows, user, game, Last(ids, before), k) ==> k == id || Newer(rows, id, k)
    ensures Fetched(rows, user, game, before, ids + [id])
  {
    var more := ids + [id];
    forall i, j | 0 <= i < j < |more| ensures Newer(rows, more[i], more[j]) {
      if j == |ids| && i < |ids| - 1 { assert Newer(rows, ids[i], ids[|ids| - 1]) && Newer(rows, ids[|ids| - 1], id); }
    }
    forall k | InScope(rows, user, game, before, k) ensures k in more || InScope(rows, user, game, Some(id), k) {
      if k !in ids && k != id { assert Newer(rows, id, k); }
      assert k == id ==> more[|ids|] == k;
    }
  }

  /** Cutting the extra row off leaves it as the proof that there is more. */
  lemma PageCut(rows: map<Id, Row>, user: nat, game: string, before: Option<Id>, ids: seq<Id>, limit: nat)
    requires Fetched(rows, user, game, before, ids) && |ids| == limit + 1 && limit > 0
    ensures IsPage(rows, user, game, before, limit, Page(ids[..limit], Some(ids[limit - 1])))
  {
    var items, last := ids[..limit], ids[limit - 1];
    assert InScope(rows, user, game, Some(last), ids[limit]);
    forall id | InScope(rows, user, game, before, id) ensures id in items || Newer(rows, last, id) {
      if id in ids {
        var i :| 0 <= i < |ids| && ids[i] == id;
        if i < limit { assert items[i] == id; }
      } else {
        assert Newer(rows, ids[limit], id) && Newer(rows, last, ids[limit]);
      }
    }
  }

  method History(rows: map<Id, Row>, user: nat, game: string, before: Option<Id>, size: int)
    returns (r: Result<Page, Error>)
    ensures r.Err? <==>
              || user == 0 || game !in GAMES || size < 0 || size > 50
              || (before.Some? && !Matches(rows, user, game, before.value))
    ensures r.Ok? ==> IsPage(rows, user, game, before, if size == 0 then 20 else size, r.value)
  {
    if user == 0 || game !in GAMES || size < 0 || size > 50
       || (before.Some? && !Matches(rows, user, game, before.value)) {
      return Err(InvalidInput);
    }
    var limit: nat := if size == 0 then 20 else size;
    var ids: seq<Id> := [];
    var ended := false;
    while |ids| < limit + 1 && !ended
      invariant |ids| <= limit + 1
      invariant Fetched(rows, user, game, before, ids)
      invariant ended ==> |ids| <= limit && forall id :: !InScope(rows, user, game, Last(ids, before), id)
      decreases limit + 1 - |ids|, !ended
    {
      var next := Newest(rows, user, game, Last(ids, before));
      if next.None? {
        ended := true;
      } else {
        FetchOne(rows, user, game, before, ids, next.value);
        ids := ids + [next.value];
      }
    }
    if |ids| <= limit {
      return Ok(Page(ids, None));
    }
    PageCut(rows, user, game, before, ids, limit);
    r := Ok(Page(ids[..limit], Some(ids[limit - 1])));
  }

  // --------------------------------------------------------------- walking

  /** One request of a walk: the rows at that moment and the page answered. */
  datatype Visit = Visit(rows: map<Id, Row>, page: Page)

  ghost predicate Within(rows: map<Id, Row>, rows': map<Id, Row>) {
    forall id :: id in rows ==> id in rows' && rows'[id] == rows[id]
  }

  /** Following each next cursor to the end, while rounds may be added at any moment. */
  ghost predicate Walk(visits: seq<Visit>, user: nat, game: string, before: Option<Id>, limit: nat)
    decreases |visits|
  {
    && visits != []
    && IsPage(visits[0].rows, user, game, before, limit, visits[0].page)
    && (if |visits| == 1 then visits[0].page.next.None?
        else && visits[0].page.next.Some? && Within(visits[0].rows, visits[1].rows)
             && Walk(visits[1..], user, game, visits[0].page.next, limit))
  }

  function Seen(visits: seq<Visit>): seq<Id>
    decreases |visits|
  {
    if visits == [] then [] else visits[0].page.items + Seen(visits[1..])
  }

  lemma DescendingJoin(rows: map<Id, Row>, a: seq<Id>, b: seq<Id>)
    requires Descending(rows, a) && Descending(rows, b) && a != []
    requires forall i :: 0 <= i < |b| ==> Newer(rows, a[|a| - 1], b[i])
    ensures Descending(rows, a + b)
  {
    var all := a + b;
    forall i, j | 0 <= i < j < |all| ensures Newer(rows, all[i], all[j]) {
      if i < |a| <= j && i < |a| - 1 { assert Newer(rows, a[i], a[|a| - 1]) && Newer(rows, a[|a| - 1], b[j - |a|]); }
    }
  }

  lemma Kept(rows: map<Id, Row>, rows': map<Id, Row>, user: nat, game: string, before: Option<Id>, id: Id)
    requires Within(rows, rows') && InScope(rows, user, game, before, id)
    ensures InScope(rows', user, game, before, id)
  {
  }

  lemma {:induction false} WithinLast(visits: seq<Visit>, user: nat, game: string, before: Option<Id>, limit: nat)
    requires Walk(visits, user, game, before, limit)
    ensures Within(visits[0].rows, visits[|visits| - 1].rows)
    decreases |visits|
  {
    if |visits| > 1 {
      WithinLast(visits[1..], user, game, visits[0].page.next, limit);
      assert visits[1..][0] == visits[1] && visits[1..][|visits| - 2] == visits[|visits| - 1];
    }
  }

  /** A whole walk shows newest first, never the same round twice, and every round that was there when it began. */
  lemma {:induction false} WalkComplete(visits: seq<Visit>, user: nat, game: string, before: Option<Id>, limit: nat)
    requires Walk(visits, user, game, before, limit)
    ensures var final := visits[|visits| - 1].rows;
            && Descending(final, Seen(visits))
            && (forall i :: 0 <= i < |Seen(visits)| ==> InScope(final, user, game, before, Seen(visits)[i]))
            && (forall id :: InScope(visits[0].rows, user, game, before, id) ==> id in Seen(visits))
    decreases |visits|
  {
    var final := visits[|visits| - 1].rows;
    var page := visits[0].page;
    WithinLast(visits, user, game, before, limit);
    if |visits| == 1 {
      assert Seen(visits[1..]) == [];
      assert Seen(visits) == page.items;
    } else {
      var rest := visits[1..];
      assert rest[0] == visits[1] && rest[|rest| - 1] == visits[|visits| - 1];
      WalkComplete(rest, user, game, page.next, limit);
      forall i | 0 <= i < |page.items| ensures InScope(final, user, game, before, page.items[i]) {
        Kept(visits[0].rows, final, user, game, before, page.items[i]);
      }
      DescendingJoin(final, page.items, Seen(rest));
      forall i | 0 <= i < |Seen(visits)| ensures InScope(final, user, game, before, Seen(visits)[i]) {
        if i >= |page.items| { OlderStays(final, user, game, before, page.next.value, Seen(rest)[i - |page.items|]); }
      }
      forall id | InScope(visits[0].rows, user, game, before, id) ensures id in Seen(visits) {
        if id !in page.items {
          assert InScope(visits[0].rows, user, game, page.next, id);
          Kept(visits[0].rows, visits[1].rows, user, game, page.next, id);
        }
      }
    }
  }

  lemma OlderStays(rows: map<Id, Row>, user: nat, game: string, before: Option<Id>, mid: Id, id: Id)
    requires InScope(rows, user, game, before, mid) && InScope(rows, user, game, Some(mid), id)
    ensures InScope(rows, user, game, before, id)
  {
  }
}
