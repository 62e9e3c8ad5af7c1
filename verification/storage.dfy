/** lib/storage.ts: the local invoice list kept when no database is
    configured. Saving an invoice upserts it by id, deleting one filters
    out every invoice with that id. */
module Storage {
  import opened Wrappers
  import opened Types

  /** The position of the first invoice with id `id`, if there is one. */
  function FirstWithId(list: seq<Invoice>, id: string): (r: Option<nat>)
    ensures r.Some? ==> r.value < |list| && list[r.value].id == id
    ensures r.Some? ==> forall j :: 0 <= j < r.value ==> list[j].id != id
    ensures r.None? <==> forall j :: 0 <= j < |list| ==> list[j].id != id
    decreases |list|
  {
    if list == [] then None
    else if list[0].id == id then Some(0)
    else match FirstWithId(list[1..], id)
      case None => None
      case Some(k) => Some(k + 1)
  }

  /** What `upsertLocal` returns: the first invoice with the same id is
      replaced where it stands, and a new id goes to the front. */
  function Upsert(list: seq<Invoice>, inv: Invoice): seq<Invoice> {
    match FirstWithId(list, inv.id)
    case Some(k) => list[k := inv]
    case None => [inv] + list
  }

  /** `findIndex((i) => i.id === id)`: the first index holding the id,
      or -1. */
  method FindIndex(next: array<Invoice>, id: string) returns (idx: int)
    ensures -1 <= idx < next.Length
    ensures idx >= 0 ==> next[idx].id == id && forall j :: 0 <= j < idx ==> next[j].id != id
    ensures idx == -1 ==> forall j :: 0 <= j < next.Length ==> next[j].id != id
  {
    var i := 0;
    while i < next.Length
      invariant 0 <= i <= next.Length
      invariant forall j :: 0 <= j < i ==> next[j].id != id
    {
      if next[i].id == id {
        return i;
      }
      i := i + 1;
    }
    return -1;
  }

  /** `upsertLocal`: copy the list, then overwrite the match in the copy
      or put the invoice in front of it. */
  method UpsertLocal(list: seq<Invoice>, inv: Invoice) returns (result: seq<Invoice>)
    ensures result == Upsert(list, inv)
  {
    var next := new Invoice[|list|](i requires 0 <= i < |list| => list[i]);
    assert next[..] == list;
    var idx := FindIndex(next, inv.id);
    if idx >= 0 {
      next[idx] := inv;
      result := next[..];
    } else {
      result := [inv] + next[..];
    }
  }

  /** No two invoices share an id. */
  predicate UniqueIds(list: seq<Invoice>) {
    forall i, j :: 0 <= i < j < |list| ==> list[i].id != list[j].id
  }

  /** An upsert grows the list by one exactly when the id is new; the
      saved invoice is in the result; every other entry keeps its place
      (shifted by one for a new id). */
  lemma UpsertShape(list: seq<Invoice>, inv: Invoice)
    ensures var r := Upsert(list, inv);
      && (|r| == |list| <==> exists j :: 0 <= j < |list| && list[j].id == inv.id)
      && (|r| == |list| + 1 <==> forall j :: 0 <= j < |list| ==> list[j].id != inv.id)
      && inv in r
  {
    match FirstWithId(list, inv.id)
    case Some(k) =>
      assert list[k].id == inv.id;
      assert Upsert(list, inv)[k] == inv;
    case None =>
      assert Upsert(list, inv)[0] == inv;
  }

  /** When the id is present, the first match is replaced and nothing
      else changes. */
  lemma UpsertReplaces(list: seq<Invoice>, inv: Invoice, k: nat)
    requires k < |list| && list[k].id == inv.id
    requires forall j :: 0 <= j < k ==> list[j].id != inv.id
    ensures var r := Upsert(list, inv);
      |r| == |list| && r[k] == inv && forall j :: 0 <= j < |list| && j != k ==> r[j] == list[j]
  {
    assert FirstWithId(list, inv.id) == Some(k);
  }

  /** When the id is new, the invoice goes first and the old list
      follows it unchanged. */
  lemma UpsertPrepends(list: seq<Invoice>, inv: Invoice)
    requires forall j :: 0 <= j < |list| ==> list[j].id != inv.id
    ensures Upsert(list, inv) == [inv] + list
  {
  }

  /** Saving the same invoice twice is saving it once. */
  lemma UpsertIdempotent(list: seq<Invoice>, inv: Invoice)
    ensures Upsert(Upsert(list, inv), inv) == Upsert(list, inv)
  {
    var r := Upsert(list, inv);
    match FirstWithId(list, inv.id)
    case Some(k) =>
      UpsertReplaces(r, inv, k);
      assert r[k := inv] == r;
    case None =>
      assert r[0] == inv;
      UpsertReplaces(r, inv, 0);
      assert r[0 := inv] == r;
  }

  /** Upserting keeps ids unique. */
  lemma UpsertKeepsUnique(list: seq<Invoice>, inv: Invoice)
    requires UniqueIds(list)
    ensures UniqueIds(Upsert(list, inv))
  {
    var r := Upsert(list, inv);
    match FirstWithId(list, inv.id)
    case Some(k) =>
      forall i, j | 0 <= i < j < |r|
        ensures r[i].id != r[j].id
      {
        assert r[i].id == list[i].id && r[j].id == list[j].id;
      }
    case None =>
      forall i, j | 0 <= i < j < |r|
        ensures r[i].id != r[j].id
      {
        if i > 0 {
          assert r[i] == list[i - 1] && r[j] == list[j - 1];
        } else {
          assert r[j] == list[j - 1];
        }
      }
  }

  /** The local delete, `filter((i) => i.id !== id)`. */
  function Delete(list: seq<Invoice>, id: string): (r: seq<Invoice>)
    ensures |r| <= |list|
    ensures forall x :: x in r <==> x in list && x.id != id
    decreases |list|
  {
    if list == [] then []
    else (if list[0].id != id then [list[0]] else []) + Delete(list[1..], id)
  }

  /** Deleting works entry by entry, so the entries kept stay in their
      order. */
  lemma {:induction false} DeleteAppend(a: seq<Invoice>, b: seq<Invoice>, id: string)
    ensures Delete(a + b, id) == Delete(a, id) + Delete(b, id)
    decreases |a|
  {
    if a == [] {
      assert a + b == b;
    } else {
      assert (a + b)[1..] == a[1..] + b;
      DeleteAppend(a[1..], b, id);
    }
  }

  /** Deleting an id that no entry has changes nothing. */
  lemma {:induction false} DeleteAbsent(list: seq<Invoice>, id: string)
    requires forall j :: 0 <= j < |list| ==> list[j].id != id
    ensures Delete(list, id) == list
    decreases |list|
  {
    if list != [] {
      DeleteAbsent(list[1..], id);
      assert list == [list[0]] + list[1..];
    }
  }

  /** Deleting keeps ids unique. */
  lemma {:induction false} DeleteKeepsUnique(list: seq<Invoice>, id: string)
    requires UniqueIds(list)
    ensures UniqueIds(Delete(list, id))
    decreases |list|
  {
    if list != [] {
      DeleteKeepsUnique(list[1..], id);
      var rest := Delete(list[1..], id);
      forall j | 0 <= j < |rest|
        ensures rest[j].id != list[0].id
      {
        assert rest[j] in list[1..];
      }
    }
  }

  /** Deleting the id just saved removes it whether the save replaced an
      entry or added one: the result is the old list without that id. */
  lemma DeleteAfterUpsert(list: seq<Invoice>, inv: Invoice)
    ensures Delete(Upsert(list, inv), inv.id) == Delete(list, inv.id)
  {
    match FirstWithId(list, inv.id)
    case Some(k) =>
      assert list == list[..k] + [list[k]] + list[k + 1..];
      assert list[k := inv] == list[..k] + [inv] + list[k + 1..];
      DeleteAppend(list[..k] + [list[k]], list[k + 1..], inv.id);
      DeleteAppend(list[..k], [list[k]], inv.id);
      DeleteAppend(list[..k] + [inv], list[k + 1..], inv.id);
      DeleteAppend(list[..k], [inv], inv.id);
    case None =>
      DeleteAppend([inv], list, inv.id);
  }
}
