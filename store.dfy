/** The "UserProfiles" collection as a value, and the reads and writes the
    screens issue against it: `get`, `update` (plain value or `arrayUnion`)
    and `set`. Whether the network call succeeds is an input. */
module Store {
  import opened Wrappers
  import opened Seqs
  import opened Documents

  /** User id to profile document. */
  type Store = map<string, Doc>

  const SavedContactsKey := "SavedContacts"

  /** One document handed back by a query: its id and its data. */
  datatype QueryDoc = QueryDoc(id: string, data: Doc)

  /** The outcome of `document(id).get()`: a failure, or a snapshot whose
      data is null when the document does not exist. */
  datatype ReadResult = ReadFailed | Snapshot(data: Option<Doc>)

  /** The result of a write: whether it succeeded, and the store afterwards. */
  datatype WriteResult = WriteResult(ok: bool, store: Store)

  function Read(store: Store, id: string, readOk: bool): (r: ReadResult)
    ensures !readOk <==> r.ReadFailed?
    ensures r.Snapshot? ==> (r.data.Some? <==> id in store) && (id in store ==> r.data == Some(store[id]))
  {
    if !readOk then ReadFailed
    else if id in store then Snapshot(Some(store[id]))
    else Snapshot(None)
  }

  /** `snapshot.get("SavedContacts") as? List<*> ?: emptyList()`: a missing
      document, a missing field and a field that is not a list all read as empty. */
  function SavedContactsOf(data: Option<Doc>): (r: seq<Value>)
    ensures data.None? ==> r == []
    ensures data.Some? && (SavedContactsKey !in data.value || !data.value[SavedContactsKey].Lst?) ==> r == []
    ensures data.Some? && SavedContactsKey in data.value && data.value[SavedContactsKey].Lst? ==>
      r == data.value[SavedContactsKey].items
  {
    match data
    case None => []
    case Some(d) => ListField(d, SavedContactsKey).GetOr([])
  }

  /** The saved-contacts list of user `id` as stored. */
  function SavedContactsIn(store: Store, id: string): seq<Value>
  {
    SavedContactsOf(if id in store then Some(store[id]) else None)
  }

  /** The union of a list with one element, as `FieldValue.arrayUnion` computes it:
      the element is appended only when absent. */
  function ArrayUnion(xs: seq<Value>, x: Value): (r: seq<Value>)
    ensures x in r
    ensures forall y :: y in r <==> y in xs || y == x
    ensures xs <= r
    ensures x in xs ==> r == xs
    ensures x !in xs ==> |r| == |xs| + 1
  {
    if x in xs then xs else xs + [x]
  }

  /** Adding the same element twice is adding it once. */
  lemma ArrayUnionIdempotent(xs: seq<Value>, x: Value)
    ensures ArrayUnion(ArrayUnion(xs, x), x) == ArrayUnion(xs, x)
  {
  }

  /** A union never introduces a duplicate into a list that had none. */
  lemma ArrayUnionKeepsDistinct(xs: seq<Value>, x: Value)
    requires forall i, j :: 0 <= i < j < |xs| ==> xs[i] != xs[j]
    ensures var r := ArrayUnion(xs, x); forall i, j :: 0 <= i < j < |r| ==> r[i] != r[j]
  {
  }

  function Without(x: Value): Value -> bool
  {
    y => y != x
  }

  /** Kotlin's `filterNot { it == x }`: every occurrence of `x` dropped, the rest in order. */
  function RemoveAll(xs: seq<Value>, x: Value): (r: seq<Value>)
    ensures x !in r
    ensures forall y :: y != x ==> (y in r <==> y in xs)
  {
    var r := Filter(xs, Without(x));
    forall y ensures y in r <==> y in xs && y != x {
      FilterMembership(xs, Without(x), y);
    }
    r
  }

  /** The removal keeps the order of what is left. */
  lemma RemoveAllSubsequence(xs: seq<Value>, x: Value)
    ensures Subsequence(RemoveAll(xs, x), xs)
  {
    FilterSubsequence(xs, Without(x));
  }

  /** Removing twice is removing once. */
  lemma RemoveAllIdempotent(xs: seq<Value>, x: Value)
    ensures RemoveAll(RemoveAll(xs, x), x) == RemoveAll(xs, x)
  {
    FilterIdempotent(xs, Without(x));
  }

  /** Removing an element that is absent changes nothing. */
  lemma RemoveAllAbsent(xs: seq<Value>, x: Value)
    requires x !in xs
    ensures RemoveAll(xs, x) == xs
  {
    FilterKeepsAll(xs, Without(x));
  }

  /** Saving and then removing an id that was not saved gives the original list back. */
  lemma UnionThenRemove(xs: seq<Value>, x: Value)
    requires x !in xs
    ensures RemoveAll(ArrayUnion(xs, x), x) == xs
  {
    var w := Without(x);
    FilterKeepsAll(xs, w);
    FilterAppendOne(xs, x, w);
  }

  lemma {:induction false} FilterAppendOne(xs: seq<Value>, x: Value, keep: Value -> bool)
    ensures Filter(xs + [x], keep) == Filter(xs, keep) + (if keep(x) then [x] else [])
  {
    if xs == [] {
      assert [] + [x] == [x];
    } else {
      assert (xs + [x])[1..] == xs[1..] + [x];
      FilterAppendOne(xs[1..], x, keep);
    }
  }

  /** `document(id).update(key, v)`: Firestore refuses to update a document
      that does not exist, so the write succeeds only when the call does and
      the document is there; a failed write leaves the store as it was. */
  function Update(store: Store, id: string, key: string, v: Value, writeOk: bool): (r: WriteResult)
    ensures r.ok <==> writeOk && id in store
    ensures r.ok ==> r.store == store[id := store[id][key := v]]
    ensures !r.ok ==> r.store == store
  {
    if writeOk && id in store then WriteResult(true, store[id := store[id][key := v]])
    else WriteResult(false, store)
  }

  /** `document(id).update(key, FieldValue.arrayUnion(x))`: the field becomes
      the union of its list with `x`, or `[x]` when it held no list. */
  function UpdateUnion(store: Store, id: string, key: string, x: Value, writeOk: bool): (r: WriteResult)
    ensures r.ok <==> writeOk && id in store
    ensures !r.ok ==> r.store == store
  {
    if writeOk && id in store then
      var old_ := ListField(store[id], key).GetOr([]);
      Update(store, id, key, Lst(ArrayUnion(old_, x)), writeOk)
    else WriteResult(false, store)
  }

  /** After a successful union into SavedContacts the id is saved, nothing it
      held is lost, no other document and no other field changes. */
  lemma UpdateUnionSaves(store: Store, id: string, x: Value, writeOk: bool)
    ensures var r := UpdateUnion(store, id, SavedContactsKey, x, writeOk);
      r.ok ==>
        && x in SavedContactsIn(r.store, id)
        && SavedContactsIn(store, id) <= SavedContactsIn(r.store, id)
        && (x in SavedContactsIn(store, id) ==> r.store == store[id := store[id][SavedContactsKey := Lst(SavedContactsIn(store, id))]])
        && r.store.Keys == store.Keys
        && (forall other :: other in store && other != id ==> r.store[other] == store[other])
        && (forall k :: k in store[id] && k != SavedContactsKey ==> k in r.store[id] && r.store[id][k] == store[id][k])
  {
  }

  /** A second union of the same id writes back exactly what the first one left. */
  lemma UpdateUnionIdempotent(store: Store, id: string, x: Value)
    ensures var r1 := UpdateUnion(store, id, SavedContactsKey, x, true);
      var r2 := UpdateUnion(r1.store, id, SavedContactsKey, x, true);
      r1.ok && r2.ok ==> r2.store == r1.store
  {
    var r1 := UpdateUnion(store, id, SavedContactsKey, x, true);
    if r1.ok {
      var l := ArrayUnion(SavedContactsIn(store, id), x);
      assert r1.store[id][SavedContactsKey] == Lst(l);
      assert SavedContactsIn(r1.store, id) == l;
      ArrayUnionIdempotent(SavedContactsIn(store, id), x);
      assert r1.store[id][SavedContactsKey := Lst(l)] == r1.store[id];
    }
  }

  /** `document(id).set(doc)`: the whole document is replaced (or created). */
  function Set(store: Store, id: string, doc: Doc, writeOk: bool): (r: WriteResult)
    ensures r.ok == writeOk
    ensures r.ok ==> r.store == store[id := doc]
    ensures !r.ok ==> r.store == store
  {
    if writeOk then WriteResult(true, store[id := doc]) else WriteResult(false, store)
  }

  /** The ids of a query's documents, in order. */
  function DocIds(docs: seq<QueryDoc>): (r: seq<string>)
    ensures |r| == |docs|
    ensures forall i :: 0 <= i < |docs| ==> r[i] == docs[i].id
  {
    if docs == [] then [] else [docs[0].id] + DocIds(docs[1..])
  }
}
