/**
  The popup's capture store (popup.js:302-333): the list of request records, newest first,
  into which every published fragment is merged by id, cleaned of null entries and cut to
  the newest 200.
 */
module CaptureStore {
  import opened Wrappers
  import opened JsValue

  /** The most records the popup keeps (popup.js:328). */
  const Capacity: nat := 200

  /** `capturedRequests`: a stored array may hold null entries, hence the options. */
  type Store = seq<Option<Record>>

  /** `req.id`, or undefined for a null entry. */
  function IdOf(entry: Option<Record>): Value {
    if entry.Some? then Get(entry.value, "id") else Undefined
  }

  /** `req && req.id === id` (popup.js:311). */
  predicate HasId(entry: Option<Record>, id: Value) {
    entry.Some? && StrictEq(IdOf(entry), id)
  }

  /** Two entries carry the same (truthy) id. */
  predicate SameId(a: Option<Record>, b: Option<Record>) {
    Truthy(IdOf(a)) && HasId(b, IdOf(a))
  }

  predicate NoNulls(s: Store) {
    forall i :: 0 <= i < |s| ==> s[i].Some?
  }

  /** No two entries of the store carry the same id. */
  predicate UniqueIds(s: Store) {
    forall i, j :: 0 <= i < j < |s| ==> !SameId(s[i], s[j])
  }

  /** The guard of popup.js:305: a request message is merged only when it has a truthy id. */
  predicate Accepts(request: Value) {
    Truthy(request) && Truthy(Prop(request, "id"))
  }

  /** An accepted request is an object whose `id` key is present. */
  lemma AcceptedIsRecord(request: Value)
    requires Accepts(request)
    ensures request.Obj? && "id" in request.fields && Truthy(request.fields["id"])
  {
  }

  /** `findIndex(req => req && req.id === id)`: the first entry carrying `id`. */
  function FindIndex(s: Store, id: Value): (r: Option<nat>)
    ensures r.Some? ==> r.value < |s| && HasId(s[r.value], id)
    ensures r.Some? ==> forall j :: 0 <= j < r.value ==> !HasId(s[j], id)
    ensures r.None? ==> forall j :: 0 <= j < |s| ==> !HasId(s[j], id)
  {
    if s == [] then None
    else if HasId(s[0], id) then Some(0)
    else
      match FindIndex(s[1..], id)
      case Some(k) => Some(k + 1)
      case None => None
  }

  /** `{ ...existing, ...incoming }`: the incoming keys win, every other key is kept. */
  function Overlay(existing: Record, incoming: Record): (r: Record)
    ensures r.Keys == existing.Keys + incoming.Keys
    ensures forall k :: k in incoming ==> r[k] == incoming[k]
    ensures forall k :: k in existing && k !in incoming ==> r[k] == existing[k]
  {
    existing + incoming
  }

  /** popup.js:311-322: overlay the entry with the same id in place, or prepend a new one. */
  function Upsert(s: Store, incoming: Record): Store {
    match FindIndex(s, Get(incoming, "id"))
    case Some(i) => s[i := Some(Overlay(s[i].value, incoming))]
    case None => [Some(incoming)] + s
  }

  /** `a` is `b` with some elements left out, the rest in their order. */
  predicate IsSubsequence(a: Store, b: Store)
    decreases |b|
  {
    if a == [] then true
    else if b == [] then false
    else (a[0] == b[0] && IsSubsequence(a[1..], b[1..])) || IsSubsequence(a, b[1..])
  }

  /** `filter(req => req !== null && req !== undefined)` (popup.js:325). */
  function Compact(s: Store): (r: Store)
    ensures NoNulls(r) && |r| <= |s|
    ensures forall e :: e in r ==> e in s
    ensures NoNulls(s) ==> r == s
  {
    if s == [] then []
    else if s[0].None? then Compact(s[1..])
    else [s[0]] + Compact(s[1..])
  }

  /**
    Dropping null entries keeps every record, as often as it occurs and in its order: only
    the null entries go.
   */
  lemma {:induction false} CompactKeepsRecords(s: Store)
    ensures forall e: Option<Record> :: e.Some? ==> multiset(Compact(s))[e] == multiset(s)[e]
    ensures IsSubsequence(Compact(s), s)
  {
    if s != [] {
      CompactKeepsRecords(s[1..]);
      var rest := Compact(s[1..]);
      assert s == [s[0]] + s[1..];
      if s[0].Some? {
        assert ([s[0]] + rest)[1..] == rest;
      }
    }
  }

  /** `slice(0, 200)` when longer (popup.js:328-330). */
  function Cap(s: Store): Store {
    if |s| > Capacity then s[..Capacity] else s
  }

  /** The store after the `newRequest` handler merges `incoming` (popup.js:311-330). */
  function Merge(s: Store, incoming: Record): (r: Store)
    ensures NoNulls(r) && |r| <= Capacity
    ensures var merged := Compact(Upsert(s, incoming));
      |r| == (if |merged| > Capacity then Capacity else |merged|) && r == merged[..|r|]
  {
    Cap(Compact(Upsert(s, incoming)))
  }

  /**
    Merging a fragment whose id is already stored replaces that entry by the overlay, at the
    same index, and leaves every other entry and the length as they were.
   */
  lemma MergeExisting(s: Store, incoming: Record, i: nat)
    requires NoNulls(s) && |s| <= Capacity
    requires FindIndex(s, Get(incoming, "id")) == Some(i)
    ensures |Merge(s, incoming)| == |s|
    ensures Merge(s, incoming)[i] == Some(Overlay(s[i].value, incoming))
    ensures forall j :: 0 <= j < |s| && j != i ==> Merge(s, incoming)[j] == s[j]
  {
    var updated := s[i := Some(Overlay(s[i].value, incoming))];
    assert Upsert(s, incoming) == updated;
    assert NoNulls(updated);
  }

  /**
    Merging a fragment with a new id puts it at index 0 and shifts every earlier entry back
    by one, in order; when the store was full, only its last (oldest) entry is evicted.
   */
  lemma MergeNew(s: Store, incoming: Record)
    requires NoNulls(s)
    requires FindIndex(s, Get(incoming, "id")).None?
    ensures Merge(s, incoming)[0] == Some(incoming)
    ensures |Merge(s, incoming)| == if |s| < Capacity then |s| + 1 else Capacity
    ensures forall k :: 0 <= k < |Merge(s, incoming)| - 1 ==> Merge(s, incoming)[k + 1] == s[k]
  {
    var updated := [Some(incoming)] + s;
    assert Upsert(s, incoming) == updated;
    assert NoNulls(updated);
    assert Compact(updated) == updated;
  }

  /**
    On any store, null entries included, a fragment with a new id is put in front of the
    store's records, which keep their order; then the newest 200 are kept.
   */
  lemma MergeNewAnyStore(s: Store, incoming: Record)
    requires FindIndex(s, Get(incoming, "id")).None?
    ensures Merge(s, incoming) == Cap([Some(incoming)] + Compact(s))
  {
    var updated := [Some(incoming)] + s;
    assert updated[1..] == s;
    assert Compact(updated) == [Some(incoming)] + Compact(s);
  }

  /** A merge keeps every field the stored record had and the fragment does not carry. */
  lemma MergeIsFieldWise(s: Store, incoming: Record, i: nat, key: string)
    requires NoNulls(s) && |s| <= Capacity
    requires FindIndex(s, Get(incoming, "id")) == Some(i)
    requires key in s[i].value && key !in incoming
    ensures Merge(s, incoming)[i].Some?
    ensures key in Merge(s, incoming)[i].value
    ensures Merge(s, incoming)[i].value[key] == s[i].value[key]
  {
    MergeExisting(s, incoming, i);
  }

  /** Dropping null entries keeps ids unique. */
  lemma {:induction false} CompactKeepsUniqueIds(s: Store)
    requires UniqueIds(s)
    ensures UniqueIds(Compact(s))
  {
    if s != [] {
      var rest := Compact(s[1..]);
      assert UniqueIds(s[1..]) by {
        forall i, j | 0 <= i < j < |s[1..]| ensures !SameId(s[1..][i], s[1..][j]) {
          assert s[1..][i] == s[i + 1] && s[1..][j] == s[j + 1];
        }
      }
      CompactKeepsUniqueIds(s[1..]);
      if s[0].Some? {
        var r := [s[0]] + rest;
        forall i, j | 0 <= i < j < |r| ensures !SameId(r[i], r[j]) {
          if i == 0 {
            assert r[j] in s[1..];
            var k :| 0 <= k < |s[1..]| && s[1..][k] == r[j];
            assert s[k + 1] == r[j];
          } else {
            assert r[i] == rest[i - 1] && r[j] == rest[j - 1];
          }
        }
      }
    }
  }

  /** Overlaying or prepending by id keeps ids unique. */
  lemma UpsertKeepsUniqueIds(s: Store, incoming: Record)
    requires UniqueIds(s)
    ensures UniqueIds(Upsert(s, incoming))
  {
    var id := Get(incoming, "id");
    var u := Upsert(s, incoming);
    match FindIndex(s, id)
    case Some(i) =>
      var merged := Some(Overlay(s[i].value, incoming));
      assert IdOf(merged) == IdOf(s[i]);
      forall j, k | 0 <= j < k < |u| ensures !SameId(u[j], u[k]) {
        assert IdOf(u[j]) == IdOf(s[j]) && u[j].Some? == s[j].Some?;
        assert IdOf(u[k]) == IdOf(s[k]) && u[k].Some? == s[k].Some?;
      }
    case None =>
      forall j, k | 0 <= j < k < |u| ensures !SameId(u[j], u[k]) {
        if j == 0 {
          assert u[k] == s[k - 1];
        } else {
          assert u[j] == s[j - 1] && u[k] == s[k - 1];
        }
      }
  }

  /** If the ids in the store are unique before a merge, they are unique after it. */
  lemma MergeKeepsUniqueIds(s: Store, incoming: Record)
    requires UniqueIds(s)
    ensures UniqueIds(Merge(s, incoming))
  {
    UpsertKeepsUniqueIds(s, incoming);
    CompactKeepsUniqueIds(Upsert(s, incoming));
    var c := Compact(Upsert(s, incoming));
    var r := Merge(s, incoming);
    forall j, k | 0 <= j < k < |r| ensures !SameId(r[j], r[k]) {
      assert r[j] == c[j] && r[k] == c[k];
    }
  }

  /**
    The life of one request: its first fragment (new id) is put in front of the store's
    records, and a later fragment with the same id is overlaid onto it, so the store holds
    one record carrying both, whatever nulls or how many records the store held.
   */
  lemma FragmentsMergeIntoOne(s: Store, first: Record, later: Record)
    requires Truthy(Get(first, "id")) && Primitive(Get(first, "id"))
    requires FindIndex(s, Get(first, "id")).None?
    requires Get(later, "id") == Get(first, "id")
    ensures Merge(Merge(s, first), later) == Cap([Some(Overlay(first, later))] + Compact(s))
  {
    var once := Merge(s, first);
    MergeNewAnyStore(s, first);
    assert FindIndex(once, Get(later, "id")) == Some(0);
    MergeExisting(once, later, 0);
    var twice := Merge(once, later);
    var expected := Cap([Some(Overlay(first, later))] + Compact(s));
    assert |twice| == |expected|;
    forall k | 0 <= k < |twice| ensures twice[k] == expected[k] {
      if k > 0 {
        assert twice[k] == once[k] == Compact(s)[k - 1];
      }
    }
  }
}
