/** The listing tables and the maintenance operations of the listing service
    (src/apps/houserent/services.py, `LocationObjectService`): creating a listing
    with its prices and its moderation check, merging a submitted price list,
    replacing the facility set, the one-pending-update rule, and the soft deletes.
    Images, and the attribute-by-attribute copy of the remaining listing fields,
    are not part of this model. */
module Listings {
  import opened Common
  import opened Rentals

  /** A submitted price-list entry: an existing row's id, or none for a new row, and the
      fields the entry carries. */
  datatype PriceEntry = PriceEntry(id: Option<Id>, start: Option<Date>, end: Option<Date>, price: Option<int>)

  /** An uploaded price of a new listing (all fields present, as the serializer requires). */
  datatype NewPrice = NewPrice(start: Date, end: Date, price: int)

  /** The listing fields a creation request supplies. */
  datatype ListingFields = ListingFields(location: Id, name: string, objectType: Id, objectKind: Id)

  const AlreadyUpdated := "This object was already updated"
  const NoSuchPrice := "ObjectPrice matching query does not exist."
  const NoSuchFacility := "ObjectFacility matching query does not exist."
  const IncompletePrice := "IntegrityError: NOT NULL constraint failed"

  // ---------------------------------------------------------------------------
  // Specification functions

  /** The position of the price row with that id belonging to that listing, if any. */
  function FindPrice(rows: seq<ObjectPrice>, id: Id, objectId: Id): (r: Option<nat>)
    ensures r.Some? ==> r.value < |rows| && rows[r.value].id == id && rows[r.value].objectId == objectId
    ensures r.None? <==> forall i :: 0 <= i < |rows| ==> !(rows[i].id == id && rows[i].objectId == objectId)
  {
    if rows == [] then None
    else if rows[0].id == id && rows[0].objectId == objectId then Some(0)
    else
      var r := FindPrice(rows[1..], id, objectId);
      assert forall i :: 1 <= i < |rows| ==> rows[i] == rows[1..][i - 1];
      if r.Some? then Some(r.value + 1) else None
  }

  /** The position of the row with that primary key, if any. */
  function FindRow(rows: seq<ObjectPrice>, id: Id): (r: Option<nat>)
    ensures r.Some? ==> r.value < |rows| && rows[r.value].id == id
    ensures r.None? <==> forall i :: 0 <= i < |rows| ==> rows[i].id != id
  {
    if rows == [] then None
    else if rows[0].id == id then Some(0)
    else
      var r := FindRow(rows[1..], id);
      assert forall i :: 1 <= i < |rows| ==> rows[i] == rows[1..][i - 1];
      if r.Some? then Some(r.value + 1) else None
  }

  /** The ids a submitted price list names. */
  function SubmittedIds(entries: seq<PriceEntry>): (ids: set<Id>)
    ensures forall id :: id in ids <==> exists k :: 0 <= k < |entries| && entries[k].id == Some(id)
  {
    set k | 0 <= k < |entries| && entries[k].id.Some? :: entries[k].id.value
  }

  /** `instance.object_prices.exclude(id__in=existing_ids).delete()`: the listing keeps only
      the rows whose id was submitted; other listings' rows stay. */
  function ExcludeUnsubmitted(rows: seq<ObjectPrice>, objectId: Id, ids: set<Id>): (r: seq<ObjectPrice>)
    ensures forall p :: p in r <==> p in rows && (p.objectId != objectId || p.id in ids)
    ensures (forall i, j :: 0 <= i < j < |rows| ==> rows[i].id != rows[j].id) ==>
      forall i, j :: 0 <= i < j < |r| ==> r[i].id != r[j].id
  {
    if rows == [] then []
    else
      var rest := ExcludeUnsubmitted(rows[1..], objectId, ids);
      assert forall i :: 1 <= i < |rows| ==> rows[i] == rows[1..][i - 1];
      if rows[0].objectId != objectId || rows[0].id in ids then
        assert (forall i, j :: 0 <= i < j < |rows| ==> rows[i].id != rows[j].id) ==>
          forall j :: 0 <= j < |rest| ==> rest[j].id != rows[0].id by {
          if forall i, j :: 0 <= i < j < |rows| ==> rows[i].id != rows[j].id {
            forall j | 0 <= j < |rest| ensures rest[j].id != rows[0].id {
              assert rest[j] in rest;
              var k :| 0 <= k < |rows[1..]| && rows[1..][k] == rest[j];
              assert rows[k + 1] == rest[j];
            }
          }
        }
        [rows[0]] + rest
      else rest
  }

  /** The `setattr` loop over one submitted entry: every field it carries is copied. */
  function Patched(p: ObjectPrice, e: PriceEntry): ObjectPrice {
    p.(start := if e.start.Some? then e.start.value else p.start,
       end := if e.end.Some? then e.end.value else p.end,
       price := if e.price.Some? then e.price.value else p.price)
  }

  /** The price table while the entries are applied; `fault` is set by the first entry that
      raises, after which nothing further happens. */
  datatype PriceState = PriceState(rows: seq<ObjectPrice>, nextId: nat, fault: Option<Fault>)

  /** One iteration of the `update_prices` loop. */
  function ApplyEntry(s: PriceState, objectId: Id, e: PriceEntry): PriceState {
    if s.fault.Some? then s
    else if e.id.Some? then
      match FindPrice(s.rows, e.id.value, objectId)
      case None => s.(fault := Some(Crash(NoSuchPrice)))
      case Some(i) => s.(rows := s.rows[i := Patched(s.rows[i], e)])
    else if e.start.Some? && e.end.Some? && e.price.Some? then
      PriceState(s.rows + [ObjectPrice(s.nextId, objectId, e.start.value, e.end.value, e.price.value, false)], s.nextId + 1, None)
    else s.(fault := Some(Crash(IncompletePrice)))
  }

  /** The loop over the entries, in order. */
  function ApplyEntries(s: PriceState, objectId: Id, entries: seq<PriceEntry>): PriceState
    decreases |entries|
  {
    if entries == [] then s else ApplyEntries(ApplyEntry(s, objectId, entries[0]), objectId, entries[1..])
  }

  /** `update_prices(instance, prices_data)`: the exclude-delete, then the loop. */
  function UpdatedPrices(rows: seq<ObjectPrice>, objectId: Id, entries: seq<PriceEntry>, nextId: nat): PriceState {
    ApplyEntries(PriceState(ExcludeUnsubmitted(rows, objectId, SubmittedIds(entries)), nextId, None), objectId, entries)
  }

  /** The ids of one listing's price rows. */
  function ObjectPriceIds(rows: seq<ObjectPrice>, objectId: Id): set<Id> {
    set i | 0 <= i < |rows| && rows[i].objectId == objectId :: rows[i].id
  }

  /** The two tables hold the same rows of every other listing. */
  ghost predicate OthersKept(a: seq<ObjectPrice>, b: seq<ObjectPrice>, objectId: Id) {
    forall p: ObjectPrice :: p.objectId != objectId ==> (p in a <==> p in b)
  }

  /** The number of submitted entries that create a row. */
  function NewEntries(entries: seq<PriceEntry>): nat {
    if entries == [] then 0 else (if entries[0].id.None? then 1 else 0) + NewEntries(entries[1..])
  }

  // ---------------------------------------------------------------------------
  // Lemmas about the price-list merge

  lemma {:induction false} FaultedEntriesDoNothing(s: PriceState, objectId: Id, entries: seq<PriceEntry>)
    requires s.fault.Some?
    ensures ApplyEntries(s, objectId, entries) == s
    decreases |entries|
  {
    if entries != [] {
      FaultedEntriesDoNothing(s, objectId, entries[1..]);
    }
  }

  /** What a run of the loop that raises nothing does: every submitted id was an existing row
      of the listing, each entry without an id adds one row with a fresh id, and rows of other
      listings are neither added nor removed. */
  lemma {:induction false} ApplyEntriesOutcome(s: PriceState, objectId: Id, entries: seq<PriceEntry>)
    requires s.fault.None?
    requires forall i :: 0 <= i < |s.rows| ==> s.rows[i].id < s.nextId
    requires forall k :: 0 <= k < |entries| && entries[k].id.Some? ==> entries[k].id.value < s.nextId
    ensures var r := ApplyEntries(s, objectId, entries);
      r.fault.None? ==>
        && r.nextId == s.nextId + NewEntries(entries)
        && SubmittedIds(entries) <= ObjectPriceIds(s.rows, objectId)
        && OthersKept(r.rows, s.rows, objectId)
        && (forall i :: 0 <= i < |r.rows| ==> r.rows[i].id < r.nextId)
    decreases |entries|
  {
    if entries != [] {
      var e := entries[0];
      var t := ApplyEntry(s, objectId, e);
      var r := ApplyEntries(s, objectId, entries);
      assert r == ApplyEntries(t, objectId, entries[1..]);
      if t.fault.Some? {
        FaultedEntriesDoNothing(t, objectId, entries[1..]);
      } else {
        ApplyEntryOutcome(s, objectId, e);
        var rest := entries[1..];
        assert forall k :: 0 <= k < |rest| ==> rest[k] == entries[k + 1];
        assert forall k :: 0 <= k < |rest| && rest[k].id.Some? ==> rest[k].id.value < s.nextId;
        ApplyEntriesOutcome(t, objectId, rest);
        if r.fault.None? {
          SubmittedIdsCons(entries);
          assert NewEntries(entries) == (if e.id.None? then 1 else 0) + NewEntries(rest);
        }
      }
    }
  }

  /** ... and the listing's ids after such a run are the ones before plus the fresh ones. */
  lemma {:induction false} ApplyEntriesIds(s: PriceState, objectId: Id, entries: seq<PriceEntry>)
    requires s.fault.None?
    requires forall i :: 0 <= i < |s.rows| ==> s.rows[i].id < s.nextId
    requires forall k :: 0 <= k < |entries| && entries[k].id.Some? ==> entries[k].id.value < s.nextId
    ensures var r := ApplyEntries(s, objectId, entries);
      r.fault.None? ==>
        && s.nextId <= r.nextId
        && ObjectPriceIds(r.rows, objectId) == ObjectPriceIds(s.rows, objectId) + Range(s.nextId, r.nextId)
    decreases |entries|
  {
    if entries != [] {
      var t := ApplyEntry(s, objectId, entries[0]);
      var rest := entries[1..];
      var r := ApplyEntries(t, objectId, rest);
      assert r == ApplyEntries(s, objectId, entries);
      if t.fault.Some? {
        FaultedEntriesDoNothing(t, objectId, rest);
      } else {
        assert s.nextId <= t.nextId && (forall i :: 0 <= i < |t.rows| ==> t.rows[i].id < t.nextId)
          && ObjectPriceIds(t.rows, objectId) == ObjectPriceIds(s.rows, objectId) + Range(s.nextId, t.nextId) by {
          ApplyEntryOutcome(s, objectId, entries[0]);
        }
        assert forall k :: 0 <= k < |rest| && rest[k].id.Some? ==> rest[k].id.value < t.nextId by {
          assert forall k :: 0 <= k < |rest| ==> rest[k] == entries[k + 1];
        }
        ApplyEntriesIds(t, objectId, rest);
        if r.fault.None? {
          IdsCompose(ObjectPriceIds(s.rows, objectId), ObjectPriceIds(t.rows, objectId), ObjectPriceIds(r.rows, objectId),
                     s.nextId, t.nextId, r.nextId);
        }
      }
    }
  }

  /** One iteration that raises nothing. */
  lemma ApplyEntryOutcome(s: PriceState, objectId: Id, e: PriceEntry)
    requires s.fault.None?
    requires IdsBelow(s.rows, s.nextId)
    ensures var t := ApplyEntry(s, objectId, e);
      t.fault.None? ==>
        && t.nextId == s.nextId + (if e.id.None? then 1 else 0)
        && (e.id.Some? ==> e.id.value in ObjectPriceIds(s.rows, objectId))
        && ObjectPriceIds(t.rows, objectId) == ObjectPriceIds(s.rows, objectId) + Range(s.nextId, t.nextId)
        && OthersKept(t.rows, s.rows, objectId)
        && IdsBelow(t.rows, t.nextId)
  {
    var t := ApplyEntry(s, objectId, e);
    if t.fault.None? {
      if e.id.Some? {
        PatchEntryOutcome(s, objectId, e);
      } else {
        NewEntryOutcome(s, objectId, e);
      }
    }
  }

  lemma PatchEntryOutcome(s: PriceState, objectId: Id, e: PriceEntry)
    requires s.fault.None? && e.id.Some? && FindPrice(s.rows, e.id.value, objectId).Some?
    requires IdsBelow(s.rows, s.nextId)
    ensures var t := ApplyEntry(s, objectId, e);
      && t.fault.None? && t.nextId == s.nextId
      && e.id.value in ObjectPriceIds(s.rows, objectId)
      && ObjectPriceIds(t.rows, objectId) == ObjectPriceIds(s.rows, objectId) + Range(s.nextId, t.nextId)
      && OthersKept(t.rows, s.rows, objectId)
      && IdsBelow(t.rows, t.nextId)
  {
    var i := FindPrice(s.rows, e.id.value, objectId).value;
    var t := ApplyEntry(s, objectId, e);
    assert t == s.(rows := s.rows[i := Patched(s.rows[i], e)]);
    PatchOutcome(s.rows, i, objectId, Patched(s.rows[i], e), s.nextId);
    assert Range(s.nextId, t.nextId) == {};
  }

  lemma NewEntryOutcome(s: PriceState, objectId: Id, e: PriceEntry)
    requires s.fault.None? && e.id.None? && e.start.Some? && e.end.Some? && e.price.Some?
    requires IdsBelow(s.rows, s.nextId)
    ensures var t := ApplyEntry(s, objectId, e);
      && t.fault.None? && t.nextId == s.nextId + 1
      && ObjectPriceIds(t.rows, objectId) == ObjectPriceIds(s.rows, objectId) + Range(s.nextId, t.nextId)
      && OthersKept(t.rows, s.rows, objectId)
      && IdsBelow(t.rows, t.nextId)
  {
    var row := ObjectPrice(s.nextId, objectId, e.start.value, e.end.value, e.price.value, false);
    var t := ApplyEntry(s, objectId, e);
    assert t.rows == s.rows + [row] && t.nextId == s.nextId + 1;
    AppendOutcome(s.rows, objectId, row, s.nextId);
    assert Range(s.nextId, t.nextId) == {s.nextId};
  }

  /** Every row has a key below `n`. */
  predicate IdsBelow(rows: seq<ObjectPrice>, n: nat) {
    forall k :: 0 <= k < |rows| ==> rows[k].id < n
  }

  /** Patching a listing's row in place keeps its key and leaves other listings' rows alone. */
  lemma PatchOutcome(rows: seq<ObjectPrice>, i: nat, objectId: Id, q: ObjectPrice, n: nat)
    requires i < |rows| && rows[i].objectId == objectId && q.objectId == objectId && q.id == rows[i].id
    requires forall k :: 0 <= k < |rows| ==> rows[k].id < n
    ensures IdsBelow(rows[i := q], n)
    ensures rows[i].id in ObjectPriceIds(rows, objectId)
    ensures ObjectPriceIds(rows[i := q], objectId) == ObjectPriceIds(rows, objectId)
    ensures OthersKept(rows[i := q], rows, objectId)
  {
    var t := rows[i := q];
    forall p: ObjectPrice | p.objectId != objectId ensures p in t <==> p in rows {
      if p in t {
        var j :| 0 <= j < |t| && t[j] == p;
        assert j != i;
      }
      if p in rows {
        var j :| 0 <= j < |rows| && rows[j] == p;
        assert j != i && t[j] == p;
      }
    }
    forall x | x in ObjectPriceIds(t, objectId) ensures x in ObjectPriceIds(rows, objectId) {
      var j :| 0 <= j < |t| && t[j].objectId == objectId && t[j].id == x;
      assert rows[j].objectId == objectId && rows[j].id == x;
    }
    forall x | x in ObjectPriceIds(rows, objectId) ensures x in ObjectPriceIds(t, objectId) {
      var j :| 0 <= j < |rows| && rows[j].objectId == objectId && rows[j].id == x;
      assert t[j].objectId == objectId && t[j].id == x;
    }
  }

  /** Appending a row of the listing adds its key and leaves other listings' rows alone. */
  lemma AppendOutcome(rows: seq<ObjectPrice>, objectId: Id, row: ObjectPrice, n: nat)
    requires row.objectId == objectId && row.id == n
    requires forall k :: 0 <= k < |rows| ==> rows[k].id < n
    ensures IdsBelow(rows + [row], n + 1)
    ensures ObjectPriceIds(rows + [row], objectId) == ObjectPriceIds(rows, objectId) + {row.id}
    ensures OthersKept(rows + [row], rows, objectId)
  {
    var t := rows + [row];
    assert t[|rows|] == row;
    forall x | x in ObjectPriceIds(t, objectId) ensures x in ObjectPriceIds(rows, objectId) + {row.id} {
      var j :| 0 <= j < |t| && t[j].objectId == objectId && t[j].id == x;
      if j < |rows| {
        assert rows[j] == t[j];
      }
    }
    forall x | x in ObjectPriceIds(rows, objectId) ensures x in ObjectPriceIds(t, objectId) {
      var j :| 0 <= j < |rows| && rows[j].objectId == objectId && rows[j].id == x;
      assert t[j] == rows[j];
    }
    assert row.id in ObjectPriceIds(t, objectId);
  }

  /** After a merge that raises nothing, the listing's price rows are exactly the submitted
      ones plus one new row per entry without an id; other listings' rows are untouched. */
  lemma UpdatedPricesOutcome(rows: seq<ObjectPrice>, objectId: Id, entries: seq<PriceEntry>, nextId: nat)
    requires forall i :: 0 <= i < |rows| ==> rows[i].id < nextId
    requires forall k :: 0 <= k < |entries| && entries[k].id.Some? ==> entries[k].id.value < nextId
    ensures var r := UpdatedPrices(rows, objectId, entries, nextId);
      r.fault.None? ==>
        && ObjectPriceIds(r.rows, objectId) == SubmittedIds(entries) + Range(nextId, r.nextId)
        && |Range(nextId, r.nextId)| == NewEntries(entries)
        && OthersKept(r.rows, rows, objectId)
  {
    var ids := SubmittedIds(entries);
    var kept := ExcludeUnsubmitted(rows, objectId, ids);
    forall i | 0 <= i < |kept| ensures kept[i].id < nextId {
      assert kept[i] in kept;
    }
    var s := PriceState(kept, nextId, None);
    ApplyEntriesOutcome(s, objectId, entries);
    ApplyEntriesIds(s, objectId, entries);
    var r := UpdatedPrices(rows, objectId, entries, nextId);
    if r.fault.None? {
      assert ObjectPriceIds(kept, objectId) == ids by {
        forall x | x in ObjectPriceIds(kept, objectId) ensures x in ids {
          var j :| 0 <= j < |kept| && kept[j].objectId == objectId && kept[j].id == x;
          assert kept[j] in kept;
        }
      }
    }
  }

  lemma SubmittedIdsCons(entries: seq<PriceEntry>)
    requires entries != []
    ensures SubmittedIds(entries) == (if entries[0].id.Some? then {entries[0].id.value} else {}) + SubmittedIds(entries[1..])
  {
    assert forall k :: 1 <= k < |entries| ==> entries[k] == entries[1..][k - 1];
  }

  lemma IdsCompose(a: set<Id>, b: set<Id>, c: set<Id>, lo: nat, mid: nat, hi: nat)
    requires lo <= mid <= hi
    requires b == a + Range(lo, mid) && c == b + Range(mid, hi)
    ensures c == a + Range(lo, hi)
  {
    RangeJoin(lo, mid, hi);
  }

  // ---------------------------------------------------------------------------
  // Facilities and moderation checks

  /** The add loop of `update_facilities`: it stops at the first id that is not a facility. */
  function AddFacilities(current: set<Id>, existing: set<Id>, ids: seq<Id>): (r: (set<Id>, Option<Fault>))
    decreases |ids|
  {
    if ids == [] then (current, None)
    else if ids[0] !in existing then (current, Some(Crash(NoSuchFacility)))
    else AddFacilities(current + {ids[0]}, existing, ids[1..])
  }

  /** The add loop raises nothing iff every id is a facility, and then it has added all of them. */
  lemma {:induction false} AddFacilitiesOutcome(current: set<Id>, existing: set<Id>, ids: seq<Id>)
    ensures AddFacilities(current, existing, ids).1.None? <==> forall k :: 0 <= k < |ids| ==> ids[k] in existing
    ensures AddFacilities(current, existing, ids).1.None? ==>
      AddFacilities(current, existing, ids).0 == current + set k | 0 <= k < |ids| :: ids[k]
    decreases |ids|
  {
    if ids != [] {
      AddFacilitiesOutcome(current + {ids[0]}, existing, ids[1..]);
      assert forall k :: 1 <= k < |ids| ==> ids[k] == ids[1..][k - 1];
      assert (set k | 0 <= k < |ids| :: ids[k]) == {ids[0]} + set k | 0 <= k < |ids[1..]| :: ids[1..][k];
    }
  }

  /** An unchecked "updated" check of the listing is the pending update. */
  predicate PendingUpdate(c: ObjectCheck, objectId: Id) {
    c.objectId == objectId && c.choice == Updated && !c.isChecked
  }

  function PendingUpdates(checks: seq<ObjectCheck>, objectId: Id): nat {
    if checks == [] then 0
    else PendingUpdates(checks[..|checks| - 1], objectId) + (if PendingUpdate(checks[|checks| - 1], objectId) then 1 else 0)
  }

  predicate HasPendingUpdate(checks: seq<ObjectCheck>, objectId: Id) {
    exists i :: 0 <= i < |checks| && PendingUpdate(checks[i], objectId)
  }

  lemma {:induction false} PendingUpdatesCount(checks: seq<ObjectCheck>, objectId: Id)
    ensures PendingUpdates(checks, objectId) == 0 <==> !HasPendingUpdate(checks, objectId)
    decreases |checks|
  {
    if checks != [] {
      var init := checks[..|checks| - 1];
      PendingUpdatesCount(init, objectId);
      assert forall i :: 0 <= i < |init| ==> init[i] == checks[i];
      if HasPendingUpdate(checks, objectId) {
        var i :| 0 <= i < |checks| && PendingUpdate(checks[i], objectId);
        if i < |init| {
          assert PendingUpdate(init[i], objectId);
        }
      }
    }
  }

  lemma PendingUpdatesAppend(checks: seq<ObjectCheck>, c: ObjectCheck, objectId: Id)
    ensures PendingUpdates(checks + [c], objectId) == PendingUpdates(checks, objectId) + (if PendingUpdate(c, objectId) then 1 else 0)
  {
    assert (checks + [c])[..|checks|] == checks;
  }

  // ---------------------------------------------------------------------------
  // The tables

  /** Every listing has a key below `n`, and no two share one. */
  ghost predicate ObjectsKeyed(objects: seq<LocationObject>, n: nat) {
    && (forall i :: 0 <= i < |objects| ==> objects[i].id < n)
    && (forall i, j :: 0 <= i < j < |objects| ==> objects[i].id != objects[j].id)
  }

  /** Every price row has a key below `n`, and no two share one. */
  ghost predicate PricesKeyed(prices: seq<ObjectPrice>, n: nat) {
    && (forall i :: 0 <= i < |prices| ==> prices[i].id < n)
    && (forall i, j :: 0 <= i < j < |prices| ==> prices[i].id != prices[j].id)
  }

  /** Every check has a key below `n` and names a listing key below `n`; no listing has two
      pending updates. */
  ghost predicate ChecksKeyed(checks: seq<ObjectCheck>, n: nat) {
    && (forall i :: 0 <= i < |checks| ==> checks[i].id < n && checks[i].objectId < n)
    && (forall o :: PendingUpdates(checks, o) <= 1)
  }

  ghost predicate TablesValid(objects: seq<LocationObject>, locations: map<Id, Location>, prices: seq<ObjectPrice>,
                              checks: seq<ObjectCheck>, links: map<Id, set<Id>>, n: nat) {
    && ObjectsKeyed(objects, n)
    && PricesKeyed(prices, n)
    && ChecksKeyed(checks, n)
    && (forall o :: o in links ==> o < n)
    && (forall l :: l in locations ==> locations[l].id == l)
  }

  /** Raising the key counter keeps the tables valid. */
  lemma TablesValidAbove(objects: seq<LocationObject>, locations: map<Id, Location>, prices: seq<ObjectPrice>,
                         checks: seq<ObjectCheck>, links: map<Id, set<Id>>, n: nat, m: nat)
    requires TablesValid(objects, locations, prices, checks, links, n) && n <= m
    ensures TablesValid(objects, locations, prices, checks, links, m)
  {
  }

  /** The tables after `create_object` stay valid: the new listing, its prices and its check
      take the keys `n`, `n + 1`, ... and a "created" check is never a pending update. */
  lemma CreatedTablesValid(objects: seq<LocationObject>, locations: map<Id, Location>, prices: seq<ObjectPrice>,
                           checks: seq<ObjectCheck>, links: map<Id, set<Id>>, n: nat,
                           listing: LocationObject, created: seq<ObjectPrice>, c: ObjectCheck, links2: map<Id, set<Id>>)
    requires TablesValid(objects, locations, prices, checks, links, n)
    requires listing.id == n
    requires forall k :: 0 <= k < |created| ==> created[k].id == n + 1 + k
    requires c == ObjectCheck(n + 1 + |created|, n, Created, false, false)
    requires links2 == links || (n in links2 && links2 == links[n := links2[n]])
    ensures TablesValid(objects + [listing], locations, prices + created, checks + [c], links2, n + 2 + |created|)
  {
    var m := n + 2 + |created|;
    TablesValidAbove(objects, locations, prices, checks, links, n, m);
    var ps := prices + created;
    forall i, j | 0 <= i < j < |ps| ensures ps[i].id != ps[j].id {
      if j >= |prices| {
        assert ps[j] == created[j - |prices|];
        if i >= |prices| {
          assert ps[i] == created[i - |prices|];
        }
      }
    }
    forall o ensures PendingUpdates(checks + [c], o) <= 1 {
      PendingUpdatesAppend(checks, c, o);
    }
    var os := objects + [listing];
    assert forall i :: 0 <= i < |objects| ==> os[i] == objects[i];
  }

  /** Adding an unchecked "updated" check keyed `n` to a listing with no pending update keeps
      the tables valid. */
  lemma UpdateCheckValid(objects: seq<LocationObject>, locations: map<Id, Location>, prices: seq<ObjectPrice>,
                         checks: seq<ObjectCheck>, links: map<Id, set<Id>>, n: nat, objectId: Id)
    requires TablesValid(objects, locations, prices, checks, links, n) && objectId < n
    requires PendingUpdates(checks, objectId) == 0
    ensures TablesValid(objects, locations, prices, checks + [ObjectCheck(n, objectId, Updated, false, false)], links, n + 1)
  {
    TablesValidAbove(objects, locations, prices, checks, links, n, n + 1);
    var c := ObjectCheck(n, objectId, Updated, false, false);
    forall o ensures PendingUpdates(checks + [c], o) <= 1 {
      PendingUpdatesAppend(checks, c, o);
    }
  }

  /** The loop of `update_prices`, run on the rows left after the exclude-delete. */
  method MergeEntries(rows0: seq<ObjectPrice>, next0: nat, objectId: Id, entries: seq<PriceEntry>)
    returns (rows: seq<ObjectPrice>, next: nat, fault: Option<Fault>)
    requires PricesKeyed(rows0, next0)
    ensures PriceState(rows, next, fault) == ApplyEntries(PriceState(rows0, next0, None), objectId, entries)
    ensures PricesKeyed(rows, next) && next0 <= next
  {
    rows, next, fault := rows0, next0, None;
    var i := 0;
    while i < |entries| && fault.None?
      invariant 0 <= i <= |entries|
      invariant ApplyEntries(PriceState(rows, next, fault), objectId, entries[i..])
        == ApplyEntries(PriceState(rows0, next0, None), objectId, entries)
      invariant PricesKeyed(rows, next) && next0 <= next
    {
      var e := entries[i];
      assert entries[i..][0] == e && entries[i..][1..] == entries[i + 1..];
      if e.id.Some? {
        var found := FindPrice(rows, e.id.value, objectId);
        if found.None? {
          fault := Some(Crash(NoSuchPrice));
        } else {
          rows := rows[found.value := Patched(rows[found.value], e)];
        }
      } else if e.start.Some? && e.end.Some? && e.price.Some? {
        rows := rows + [ObjectPrice(next, objectId, e.start.value, e.end.value, e.price.value, false)];
        next := next + 1;
      } else {
        fault := Some(Crash(IncompletePrice));
      }
      i := i + 1;
    }
    if fault.Some? {
      FaultedEntriesDoNothing(PriceState(rows, next, fault), objectId, entries[i..]);
    }
  }

  /** The add loop of `update_facilities`, on the cleared set. */
  method AddEach(existing: set<Id>, ids: seq<Id>) returns (current: set<Id>, fault: Option<Fault>)
    ensures (current, fault) == AddFacilities({}, existing, ids)
  {
    current, fault := {}, None;
    var i := 0;
    while i < |ids|
      invariant 0 <= i <= |ids|
      invariant AddFacilities(current, existing, ids[i..]) == AddFacilities({}, existing, ids)
    {
      assert ids[i..][0] == ids[i] && ids[i..][1..] == ids[i + 1..];
      if ids[i] !in existing {
        fault := Some(Crash(NoSuchFacility));
        return;
      }
      current := current + {ids[i]};
      i := i + 1;
    }
  }

  class Catalog {
    var objects: seq<LocationObject>
    var locations: map<Id, Location>
    var prices: seq<ObjectPrice>
    var checks: seq<ObjectCheck>
    /** The listing-to-facility many-to-many table. */
    var facilityLinks: map<Id, set<Id>>
    /** The ids of the existing facility rows. */
    var facilities: set<Id>
    /** The next unused primary key (the source uses random UUIDs). */
    var nextId: nat

    ghost predicate Valid()
      reads this
    {
      TablesValid(objects, locations, prices, checks, facilityLinks, nextId)
    }

    predicate HasObject(objectId: Id)
      reads this
    {
      exists i :: 0 <= i < |objects| && objects[i].id == objectId
    }

    constructor ()
      ensures Valid()
      ensures objects == [] && locations == map[] && prices == [] && checks == []
      ensures facilityLinks == map[] && facilities == {}
    {
      objects := [];
      locations := map[];
      prices := [];
      checks := [];
      facilityLinks := map[];
      facilities := {};
      nextId := 0;
    }

    /** The facility set of a listing (no row in the link table means none). */
    function FacilitiesOf(objectId: Id): set<Id>
      reads this
    {
      if objectId in facilityLinks then facilityLinks[objectId] else {}
    }

    /** `create_object`: the listing, its facilities when some are given, one price row per
        uploaded price, and one unchecked "created" check. */
    method CreateObject(fields: ListingFields, vendor: Id, vendorEmail: Email, facilityIds: seq<Id>, uploaded: seq<NewPrice>)
      returns (id: Id)
      requires Valid()
      modifies this
      ensures Valid()
      ensures id == old(nextId) && !old(HasObject(id))
      ensures objects == old(objects) + [LocationObject(id, fields.location, vendor, vendorEmail, fields.name,
                                                          fields.objectType, fields.objectKind, false)]
      ensures |facilityIds| > 0 ==> facilityLinks == old(facilityLinks)[id := set k | 0 <= k < |facilityIds| && facilityIds[k] in facilities :: facilityIds[k]]
      ensures |facilityIds| == 0 ==> facilityLinks == old(facilityLinks)
      ensures |prices| == |old(prices)| + |uploaded| && prices[..|old(prices)|] == old(prices)
      ensures forall k :: 0 <= k < |uploaded| ==>
        prices[|old(prices)| + k] == ObjectPrice(id + 1 + k, id, uploaded[k].start, uploaded[k].end, uploaded[k].price, false)
      ensures checks == old(checks) + [ObjectCheck(id + 1 + |uploaded|, id, Created, false, false)]
      ensures locations == old(locations) && facilities == old(facilities)
    {
      id := nextId;
      var listing := LocationObject(id, fields.location, vendor, vendorEmail, fields.name,
                                    fields.objectType, fields.objectKind, false);
      var links := facilityLinks;
      if |facilityIds| > 0 {
        links := facilityLinks[id := set k | 0 <= k < |facilityIds| && facilityIds[k] in facilities :: facilityIds[k]];
      }
      var created := seq(|uploaded|, k requires 0 <= k < |uploaded| =>
        ObjectPrice(id + 1 + k, id, uploaded[k].start, uploaded[k].end, uploaded[k].price, false));
      var c := ObjectCheck(id + 1 + |uploaded|, id, Created, false, false);
      CreatedTablesValid(objects, locations, prices, checks, facilityLinks, nextId, listing, created, c, links);
      objects, facilityLinks, prices, checks, nextId := objects + [listing], links, prices + created, checks + [c], id + 2 + |uploaded|;
    }

    /** A new listing has exactly one moderation check, the unchecked "created" one. */
    lemma CreatedListingHasOneCheck(before: seq<ObjectCheck>, id: Id, checkId: Id)
      requires forall i :: 0 <= i < |before| ==> before[i].objectId < id
      ensures var after := before + [ObjectCheck(checkId, id, Created, false, false)];
        forall i :: 0 <= i < |after| && after[i].objectId == id ==> i == |before| && after[i].choice == Created && !after[i].isChecked
    {
    }

    /** `update_prices(instance, prices_data)`. The rows not submitted are deleted first; then
        each entry with an id updates that row of the listing (a missing row raises), and each
        entry without one creates a row. A raise leaves the work done so far in place. */
    method UpdatePrices(objectId: Id, entries: seq<PriceEntry>) returns (fault: Option<Fault>)
      requires Valid()
      modifies this
      ensures Valid()
      ensures var r := UpdatedPrices(old(prices), objectId, entries, old(nextId));
        prices == r.rows && nextId == r.nextId && fault == r.fault
      ensures objects == old(objects) && checks == old(checks) && locations == old(locations)
      ensures facilityLinks == old(facilityLinks) && facilities == old(facilities)
    {
      var kept := ExcludeUnsubmitted(prices, objectId, SubmittedIds(entries));
      forall k | 0 <= k < |kept| ensures kept[k].id < nextId {
        assert kept[k] in kept;
      }
      var rows, next;
      rows, next, fault := MergeEntries(kept, nextId, objectId, entries);
      TablesValidAbove(objects, locations, prices, checks, facilityLinks, nextId, next);
      prices, nextId := rows, next;
    }

    /** `update_facilities(instance, facilities_data)`: a non-empty list clears the set, then
        adds each facility until one is missing; an empty list changes nothing. */
    method UpdateFacilities(objectId: Id, facilityIds: seq<Id>) returns (fault: Option<Fault>)
      requires Valid() && HasObject(objectId)
      modifies this
      ensures Valid()
      ensures |facilityIds| == 0 ==> facilityLinks == old(facilityLinks) && fault.None?
      ensures |facilityIds| > 0 ==>
        var r := AddFacilities({}, facilities, facilityIds);
        facilityLinks == old(facilityLinks)[objectId := r.0] && fault == r.1
      ensures objects == old(objects) && prices == old(prices) && checks == old(checks)
      ensures locations == old(locations) && facilities == old(facilities) && nextId == old(nextId)
    {
      fault := None;
      if |facilityIds| > 0 {
        var k :| 0 <= k < |objects| && objects[k].id == objectId;
        var current;
        current, fault := AddEach(facilities, facilityIds);
        facilityLinks := facilityLinks[objectId := current];
      }
    }

    /** `check_or_create_if_updated(instance)`: a pending update check refuses the update with
        405; otherwise a new unchecked "updated" check is recorded. */
    method CheckOrCreateIfUpdated(objectId: Id) returns (fault: Option<Fault>)
      requires Valid() && HasObject(objectId)
      modifies this
      ensures Valid()
      ensures old(HasPendingUpdate(checks, objectId)) ==> fault == Some(Raised(405, Text(AlreadyUpdated))) && checks == old(checks) && nextId == old(nextId)
      ensures !old(HasPendingUpdate(checks, objectId)) ==>
        fault.None? && checks == old(checks) + [ObjectCheck(old(nextId), objectId, Updated, false, false)] && nextId == old(nextId) + 1
      ensures HasPendingUpdate(checks, objectId) && PendingUpdates(checks, objectId) == 1
      ensures objects == old(objects) && prices == old(prices) && locations == old(locations)
      ensures facilityLinks == old(facilityLinks) && facilities == old(facilities)
    {
      PendingUpdatesCount(checks, objectId);
      if exists i :: 0 <= i < |checks| && PendingUpdate(checks[i], objectId) {
        fault := Some(Raised(405, Text(AlreadyUpdated)));
        return;
      }
      var k :| 0 <= k < |objects| && objects[k].id == objectId;
      UpdateCheckValid(objects, locations, prices, checks, facilityLinks, nextId, objectId);
      checks, nextId := checks + [ObjectCheck(nextId, objectId, Updated, false, false)], nextId + 1;
      fault := None;
      assert PendingUpdate(checks[|checks| - 1], objectId);
    }

    /** `update_object`: the pending-update rule first, then the price list and the facilities
        when the request carries them. */
    method UpdateObject(objectId: Id, priceList: Option<seq<PriceEntry>>, facilityIds: Option<seq<Id>>)
      returns (fault: Option<Fault>)
      requires Valid() && HasObject(objectId)
      modifies this
      ensures Valid()
      ensures old(HasPendingUpdate(checks, objectId)) ==>
        fault == Some(Raised(405, Text(AlreadyUpdated))) && checks == old(checks) && prices == old(prices)
        && facilityLinks == old(facilityLinks)
      ensures !old(HasPendingUpdate(checks, objectId)) ==>
        checks == old(checks) + [ObjectCheck(old(nextId), objectId, Updated, false, false)]
      ensures priceList.None? && facilityIds.None? ==> prices == old(prices) && facilityLinks == old(facilityLinks)
      ensures HasPendingUpdate(checks, objectId) && PendingUpdates(checks, objectId) == 1
      ensures objects == old(objects) && locations == old(locations) && facilities == old(facilities)
    {
      fault := CheckOrCreateIfUpdated(objectId);
      if fault.Some? {
        return;
      }
      if priceList.Some? {
        fault := UpdatePrices(objectId, priceList.value);
        if fault.Some? {
          return;
        }
      }
      if facilityIds.Some? {
        fault := UpdateFacilities(objectId, facilityIds.value);
      }
    }

    /** `delete_prices_from_objects(object_price_id)`: soft-deletes the price row, or raises 404. */
    method DeletePrice(priceId: Id) returns (fault: Option<Fault>)
      requires Valid()
      modifies this
      ensures Valid()
      ensures FindRow(old(prices), priceId).None? ==> fault == Some(Raised(404, Text(NotFoundMessage))) && prices == old(prices)
      ensures FindRow(old(prices), priceId).Some? ==>
        var i := FindRow(old(prices), priceId).value;
        fault.None? && prices == old(prices)[i := old(prices)[i].(isDeleted := true)]
      ensures objects == old(objects) && checks == old(checks) && locations == old(locations)
      ensures facilityLinks == old(facilityLinks) && facilities == old(facilities) && nextId == old(nextId)
    {
      var found := FindRow(prices, priceId);
      if found.None? {
        fault := Some(Raised(404, Text(NotFoundMessage)));
        return;
      }
      prices := prices[found.value := prices[found.value].(isDeleted := true)];
      fault := None;
    }

    /** `delete_objects_from_locations(location_object_id)`: despite its name it looks the id up
        among the locations and soft-deletes that location; a missing id raises 404. */
    method DeleteLocation(locationId: Id) returns (fault: Option<Fault>)
      requires Valid()
      modifies this
      ensures Valid()
      ensures GetOrError(old(locations), locationId).Err? ==> fault == Some(GetOrError(old(locations), locationId).fault) && locations == old(locations)
      ensures GetOrError(old(locations), locationId).Ok? ==>
        fault.None? && locations == old(locations)[locationId := old(locations)[locationId].(isDeleted := true)]
      ensures objects == old(objects) && prices == old(prices) && checks == old(checks)
      ensures facilityLinks == old(facilityLinks) && facilities == old(facilities) && nextId == old(nextId)
    {
      var found := GetOrError(locations, locationId);
      if found.Err? {
        fault := Some(found.fault);
        return;
      }
      locations := locations[locationId := found.value.(isDeleted := true)];
      fault := None;
    }
  }
}
