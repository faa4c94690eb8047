/**
 * The bulk-save endpoint: the lead schema as predicates over the parsed body, the mapping of
 * items to database rows, and the handler's chain of early returns ending in an insert that
 * skips rows whose place identifier is already stored.
 */
module BulkSave {
  import opened Wrappers
  import opened Json
  import opened Leads

  /** `z.string().min(1)` on `fields[key]`. */
  predicate IsRequiredString(fields: map<string, Json>, key: string) {
    key in fields && fields[key].JString? && |fields[key].s| >= 1
  }

  /** `z.string().optional().nullable()` on `fields[key]`. */
  predicate IsOptionalString(fields: map<string, Json>, key: string) {
    key !in fields || fields[key].JNull? || fields[key].JString?
  }

  /** `z.number().optional().nullable()` on `fields[key]`. */
  predicate IsOptionalNumber(fields: map<string, Json>, key: string) {
    key !in fields || fields[key].JNull? || fields[key].JNumber?
  }

  /** `leadSchema` accepts `item`. */
  predicate ValidLead(item: Json) {
    && item.JObject?
    && IsRequiredString(item.fields, "placeId")
    && IsRequiredString(item.fields, "name")
    && IsOptionalString(item.fields, "address")
    && IsOptionalString(item.fields, "phone")
    && IsOptionalString(item.fields, "website")
    && IsOptionalNumber(item.fields, "rating")
    && IsRequiredString(item.fields, "sector")
    && IsRequiredString(item.fields, "city")
    && IsRequiredString(item.fields, "country")
    && IsOptionalNumber(item.fields, "lat")
    && IsOptionalNumber(item.fields, "lng")
  }

  /** `requestSchema` accepts the body: an object whose `items` is a non-empty array of valid leads. None is a body that is not JSON. */
  predicate ValidRequest(body: Option<Json>) {
    && body.Some? && body.value.JObject?
    && "items" in body.value.fields && body.value.fields["items"].JArray?
    && |body.value.fields["items"].elems| >= 1
    && forall i :: 0 <= i < |body.value.fields["items"].elems| ==> ValidLead(body.value.fields["items"].elems[i])
  }

  /** The items of a valid body. */
  function ItemsOf(body: Option<Json>): (items: seq<Json>)
    requires ValidRequest(body)
    ensures |items| >= 1 && forall i :: 0 <= i < |items| ==> ValidLead(items[i])
  {
    body.value.fields["items"].elems
  }

  /** `item[key] ?? null` for a string field: a missing key and `null` both give None. */
  function OptionalString(fields: map<string, Json>, key: string): (r: Option<string>)
    requires IsOptionalString(fields, key)
    ensures r.Some? <==> key in fields && fields[key].JString?
    ensures r.Some? ==> fields[key] == JString(r.value)
  {
    if key in fields && fields[key].JString? then Some(fields[key].s) else None
  }

  /** `item[key] ?? null` for a number field. */
  function OptionalNumber(fields: map<string, Json>, key: string): (r: Option<real>)
    requires IsOptionalNumber(fields, key)
    ensures r.Some? <==> key in fields && fields[key].JNumber?
    ensures r.Some? ==> fields[key] == JNumber(r.value)
  {
    if key in fields && fields[key].JNumber? then Some(fields[key].n) else None
  }

  /** The row written for one item: required fields copied, absent or null optional fields stored as null. */
  function ToRow(item: Json): (row: Lead)
    requires ValidLead(item)
    ensures JString(row.placeId) == item.fields["placeId"] && row.placeId != ""
    ensures JString(row.name) == item.fields["name"] && row.name != ""
    ensures JString(row.sector) == item.fields["sector"] && row.sector != ""
    ensures JString(row.city) == item.fields["city"] && row.city != ""
    ensures JString(row.country) == item.fields["country"] && row.country != ""
    ensures row.address == OptionalString(item.fields, "address")
    ensures row.phone == OptionalString(item.fields, "phone")
    ensures row.website == OptionalString(item.fields, "website")
    ensures row.rating == OptionalNumber(item.fields, "rating")
    ensures row.lat == OptionalNumber(item.fields, "lat") && row.lng == OptionalNumber(item.fields, "lng")
  {
    var f := item.fields;
    Lead(f["placeId"].s, f["name"].s,
         OptionalString(f, "address"), OptionalString(f, "phone"), OptionalString(f, "website"),
         OptionalNumber(f, "rating"),
         f["sector"].s, f["city"].s, f["country"].s,
         OptionalNumber(f, "lat"), OptionalNumber(f, "lng"))
  }

  /** `items.map(...)`: one row per item, in order. */
  function ToRows(items: seq<Json>): (rows: seq<Lead>)
    requires forall i :: 0 <= i < |items| ==> ValidLead(items[i])
    ensures |rows| == |items|
    ensures forall i :: 0 <= i < |items| ==> rows[i] == ToRow(items[i])
  {
    seq(|items|, i requires 0 <= i < |items| => ToRow(items[i]))
  }

  /** The stored rows after an insert, and how many rows it added. */
  datatype Inserted = Inserted(rows: map<string, Lead>, count: nat)

  /**
   * `createMany({ data, skipDuplicates: true })` against the rows stored by place identifier:
   * a row whose identifier is already stored, or was stored earlier in the same batch, is
   * skipped; every other row is added and counted.
   */
  function InsertSkipping(store: map<string, Lead>, batch: seq<Lead>): Inserted
    decreases |batch|
  {
    if batch == [] then Inserted(store, 0)
    else if batch[0].placeId in store then InsertSkipping(store, batch[1..])
    else
      var r := InsertSkipping(store[batch[0].placeId := batch[0]], batch[1..]);
      Inserted(r.rows, r.count + 1)
  }

  /** The first row of `batch` with identifier `id`. */
  function FirstRowWith(batch: seq<Lead>, id: string): (r: Option<Lead>)
    ensures r.Some? ==> r.value in batch && r.value.placeId == id
    ensures r.None? <==> forall i :: 0 <= i < |batch| ==> batch[i].placeId != id
    ensures r.Some? ==> exists k :: 0 <= k < |batch| && batch[k] == r.value
                                  && forall j :: 0 <= j < k ==> batch[j].placeId != id
  {
    if batch == [] then None
    else if batch[0].placeId == id then Some(batch[0])
    else FirstRowWith(batch[1..], id)
  }

  /** The identifiers of `batch`. */
  function BatchIds(batch: seq<Lead>): (ids: set<string>)
    ensures forall id :: id in ids <==> exists i :: 0 <= i < |batch| && batch[i].placeId == id
  {
    set i | 0 <= i < |batch| :: batch[i].placeId
  }

  /** The identifiers of a non-empty batch: those of its first row and of the rest. */
  lemma BatchIdsCons(batch: seq<Lead>)
    requires batch != []
    ensures BatchIds(batch) == {batch[0].placeId} + BatchIds(batch[1..])
  {
    var tail := batch[1..];
    forall id | id in BatchIds(batch) ensures id in {batch[0].placeId} + BatchIds(tail) {
      var i :| 0 <= i < |batch| && batch[i].placeId == id;
      if i > 0 {
        assert tail[i - 1] == batch[i];
      }
    }
    forall id | id in BatchIds(tail) ensures id in BatchIds(batch) {
      var i :| 0 <= i < |tail| && tail[i].placeId == id;
      assert batch[i + 1] == tail[i];
    }
  }

  /** After the insert the stored identifiers are the old ones and those of the batch. */
  lemma {:induction false} InsertSkippingKeys(store: map<string, Lead>, batch: seq<Lead>)
    ensures InsertSkipping(store, batch).rows.Keys == store.Keys + BatchIds(batch)
    decreases |batch|
  {
    if batch != [] {
      BatchIdsCons(batch);
      if batch[0].placeId in store {
        InsertSkippingKeys(store, batch[1..]);
      } else {
        InsertSkippingKeys(store[batch[0].placeId := batch[0]], batch[1..]);
      }
    }
  }

  /** Rows already stored are left as they were. */
  lemma {:induction false} InsertSkippingKeepsStored(store: map<string, Lead>, batch: seq<Lead>)
    ensures forall id :: id in store ==>
      id in InsertSkipping(store, batch).rows && InsertSkipping(store, batch).rows[id] == store[id]
    decreases |batch|
  {
    if batch != [] {
      if batch[0].placeId in store {
        InsertSkippingKeepsStored(store, batch[1..]);
      } else {
        InsertSkippingKeepsStored(store[batch[0].placeId := batch[0]], batch[1..]);
      }
    }
  }

  /** Each new identifier holds the first row of the batch that carries it. */
  lemma {:induction false} InsertSkippingFirstWins(store: map<string, Lead>, batch: seq<Lead>)
    ensures forall id :: id in InsertSkipping(store, batch).rows && id !in store ==>
      FirstRowWith(batch, id) == Some(InsertSkipping(store, batch).rows[id])
    decreases |batch|
  {
    if batch != [] {
      var row := batch[0];
      if row.placeId in store {
        InsertSkippingFirstWins(store, batch[1..]);
      } else {
        var next := store[row.placeId := row];
        InsertSkippingFirstWins(next, batch[1..]);
        InsertSkippingKeepsStored(next, batch[1..]);
      }
    }
  }

  /** The table grows by exactly the count. */
  lemma {:induction false} InsertSkippingSize(store: map<string, Lead>, batch: seq<Lead>)
    ensures |InsertSkipping(store, batch).rows| == |store| + InsertSkipping(store, batch).count
    decreases |batch|
  {
    if batch != [] {
      if batch[0].placeId in store {
        InsertSkippingSize(store, batch[1..]);
      } else {
        var next := store[batch[0].placeId := batch[0]];
        InsertSkippingSize(next, batch[1..]);
        assert |next| == |store| + 1;
      }
    }
  }

  /** The count is the number of identifiers the insert added. */
  lemma InsertSkippingCountsNew(store: map<string, Lead>, batch: seq<Lead>)
    ensures InsertSkipping(store, batch).count == |InsertSkipping(store, batch).rows.Keys - store.Keys|
  {
    InsertSkippingKeys(store, batch);
    InsertSkippingSize(store, batch);
    var after := InsertSkipping(store, batch).rows.Keys;
    var added := after - store.Keys;
    assert after == store.Keys + added;
    assert |after| == |store.Keys| + |added|;
  }

  /** A batch whose identifiers are all stored changes nothing and counts nothing. */
  lemma {:induction false} InsertSkippingAllPresent(store: map<string, Lead>, batch: seq<Lead>)
    requires forall i :: 0 <= i < |batch| ==> batch[i].placeId in store
    ensures InsertSkipping(store, batch) == Inserted(store, 0)
    decreases |batch|
  {
    if batch != [] {
      assert forall i :: 0 <= i < |batch[1..]| ==> batch[1..][i] == batch[i + 1];
      InsertSkippingAllPresent(store, batch[1..]);
    }
  }

  /** Saving the same batch a second time adds nothing and reports 0. */
  lemma InsertSkippingTwice(store: map<string, Lead>, batch: seq<Lead>)
    ensures InsertSkipping(InsertSkipping(store, batch).rows, batch) == Inserted(InsertSkipping(store, batch).rows, 0)
  {
    InsertSkippingKeys(store, batch);
    var after := InsertSkipping(store, batch).rows;
    forall i | 0 <= i < |batch| ensures batch[i].placeId in after {
      assert batch[i].placeId in BatchIds(batch);
    }
    InsertSkippingAllPresent(after, batch);
  }

  /** The lead table, keyed by its unique place identifier. */
  class LeadStore {
    var rows: map<string, Lead>

    constructor (rows: map<string, Lead>)
      ensures this.rows == rows
    {
      this.rows := rows;
    }

    /** `prisma.lead.createMany({ data, skipDuplicates: true })`, returning `result.count`. */
    method CreateMany(data: seq<Lead>) returns (count: nat)
      modifies this
      ensures Inserted(rows, count) == InsertSkipping(old(rows), data)
    {
      var r := InsertSkipping(rows, data);
      rows := r.rows;
      count := r.count;
    }
  }

  /** The handler's responses: 401, 400, 500, or `{ count }`. */
  datatype SaveResponse = SaveUnauthorized | SaveInvalid | SaveFailed | Saved(count: nat)

  /**
   * `POST /api/leads/bulk-save`. `authenticated` is whether `auth()` found a session; `body` is
   * the parsed JSON body, None when it does not parse; `storeFails` is whether the insert
   * throws, in which case the single insert statement leaves the table as it was.
   */
  method BulkSavePost(authenticated: bool, body: Option<Json>, store: LeadStore, storeFails: bool)
    returns (response: SaveResponse)
    modifies store
    ensures !authenticated ==> response == SaveUnauthorized
    ensures authenticated && !ValidRequest(body) ==> response == SaveInvalid
    ensures authenticated && ValidRequest(body) && storeFails ==> response == SaveFailed
    ensures response.Saved? <==> authenticated && ValidRequest(body) && !storeFails
    ensures response.Saved? ==>
      Inserted(store.rows, response.count) == InsertSkipping(old(store.rows), ToRows(ItemsOf(body)))
    ensures !response.Saved? ==> store.rows == old(store.rows)
  {
    if !authenticated {
      return SaveUnauthorized;
    }
    if !ValidRequest(body) {
      return SaveInvalid;
    }
    var items := ItemsOf(body);
    if storeFails {
      return SaveFailed;
    }
    var count := store.CreateMany(ToRows(items));
    response := Saved(count);
  }

  /** Posting the same valid body twice: the second post stores nothing more and reports 0. */
  method SaveTwice(body: Option<Json>, store: LeadStore) returns (first: SaveResponse, second: SaveResponse)
    requires ValidRequest(body)
    modifies store
    ensures first.Saved? && second == Saved(0)
    ensures Inserted(store.rows, first.count) == InsertSkipping(old(store.rows), ToRows(ItemsOf(body)))
  {
    first := BulkSavePost(true, body, store, false);
    InsertSkippingTwice(old(store.rows), ToRows(ItemsOf(body)));
    second := BulkSavePost(true, body, store, false);
  }
}
