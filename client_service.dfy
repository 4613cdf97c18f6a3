/** The client repository (`src/services/client.service.ts`): query building,
    id parsing, record shaping, and the five operations over the `clients`
    collection, here a map from object id to stored document held by a
    `ClientStore` object.

    What the operations take from their surroundings is passed in: the clock
    (`now`, in milliseconds), the id the driver generates for an insert, the
    driver's regular-expression matcher, and whether the database connection
    or the operation fails. */
module ClientService {
  import opened Wrappers
  import opened JsStrings
  import opened JsRuntime
  import opened ClientTypes
  import opened RouteErrors

  // ---------------------------------------------------------------------
  // Object ids

  /** An object id, held as its 24 lower-case hexadecimal digits
      (`toHexString()`). */
  datatype ObjectId = ObjectId(hex: string)

  predicate IsHexDigit(c: char) {
    ('0' <= c <= '9') || ('a' <= c <= 'f') || ('A' <= c <= 'F')
  }

  /** `ObjectId.isValid` on a string: exactly 24 hexadecimal digits. */
  predicate IsValidObjectId(s: string) {
    |s| == 24 && forall i :: 0 <= i < |s| ==> IsHexDigit(s[i])
  }

  /** The form `toHexString()` produces: 24 lower-case hexadecimal digits. */
  predicate IsCanonicalHex(s: string) {
    IsValidObjectId(s) && forall i :: 0 <= i < |s| ==> !('A' <= s[i] <= 'F')
  }

  /** `parseObjectId`: `null` for a string that is not a valid id, otherwise
      the id it denotes, whose hex form is the string in lower case. */
  function ParseObjectId(id: string): (r: Option<ObjectId>)
    ensures r.Some? <==> IsValidObjectId(id)
    ensures r.Some? ==> IsCanonicalHex(r.value.hex) && r.value.hex == ToLower(id)
  {
    if IsValidObjectId(id) then Some(ObjectId(ToLower(id))) else None
  }

  /** Every stored id reads back from its own hex form: the id a record
      carries finds the same document again. */
  lemma ParseHexRoundTrip(oid: ObjectId)
    requires IsCanonicalHex(oid.hex)
    ensures ParseObjectId(oid.hex) == Some(oid)
  {
    assert ToLower(oid.hex) == oid.hex;
  }

  /** Letter case does not matter: an id in capitals denotes the same object
      as its lower-case spelling. */
  lemma ParseIgnoresCase(id: string)
    requires IsValidObjectId(id)
    ensures ParseObjectId(ToLower(id)) == ParseObjectId(id)
  {
    assert ToLower(ToLower(id)) == ToLower(id);
  }

  // ---------------------------------------------------------------------
  // Documents and records

  /** A stored document (`ClientRecord` without `id`). The timestamps are the
      milliseconds of the `Date` the service stamped them with. */
  datatype ClientDocument = ClientDocument(
    name: string,
    phone: string,
    petName: string,
    petBirthDate: JsDate,
    petType: PetType,
    notes: Option<string>,
    createdAt: int,
    updatedAt: int)

  /** `toClientRecord`: the id's hex form as `id`, every other field copied. */
  function ToClientRecord(id: ObjectId, d: ClientDocument): (r: ClientRecord)
    ensures r.id == id.hex
    ensures r.name == d.name && r.phone == d.phone && r.petName == d.petName
    ensures r.petBirthDate == d.petBirthDate && r.petType == d.petType && r.notes == d.notes
    ensures r.createdAt == ValidDate(d.createdAt) && r.updatedAt == ValidDate(d.updatedAt)
  {
    ClientRecord(id.hex, d.name, d.phone, d.petName, d.petBirthDate, d.petType, d.notes,
                 ValidDate(d.createdAt), ValidDate(d.updatedAt))
  }

  /** Distinct ids give distinct records, so a listing can be told apart by id. */
  lemma ToClientRecordInjective(a: ObjectId, da: ClientDocument, b: ObjectId, db: ClientDocument)
    requires ToClientRecord(a, da) == ToClientRecord(b, db)
    ensures a == b && da == db
  {
  }

  /** The document `addClient` inserts: the input with both timestamps `now`. */
  function NewDocument(input: ClientInput, now: int): (d: ClientDocument)
    ensures d.createdAt == now && d.updatedAt == now
    ensures d.name == input.name && d.phone == input.phone && d.petName == input.petName
    ensures d.petBirthDate == input.petBirthDate && d.petType == input.petType && d.notes == input.notes
  {
    ClientDocument(input.name, input.phone, input.petName, input.petBirthDate, input.petType, input.notes, now, now)
  }

  /** `$set: { ...input, updatedAt: now }`: the supplied fields and the new
      `updatedAt`. A `notes` key set to `undefined` leaves no notes. */
  function ApplyPatch(d: ClientDocument, patch: ClientPatch, now: int): (r: ClientDocument)
    ensures r.name == patch.name.GetOr(d.name)
    ensures r.phone == patch.phone.GetOr(d.phone)
    ensures r.petName == patch.petName.GetOr(d.petName)
    ensures r.petBirthDate == patch.petBirthDate.GetOr(d.petBirthDate)
    ensures r.petType == patch.petType.GetOr(d.petType)
    ensures r.notes == patch.notes.GetOr(d.notes)
    ensures r.createdAt == d.createdAt && r.updatedAt == now
  {
    d.(name := patch.name.GetOr(d.name),
       phone := patch.phone.GetOr(d.phone),
       petName := patch.petName.GetOr(d.petName),
       petBirthDate := patch.petBirthDate.GetOr(d.petBirthDate),
       petType := patch.petType.GetOr(d.petType),
       notes := patch.notes.GetOr(d.notes),
       updatedAt := now)
  }

  /** Applying the same update twice is applying it once. */
  lemma ApplyPatchIdempotent(d: ClientDocument, patch: ClientPatch, now: int)
    ensures ApplyPatch(ApplyPatch(d, patch, now), patch, now) == ApplyPatch(d, patch, now)
  {
  }

  /** An empty patch only refreshes `updatedAt`. */
  lemma EmptyPatchTouchesOnlyUpdatedAt(d: ClientDocument, now: int)
    ensures ApplyPatch(d, EmptyPatch, now) == d.(updatedAt := now)
  {
  }

  /** A document whose required strings are not blank keeps them so through
      any patch whose strings are not blank, as a validated patch's are; the
      timestamps stay ordered when the clock has not gone back. */
  lemma PatchKeepsDocumentWellFormed(d: ClientDocument, patch: ClientPatch, now: int)
    requires d.name != "" && d.phone != "" && d.petName != "" && d.createdAt <= d.updatedAt
    requires patch.name.Some? ==> patch.name.value != ""
    requires patch.phone.Some? ==> patch.phone.value != ""
    requires patch.petName.Some? ==> patch.petName.value != ""
    requires d.updatedAt <= now
    ensures var r := ApplyPatch(d, patch, now);
      r.name != "" && r.phone != "" && r.petName != "" && r.createdAt <= r.updatedAt
  {
  }

  // ---------------------------------------------------------------------
  // Queries

  /** `{ $regex: pattern, $options: options }`. */
  datatype RegexCondition = RegexCondition(pattern: string, options: string)

  /** The driver's regular-expression test, which this model does not
      interpret. */
  type RegexEval = (RegexCondition, string) -> bool

  /** The filter document `buildFilters` produces. */
  datatype Query = Query(name: Option<RegexCondition>, petName: Option<RegexCondition>, petType: Option<string>)

  const EmptyQuery := Query(None, None, None)

  /** Whether a document satisfies a query: every constraint holds. */
  predicate Matches(q: Query, d: ClientDocument, regex: RegexEval) {
    && (q.name.Some? ==> regex(q.name.value, d.name))
    && (q.petName.Some? ==> regex(q.petName.value, d.petName))
    && (q.petType.Some? ==> PetTypeName(d.petType) == q.petType.value)
  }

  /** The query `buildFilters(filters)` returns. */
  function FilterQuery(filters: ClientFilters): Query {
    Query(
      if Truthy(filters.name) then Some(RegexCondition(filters.name.value, "i")) else None,
      if Truthy(filters.petName) then Some(RegexCondition(filters.petName.value, "i")) else None,
      if Truthy(filters.petType) then Some(filters.petType.value) else None)
  }

  /** `buildFilters`: starts from the empty query and adds one constraint per
      truthy filter field. */
  method BuildFilters(filters: ClientFilters) returns (query: Query)
    ensures query == FilterQuery(filters)
  {
    query := EmptyQuery;
    if Truthy(filters.name) {
      query := query.(name := Some(RegexCondition(filters.name.value, "i")));
    }
    if Truthy(filters.petName) {
      query := query.(petName := Some(RegexCondition(filters.petName.value, "i")));
    }
    if Truthy(filters.petType) {
      query := query.(petType := Some(filters.petType.value));
    }
  }

  /** What a filter object asks for, stated field by field: a case-insensitive
      pattern match for each non-empty name filter and an exact pet type for a
      non-empty `petType`, all at once. `petTypes` plays no part. */
  predicate Selects(filters: ClientFilters, d: ClientDocument, regex: RegexEval) {
    && (filters.name.Some? && filters.name.value != "" ==> regex(RegexCondition(filters.name.value, "i"), d.name))
    && (filters.petName.Some? && filters.petName.value != "" ==> regex(RegexCondition(filters.petName.value, "i"), d.petName))
    && (filters.petType.Some? && filters.petType.value != "" ==> PetTypeName(d.petType) == filters.petType.value)
  }

  /** The built query matches exactly the documents the filters select. */
  lemma FilterQuerySelects(filters: ClientFilters, d: ClientDocument, regex: RegexEval)
    ensures Matches(FilterQuery(filters), d, regex) <==> Selects(filters, d, regex)
  {
  }

  /** With no truthy field the query is empty and matches every document. */
  lemma NoFiltersMatchAll(filters: ClientFilters, d: ClientDocument, regex: RegexEval)
    requires !Truthy(filters.name) && !Truthy(filters.petName) && !Truthy(filters.petType)
    ensures FilterQuery(filters) == EmptyQuery
    ensures Matches(FilterQuery(filters), d, regex)
  {
  }

  /** The query is empty only when no field is truthy. */
  lemma EmptyQueryOnlyWithoutFilters(filters: ClientFilters)
    requires FilterQuery(filters) == EmptyQuery
    ensures !Truthy(filters.name) && !Truthy(filters.petName) && !Truthy(filters.petType)
  {
  }

  /** An empty string filters nothing, and `petTypes` is ignored. */
  lemma EmptyStringAddsNothing(filters: ClientFilters)
    ensures FilterQuery(filters.(name := Some(""))) == FilterQuery(filters.(name := None))
    ensures FilterQuery(filters.(petName := Some(""))) == FilterQuery(filters.(petName := None))
    ensures FilterQuery(filters.(petType := Some(""))) == FilterQuery(filters.(petType := None))
    ensures FilterQuery(filters.(petTypes := None)) == FilterQuery(filters)
  {
  }

  /** Letters, digits and spaces: a pattern with no regular-expression
      metacharacter and no letter outside ASCII. */
  predicate IsPlainPattern(s: string) {
    forall i :: 0 <= i < |s| ==>
      ('a' <= s[i] <= 'z') || ('A' <= s[i] <= 'Z') || ('0' <= s[i] <= '9') || s[i] == ' '
  }

  predicate IsAscii(s: string) {
    forall i :: 0 <= i < |s| ==> s[i] < '\U{80}'
  }

  /** What any regular-expression engine does with the `i` option on a plain
      pattern and an ASCII subject: a case-insensitive substring test. */
  ghost predicate AgreesOnPlainPatterns(regex: RegexEval) {
    forall c: RegexCondition, s: string {:trigger regex(c, s)} ::
      c.options == "i" && IsPlainPattern(c.pattern) && IsAscii(s) ==>
        (regex(c, s) <==> Contains(ToLower(s), ToLower(c.pattern)))
  }

  /** For a plain name filter and an ASCII name, the name filter is a
      case-insensitive substring test, not a literal equality. */
  lemma PlainNameFilterIsSubstring(filters: ClientFilters, d: ClientDocument, regex: RegexEval)
    requires AgreesOnPlainPatterns(regex)
    requires Truthy(filters.name) && IsPlainPattern(filters.name.value) && IsAscii(d.name)
    requires FilterQuery(filters).petName == None && FilterQuery(filters).petType == None
    ensures Matches(FilterQuery(filters), d, regex) <==> Contains(ToLower(d.name), ToLower(filters.name.value))
  {
    var c := RegexCondition(filters.name.value, "i");
    assert regex(c, d.name) <==> Contains(ToLower(d.name), ToLower(c.pattern));
  }

  // ---------------------------------------------------------------------
  // Listings

  /** A listing entry before it is shaped into a record. */
  type Entry = (ObjectId, ClientDocument)

  /** `sort({ createdAt: -1 })`: newest first. */
  predicate NewestFirst(xs: seq<Entry>) {
    forall i, j :: 0 <= i < j < |xs| ==> xs[i].1.createdAt >= xs[j].1.createdAt
  }

  predicate DistinctIds(xs: seq<Entry>) {
    forall i, j :: 0 <= i < j < |xs| ==> xs[i].0 != xs[j].0
  }

  /** Inserts an entry into a newest-first list, before the entries of equal
      age. */
  function InsertNewestFirst(e: Entry, xs: seq<Entry>): (r: seq<Entry>)
    ensures |r| == |xs| + 1
    ensures forall x :: x in r <==> x in xs || x == e
  {
    if xs == [] || e.1.createdAt >= xs[0].1.createdAt then [e] + xs
    else
      var rest := InsertNewestFirst(e, xs[1..]);
      assert forall x :: x in xs[1..] ==> x in xs;
      [xs[0]] + rest
  }

  /** Inserting keeps a newest-first list newest first. */
  lemma {:induction false} InsertKeepsNewestFirst(e: Entry, xs: seq<Entry>)
    requires NewestFirst(xs)
    ensures NewestFirst(InsertNewestFirst(e, xs))
  {
    var r := InsertNewestFirst(e, xs);
    if xs == [] || e.1.createdAt >= xs[0].1.createdAt {
      forall i, j | 0 <= i < j < |r| ensures r[i].1.createdAt >= r[j].1.createdAt {
        assert r[j] == xs[j - 1];
        if i > 0 {
          assert r[i] == xs[i - 1];
        }
      }
    } else {
      var tail := xs[1..];
      assert NewestFirst(tail) by {
        forall i, j | 0 <= i < j < |tail| ensures tail[i].1.createdAt >= tail[j].1.createdAt {
          assert tail[i] == xs[i + 1] && tail[j] == xs[j + 1];
        }
      }
      InsertKeepsNewestFirst(e, tail);
      var rest := InsertNewestFirst(e, tail);
      assert r == [xs[0]] + rest;
      forall i, j | 0 <= i < j < |r| ensures r[i].1.createdAt >= r[j].1.createdAt {
        assert r[j] == rest[j - 1];
        if i == 0 {
          if r[j] != e {
            assert r[j] in tail;
            var k :| 0 <= k < |tail| && tail[k] == r[j];
            assert xs[k + 1] == r[j];
          }
        } else {
          assert r[i] == rest[i - 1];
        }
      }
    }
  }

  /** Inserting an entry whose id is new keeps the ids distinct. */
  lemma {:induction false} InsertKeepsIdsDistinct(e: Entry, xs: seq<Entry>)
    requires DistinctIds(xs) && forall x :: x in xs ==> x.0 != e.0
    ensures DistinctIds(InsertNewestFirst(e, xs))
  {
    if xs == [] || e.1.createdAt >= xs[0].1.createdAt {
      ConsKeepsIdsDistinct(e, xs);
    } else {
      var tail := xs[1..];
      assert DistinctIds(tail) && forall x :: x in tail ==> x.0 != e.0 by {
        assert forall x :: x in tail ==> x in xs;
        forall i, j | 0 <= i < j < |tail| ensures tail[i].0 != tail[j].0 {
          assert tail[i] == xs[i + 1] && tail[j] == xs[j + 1];
        }
      }
      InsertKeepsIdsDistinct(e, tail);
      var rest := InsertNewestFirst(e, tail);
      HeadIdNotInTail(xs);
      ConsKeepsIdsDistinct(xs[0], rest);
      assert InsertNewestFirst(e, xs) == [xs[0]] + rest;
    }
  }

  /** Putting an entry with a new id in front keeps the ids distinct. */
  lemma ConsKeepsIdsDistinct(h: Entry, xs: seq<Entry>)
    requires DistinctIds(xs) && forall x :: x in xs ==> x.0 != h.0
    ensures DistinctIds([h] + xs)
  {
    var r := [h] + xs;
    forall i, j | 0 <= i < j < |r| ensures r[i].0 != r[j].0 {
      assert r[j] == xs[j - 1];
      if i > 0 {
        assert r[i] == xs[i - 1];
      }
    }
  }

  /** In a list with distinct ids, no later entry shares the first one's id. */
  lemma HeadIdNotInTail(xs: seq<Entry>)
    requires DistinctIds(xs) && xs != []
    ensures forall x :: x in xs[1..] ==> x.0 != xs[0].0
  {
    forall x | x in xs[1..] ensures x.0 != xs[0].0 {
      var k :| 0 <= k < |xs[1..]| && xs[1..][k] == x;
      assert xs[k + 1] == x;
    }
  }

  /** The records a listing returns. */
  function Records(xs: seq<Entry>): (rs: seq<ClientRecord>)
    ensures |rs| == |xs|
    ensures forall i :: 0 <= i < |xs| ==> rs[i] == ToClientRecord(xs[i].0, xs[i].1)
  {
    seq(|xs|, i requires 0 <= i < |xs| => ToClientRecord(xs[i].0, xs[i].1))
  }

  /** The record of some stored document that matches the query. */
  ghost predicate FromStore(r: ClientRecord, docs: map<ObjectId, ClientDocument>, q: Query, regex: RegexEval) {
    exists id :: id in docs && Matches(q, docs[id], regex) && r == ToClientRecord(id, docs[id])
  }

  /** `rs` lists exactly the stored documents the query matches, once each,
      newest first. */
  ghost predicate IsListing(rs: seq<ClientRecord>, docs: map<ObjectId, ClientDocument>, q: Query, regex: RegexEval) {
    && (forall i :: 0 <= i < |rs| ==> FromStore(rs[i], docs, q, regex))
    && (forall id :: id in docs && Matches(q, docs[id], regex) ==> ToClientRecord(id, docs[id]) in rs)
    && (forall i, j :: 0 <= i < j < |rs| ==> rs[i].id != rs[j].id)
    && (forall i, j :: 0 <= i < j < |rs| ==> rs[i].createdAt.ms >= rs[j].createdAt.ms)
  }

  /** The matching entries, newest first and each id once, shape into a
      listing. */
  lemma PickedIsListing(picked: seq<Entry>, docs: map<ObjectId, ClientDocument>, q: Query, regex: RegexEval)
    requires forall x :: x in picked <==> x.0 in docs && docs[x.0] == x.1 && Matches(q, x.1, regex)
    requires NewestFirst(picked) && DistinctIds(picked)
    ensures IsListing(Records(picked), docs, q, regex)
  {
    var records := Records(picked);
    forall i | 0 <= i < |records|
      ensures FromStore(records[i], docs, q, regex)
    {
      var id := picked[i].0;
      assert picked[i] in picked;
      assert id in docs && Matches(q, docs[id], regex) && records[i] == ToClientRecord(id, docs[id]);
    }
    forall id | id in docs && Matches(q, docs[id], regex)
      ensures ToClientRecord(id, docs[id]) in records
    {
      var k :| 0 <= k < |picked| && picked[k] == (id, docs[id]);
      assert records[k] == ToClientRecord(id, docs[id]);
    }
    forall i, j | 0 <= i < j < |records|
      ensures records[i].id != records[j].id && records[i].createdAt.ms >= records[j].createdAt.ms
    {
      assert records[i] == ToClientRecord(picked[i].0, picked[i].1);
      assert records[j] == ToClientRecord(picked[j].0, picked[j].1);
    }
  }

  /** A listing is empty exactly when no stored document matches. */
  lemma ListingEmptyIffNoMatch(rs: seq<ClientRecord>, docs: map<ObjectId, ClientDocument>, q: Query, regex: RegexEval)
    requires IsListing(rs, docs, q, regex)
    ensures rs == [] <==> forall id :: id in docs ==> !Matches(q, docs[id], regex)
  {
    if rs != [] {
      assert FromStore(rs[0], docs, q, regex);
      var id :| id in docs && Matches(q, docs[id], regex) && rs[0] == ToClientRecord(id, docs[id]);
    }
  }

  // ---------------------------------------------------------------------
  // Failures

  /** How a call to the collection can fail: `connectToDatabase` throws, or
      the driver operation itself throws. */
  datatype StoreFailure = ConnectionFailed(cause: Thrown) | OperationFailed(cause: Thrown)

  /** Where `addClient` can fail: before anything is written, or in the
      `findOne` that reads the inserted document back. */
  datatype AddFailure = BeforeInsert(failure: StoreFailure) | ReadBackFailed(cause: Thrown)

  /** The failure `addClient` wraps: reading back is a driver operation. */
  function AddFailureCause(f: AddFailure): (r: StoreFailure)
    ensures f.BeforeInsert? ==> r == f.failure
    ensures f.ReadBackFailed? ==> r == OperationFailed(f.cause)
  {
    match f
    case BeforeInsert(failure) => failure
    case ReadBackFailed(cause) => OperationFailed(cause)
  }

  /** The message of the error the failing step throws inside the service's
      `try`: the connection error is rewrapped by `getClientsCollection`. */
  function FailureMessage(f: StoreFailure): string {
    match f
    case ConnectionFailed(cause) => "Database connection failed: " + GetErrorMessage(cause)
    case OperationFailed(cause) => GetErrorMessage(cause)
  }

  /** The error each operation rethrows: its context, a colon and the message. */
  function Wrapped(context: string, f: StoreFailure): (e: Thrown)
    ensures e.ErrorObject? && e.cls == PlainError
    ensures e.message == context + ": " + FailureMessage(f)
  {
    Err(context + ": " + FailureMessage(f))
  }

  const InvalidClientId := "Invalid client id"
  const ListContext := "Failed to list clients"
  const GetContext := "Failed to get client by id"
  const AddContext := "Failed to add client"
  const UpdateContext := "Failed to update client"
  const RemoveContext := "Failed to remove client"

  /** The error the service throws for a malformed id is the one the routes
      classify as an invalid-id error. */
  lemma ServiceInvalidIdIsClassified()
    ensures IsInvalidIdError(Err(InvalidClientId))
  {
    var m := ToLower(InvalidClientId);
    forall i | 0 <= i < |InvalidIdPhrase| ensures m[i] == InvalidIdPhrase[i] {
      assert ToLowerChar(InvalidClientId[i]) == InvalidIdPhrase[i];
    }
    assert OccursAt(m, InvalidIdPhrase, 0);
  }

  // ---------------------------------------------------------------------
  // The collection

  /** The `clients` collection. */
  class ClientStore {
    var docs: map<ObjectId, ClientDocument>

    /** Every stored id is in the canonical form the driver generates. */
    ghost predicate Valid()
      reads this
    {
      forall id :: id in docs ==> IsCanonicalHex(id.hex)
    }

    constructor()
      ensures docs == map[] && Valid()
    {
      docs := map[];
    }

    /** `GetClients`: every matching document, newest first. */
    method GetClients(filters: ClientFilters, regex: RegexEval, failure: Option<StoreFailure>)
      returns (r: Outcome<seq<ClientRecord>>)
      ensures failure.Some? ==> r == Throws(Wrapped(ListContext, failure.value))
      ensures failure.None? ==> r.Ok? && IsListing(r.value, docs, FilterQuery(filters), regex)
    {
      if failure.Some? {
        return Throws(Wrapped(ListContext, failure.value));
      }
      var query := BuildFilters(filters);
      var picked := Find(query, regex);
      PickedIsListing(picked, docs, query, regex);
      r := Ok(Records(picked));
    }

    /** `collection.find(query).sort({ createdAt: -1 })`. */
    method Find(query: Query, regex: RegexEval) returns (picked: seq<Entry>)
      ensures forall x :: x in picked <==> x.0 in docs && docs[x.0] == x.1 && Matches(query, x.1, regex)
      ensures NewestFirst(picked) && DistinctIds(picked)
    {
      picked := [];
      var remaining := docs.Keys;
      while remaining != {}
        invariant remaining <= docs.Keys
        invariant forall x :: x in picked ==> x.0 in docs && docs[x.0] == x.1 && Matches(query, x.1, regex) && x.0 !in remaining
        invariant forall id :: id in docs && id !in remaining && Matches(query, docs[id], regex) ==> (id, docs[id]) in picked
        invariant NewestFirst(picked) && DistinctIds(picked)
        decreases remaining
      {
        var id :| id in remaining;
        if Matches(query, docs[id], regex) {
          InsertKeepsIdsDistinct((id, docs[id]), picked);
          InsertKeepsNewestFirst((id, docs[id]), picked);
          picked := InsertNewestFirst((id, docs[id]), picked);
        }
        remaining := remaining - {id};
      }
    }

    /** `getClientById`. Since every stored id is in canonical form, each
        stored document is found through its own id's hex form. */
    method GetClientById(id: string, failure: Option<StoreFailure>) returns (r: Outcome<Option<ClientRecord>>)
      ensures !IsValidObjectId(id) ==> r == Throws(Err(InvalidClientId))
      ensures IsValidObjectId(id) && failure.Some? ==> r == Throws(Wrapped(GetContext, failure.value))
      ensures IsValidObjectId(id) && failure.None? ==>
        var oid := ParseObjectId(id).value;
        r == Ok(if oid in docs then Some(ToClientRecord(oid, docs[oid])) else None)
      ensures Valid() && failure.None? ==>
        forall oid :: oid in docs && oid.hex == id ==> r == Ok(Some(ToClientRecord(oid, docs[oid])))
    {
      forall oid | Valid() && oid in docs && oid.hex == id
        ensures ParseObjectId(id) == Some(oid)
      {
        ParseHexRoundTrip(oid);
      }
      var objectId := ParseObjectId(id);
      if objectId.None? {
        return Throws(Err(InvalidClientId));
      }
      if failure.Some? {
        return Throws(Wrapped(GetContext, failure.value));
      }
      if objectId.value !in docs {
        return Ok(None);
      }
      r := Ok(Some(ToClientRecord(objectId.value, docs[objectId.value])));
    }

    /** `addClient`: inserts the input stamped with `now` under the id the
        driver generated, and returns the stored record read back. A failure
        before the insert (connecting, or `insertOne` itself) writes nothing;
        a failure of the `findOne` that reads the document back leaves it
        stored, yet the call still throws. */
    method AddClient(input: ClientInput, now: int, newId: ObjectId, failure: Option<AddFailure>)
      returns (r: Outcome<ClientRecord>)
      requires Valid()
      requires IsCanonicalHex(newId.hex) && newId !in docs
      modifies this
      ensures Valid()
      ensures failure.Some? ==> r == Throws(Wrapped(AddContext, AddFailureCause(failure.value)))
      ensures failure.Some? && failure.value.BeforeInsert? ==> docs == old(docs)
      ensures failure.Some? && failure.value.ReadBackFailed? ==> docs == old(docs)[newId := NewDocument(input, now)]
      ensures failure.None? ==>
        && docs == old(docs)[newId := NewDocument(input, now)]
        && r == Ok(ToClientRecord(newId, NewDocument(input, now)))
    {
      if failure.Some? && failure.value.BeforeInsert? {
        return Throws(Wrapped(AddContext, failure.value.failure));
      }
      docs := docs[newId := NewDocument(input, now)];
      if failure.Some? {
        return Throws(Wrapped(AddContext, OperationFailed(failure.value.cause)));
      }
      var saved := docs[newId];
      r := Ok(ToClientRecord(newId, saved));
    }

    /** `updateClient`: sets the supplied fields and `updatedAt`, and returns
        the document as it is after the update, or `null` when there is none. */
    method UpdateClient(id: string, patch: ClientPatch, now: int, failure: Option<StoreFailure>)
      returns (r: Outcome<Option<ClientRecord>>)
      requires Valid()
      modifies this
      ensures Valid()
      ensures !IsValidObjectId(id) ==> docs == old(docs) && r == Throws(Err(InvalidClientId))
      ensures IsValidObjectId(id) && failure.Some? ==> docs == old(docs) && r == Throws(Wrapped(UpdateContext, failure.value))
      ensures IsValidObjectId(id) && failure.None? ==>
        var oid := ParseObjectId(id).value;
        if oid in old(docs) then
          docs == old(docs)[oid := ApplyPatch(old(docs)[oid], patch, now)]
          && r == Ok(Some(ToClientRecord(oid, docs[oid])))
        else docs == old(docs) && r == Ok(None)
    {
      var objectId := ParseObjectId(id);
      if objectId.None? {
        return Throws(Err(InvalidClientId));
      }
      if failure.Some? {
        return Throws(Wrapped(UpdateContext, failure.value));
      }
      var oid := objectId.value;
      if oid !in docs {
        return Ok(None);
      }
      docs := docs[oid := ApplyPatch(docs[oid], patch, now)];
      r := Ok(Some(ToClientRecord(oid, docs[oid])));
    }

    /** `removeClient`: deletes the document with the id, answering whether
        exactly one was deleted. */
    method RemoveClient(id: string, failure: Option<StoreFailure>) returns (r: Outcome<bool>)
      requires Valid()
      modifies this
      ensures Valid()
      ensures !IsValidObjectId(id) ==> docs == old(docs) && r == Throws(Err(InvalidClientId))
      ensures IsValidObjectId(id) && failure.Some? ==> docs == old(docs) && r == Throws(Wrapped(RemoveContext, failure.value))
      ensures IsValidObjectId(id) && failure.None? ==>
        var oid := ParseObjectId(id).value;
        docs == old(docs) - {oid} && r == Ok(oid in old(docs))
    {
      var objectId := ParseObjectId(id);
      if objectId.None? {
        return Throws(Err(InvalidClientId));
      }
      if failure.Some? {
        return Throws(Wrapped(RemoveContext, failure.value));
      }
      var deletedCount := if objectId.value in docs then 1 else 0;
      docs := docs - {objectId.value};
      r := Ok(deletedCount == 1);
    }
  }

  // ---------------------------------------------------------------------
  // Sequences of calls

  /** A client added to an empty collection is found again by the id of the
      record `addClient` returned, with the same content. */
  method AddThenGet(input: ClientInput, now: int, newId: ObjectId)
    returns (added: Outcome<ClientRecord>, found: Outcome<Option<ClientRecord>>)
    requires IsCanonicalHex(newId.hex)
    ensures added.Ok? && found == Ok(Some(added.value))
    ensures added.value.createdAt == added.value.updatedAt == ValidDate(now)
  {
    var store := new ClientStore();
    added := store.AddClient(input, now, newId, None);
    ParseHexRoundTrip(newId);
    found := store.GetClientById(added.value.id, None);
  }

  /** When reading the inserted document back fails, `addClient` throws
      `Failed to add client: ...`, yet the client is stored and a later get
      finds it. */
  method AddFailsAfterInsert(input: ClientInput, now: int, newId: ObjectId, cause: Thrown)
    returns (added: Outcome<ClientRecord>, found: Outcome<Option<ClientRecord>>)
    requires IsCanonicalHex(newId.hex)
    ensures added == Throws(Wrapped(AddContext, OperationFailed(cause)))
    ensures found == Ok(Some(ToClientRecord(newId, NewDocument(input, now))))
  {
    var store := new ClientStore();
    added := store.AddClient(input, now, newId, Some(ReadBackFailed(cause)));
    ParseHexRoundTrip(newId);
    found := store.GetClientById(newId.hex, None);
  }

  /** Removing the same client twice answers `true`, then `false`. */
  method RemoveTwice(input: ClientInput, now: int, newId: ObjectId)
    returns (first: Outcome<bool>, second: Outcome<bool>)
    requires IsCanonicalHex(newId.hex)
    ensures first == Ok(true) && second == Ok(false)
  {
    var store := new ClientStore();
    var added := store.AddClient(input, now, newId, None);
    ParseHexRoundTrip(newId);
    first := store.RemoveClient(newId.hex, None);
    second := store.RemoveClient(newId.hex, None);
  }

  /** An update through a valid id changes only what it supplies: the record
      it returns keeps `createdAt`, carries `updatedAt = now`, and keeps every
      field the patch leaves out. */
  method UpdateThenGet(input: ClientInput, created: int, newId: ObjectId, patch: ClientPatch, now: int)
    returns (updated: Outcome<Option<ClientRecord>>, found: Outcome<Option<ClientRecord>>)
    requires IsCanonicalHex(newId.hex)
    ensures updated.Ok? && updated.value.Some? && found == updated
    ensures var rec := updated.value.value;
      && rec.createdAt == ValidDate(created) && rec.updatedAt == ValidDate(now)
      && rec.id == newId.hex
      && rec.name == patch.name.GetOr(input.name)
      && rec.phone == patch.phone.GetOr(input.phone)
      && rec.petName == patch.petName.GetOr(input.petName)
      && rec.petBirthDate == patch.petBirthDate.GetOr(input.petBirthDate)
      && rec.petType == patch.petType.GetOr(input.petType)
      && rec.notes == patch.notes.GetOr(input.notes)
  {
    var store := new ClientStore();
    var added := store.AddClient(input, created, newId, None);
    ParseHexRoundTrip(newId);
    updated := store.UpdateClient(newId.hex, patch, now, None);
    found := store.GetClientById(newId.hex, None);
  }
}
