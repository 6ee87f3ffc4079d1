/** UniCarService of core_python/services.py: the offer lifecycle over one
    document holding the users (USUARIOS), the offers (OFERTAS), the offer
    counter (Nofertas), the day of the last offer (dia_ultima_oferta) and the
    "local" selection slot.

    The four state-changing operations of the source (upsert_user,
    create_offer, select_offer, confirm_selected_offer) load the whole
    document, change part of it and save it again; the read-only ones load it
    without saving, and offers_to_list_strings works on its argument alone.
    Here the document lives in the fields of a UniCarService object, so
    loading is reading those fields and saving is assigning them. Each state-changing method is specified by a pure
    transition function on Document values (Upsert, Create, Select, Confirm);
    the properties of the lifecycle are lemmas about those functions. */
module Services {
  import opened Values
  import opened Models

  datatype ServiceError =
    | OfferNotFound     // "offer not found"
    | NoOfferSelected   // "no offer selected"
    | NoAvailableSeats  // "no available seats"

  /** The minimum fields needed to create an offer. `seats` is read through
      _parse_int, so it is kept as a Value. */
  datatype OfferInput = OfferInput(
    driverId: string,
    seats: Value,
    departureLabel: string,
    destinationLabel: string,
    hour: string,
    minute: string,
    stopsText: string,
    carModel: string,
    carColor: string,
    plate: string)

  /** The document, after schema patching, seen through its five slots. */
  datatype Document = Document(
    users: map<string, Value>,
    offers: map<string, Value>,
    offerCount: Value,
    lastOfferDay: Value,
    local: map<string, Value>)

  datatype Outcome = Outcome(doc: Document, offer: Offer)

  const UsersKey: string := "USUARIOS"
  const OffersKey: string := "OFERTAS"
  const OffersCountKey: string := "Nofertas"
  const LastOfferDayKey: string := "dia_ultima_oferta"

  /** The document a missing or unreadable store starts from. */
  const EmptyDocument: Document := Document(map[], map[], VInt(0), VInt(0), map[])

  // ---------------------------------------------------------------
  // Persistence helpers
  // ---------------------------------------------------------------

  /** The firebase half of _ensure_schema: each of the four keys is added
      with its default when missing; every present entry is kept. */
  function PatchFirebase(f: map<string, Value>): (r: map<string, Value>)
    ensures r.Keys == f.Keys + {UsersKey, OffersKey, OffersCountKey, LastOfferDayKey}
    ensures forall k :: k in f ==> r[k] == f[k]
    ensures UsersKey !in f ==> r[UsersKey] == VMap(map[])
    ensures OffersKey !in f ==> r[OffersKey] == VMap(map[])
    ensures OffersCountKey !in f ==> r[OffersCountKey] == VInt(0)
    ensures LastOfferDayKey !in f ==> r[LastOfferDayKey] == VInt(0)
  {
    var f := if UsersKey in f then f else f[UsersKey := VMap(map[])];
    var f := if OffersKey in f then f else f[OffersKey := VMap(map[])];
    var f := if OffersCountKey in f then f else f[OffersCountKey := VInt(0)];
    if LastOfferDayKey in f then f else f[LastOfferDayKey := VInt(0)]
  }

  /** _ensure_schema: adds every missing top-level and firebase key with its
      default and keeps every entry that is there. Python raises when
      "firebase" holds something that is not a dict (None here). */
  function EnsureSchema(data: map<string, Value>): (r: Option<map<string, Value>>)
    ensures r.None? <==> "firebase" in data && !data["firebase"].VMap?
    ensures r.Some? ==> r.value.Keys == data.Keys + {"firebase", "local"}
    ensures r.Some? ==> forall k :: k in data && k != "firebase" ==> r.value[k] == data[k]
    ensures r.Some? ==> "local" !in data ==> r.value["local"] == VMap(map[])
    ensures r.Some? ==> r.value["firebase"] == VMap(PatchFirebase(if "firebase" in data then data["firebase"].entries else map[]))
  {
    var fb := if "firebase" in data then data["firebase"] else VMap(map[]);
    if !fb.VMap? then None
    else
      var data := data["firebase" := VMap(PatchFirebase(fb.entries))];
      Some(if "local" in data then data else data["local" := VMap(map[])])
  }

  /** Patching an already patched document changes nothing. */
  lemma EnsureSchemaIdempotent(data: map<string, Value>)
    requires EnsureSchema(data).Some?
    ensures EnsureSchema(EnsureSchema(data).value) == EnsureSchema(data)
  {
    var p := EnsureSchema(data).value;
    var q := EnsureSchema(p).value;
    assert q["firebase"].entries == p["firebase"].entries;
    assert q == p;
  }

  /** What _save writes: the five slots under "firebase" and "local". */
  function ToRaw(d: Document): map<string, Value>
  {
    map[
      "firebase" := VMap(map[
        UsersKey := VMap(d.users),
        OffersKey := VMap(d.offers),
        OffersCountKey := d.offerCount,
        LastOfferDayKey := d.lastOfferDay]),
      "local" := VMap(d.local)]
  }

  /** _load: a stored value that is not a dict is replaced by {}, the schema
      is patched, and the five slots are read. None where the source would
      fail: "firebase", USUARIOS, OFERTAS or "local" holding a non-dict. */
  function Load(stored: Value): (r: Option<Document>)
    ensures !stored.VMap? ==> r == Some(EmptyDocument)
  {
    var data := if stored.VMap? then stored.entries else map[];
    match EnsureSchema(data)
    case None => None
    case Some(p) =>
      var fb := p["firebase"].entries;
      if fb[UsersKey].VMap? && fb[OffersKey].VMap? && p["local"].VMap? then
        Some(Document(fb[UsersKey].entries, fb[OffersKey].entries, fb[OffersCountKey], fb[LastOfferDayKey], p["local"].entries))
      else None
  }

  /** Loading what was saved gives back the same document. */
  lemma SaveThenLoad(d: Document)
    ensures EnsureSchema(ToRaw(d)) == Some(ToRaw(d))
    ensures Load(VMap(ToRaw(d))) == Some(d)
  {
    var raw := ToRaw(d);
    var p := EnsureSchema(raw).value;
    assert p["firebase"].entries == raw["firebase"].entries;
    assert p == raw;
  }

  // ---------------------------------------------------------------
  // Reads
  // ---------------------------------------------------------------

  /** get_user */
  function GetUser(d: Document, userId: string): (r: Option<User>)
    ensures r.None? <==> userId !in d.users || !d.users[userId].VMap?
    ensures r.Some? ==> r.value == UserFromFirebase(userId, d.users[userId].entries)
  {
    if userId in d.users && d.users[userId].VMap? then Some(UserFromFirebase(userId, d.users[userId].entries))
    else None
  }

  /** get_offer */
  function GetOffer(d: Document, offerKey: string): (r: Option<Offer>)
    ensures r.None? <==> offerKey !in d.offers || !d.offers[offerKey].VMap?
    ensures r.Some? ==> r.value == OfferFromFirebase(offerKey, d.offers[offerKey].entries)
    ensures r.Some? ==> r.value.offerKey == offerKey
  {
    if offerKey in d.offers && d.offers[offerKey].VMap? then Some(OfferFromFirebase(offerKey, d.offers[offerKey].entries))
    else None
  }

  /** The seat count stored under every offer is non-negative. */
  ghost predicate SeatsNonNegative(d: Document)
  {
    forall k :: k in d.offers && d.offers[k].VMap? ==> Seats(d.offers[k].entries) >= 0
  }

  // ---------------------------------------------------------------
  // Users
  // ---------------------------------------------------------------

  /** upsert_user: overwrites USUARIOS[user_id] with the user's payload. */
  function Upsert(d: Document, u: User): (r: Document)
    ensures r.users.Keys == d.users.Keys + {u.userId}
    ensures forall id :: id in d.users && id != u.userId ==> r.users[id] == d.users[id]
    ensures r.offers == d.offers && r.offerCount == d.offerCount && r.lastOfferDay == d.lastOfferDay && r.local == d.local
  {
    d.(users := d.users[u.userId := VMap(UserToFirebase(u))])
  }

  /** After an upsert, get_user returns the user with its stops normalised,
      and every other user reads as before. */
  lemma UpsertThenGetUser(d: Document, u: User, other: string)
    requires forall i :: 0 <= i < |u.stops| ==> '|' !in u.stops[i]
    ensures GetUser(Upsert(d, u), u.userId) == Some(u.(stops := Cleaned(u.stops)))
    ensures other != u.userId ==> GetUser(Upsert(d, u), other) == GetUser(d, other)
  {
    UserRoundTrip(u.userId, u);
  }

  // ---------------------------------------------------------------
  // Offers
  // ---------------------------------------------------------------

  /** The six detail lines of a new offer, in their fixed order. */
  function OfferDetails(input: OfferInput): (r: seq<string>)
    ensures |r| == 6
    ensures "Departure: " <= r[0] && "Time: " <= r[1] && "Stops: " <= r[2]
    ensures "Car: " <= r[3] && "Color: " <= r[4] && "Plate: " <= r[5]
  {
    ["Departure: " + input.departureLabel + ", Destination: " + input.destinationLabel,
     "Time: " + input.hour + ":" + input.minute,
     "Stops: " + input.stopsText,
     "Car: " + input.carModel,
     "Color: " + input.carColor,
     "Plate: " + input.plate]
  }

  /** max(_parse_int(seats, 0), 0) */
  function ClampedSeats(seats: Value): (n: int)
    ensures n >= 0
    ensures IntOr(seats, 0) >= 0 ==> n == IntOr(seats, 0)
    ensures IntOr(seats, 0) < 0 ==> n == 0
  {
    var parsed := IntOr(seats, 0);
    if parsed > 0 then parsed else 0
  }

  /** The key list_available_offers sorts by: int(key), 10**9 when the key is
      not a number. */
  function SortKey(offerKey: string): (k: int)
    ensures ParseDecimal(offerKey).Some? ==> k == ParseDecimal(offerKey).value
    ensures ParseDecimal(offerKey).None? ==> k == 1_000_000_000
  {
    IntOr(VStr(offerKey), 1_000_000_000)
  }

  /** The payload create_offer stores: to_firebase of the new offer, with
      "dados_oferta" replaced by the six detail lines and "id_ofertador" set
      to the driver. It holds exactly the four known keys. */
  function NewPayload(input: OfferInput): (p: map<string, Value>)
    ensures p.Keys == KnownKeys
    ensures p["id"] == VStr(input.driverId) && p["id_ofertador"] == VStr(input.driverId)
    ensures p["num_vagas"] == VInt(ClampedSeats(input.seats))
    ensures p["dados_oferta"] == VList(OfferDetails(input))
  {
    var offer := Offer("", input.driverId, input.driverId, ClampedSeats(input.seats), "", map[]);
    BareOfferToFirebase(offer);
    OfferToFirebase(offer)["dados_oferta" := VList(OfferDetails(input))]["id_ofertador" := VStr(input.driverId)]
  }

  /** The offer create_offer returns is the stored payload read back. */
  lemma NewPayloadReadsBack(input: OfferInput, key: string)
    ensures OfferFromFirebase(key, NewPayload(input)) ==
      Offer(key, input.driverId, input.driverId, ClampedSeats(input.seats), Str(VList(OfferDetails(input))), map[])
  {
    var p := NewPayload(input);
    assert p - KnownKeys == map[];
  }

  /** create_offer: the counter goes up by one, the offer is stored under the
      new counter's decimal numeral with its clamped seats, its driver and its
      six detail lines, and no other offer changes. */
  function Create(d: Document, input: OfferInput, today: int): (r: Outcome)
    ensures var n := IntOr(d.offerCount, 0) + 1;
      && r.doc.offerCount == VInt(n)
      && r.offer.offerKey == IntToString(n)
    ensures r.doc.lastOfferDay == VInt(today)
    ensures r.doc.users == d.users && r.doc.local == d.local
    ensures var key := r.offer.offerKey;
      && r.doc.offers == d.offers[key := VMap(NewPayload(input))]
    ensures r.offer.availableSeats == ClampedSeats(input.seats) && r.offer.availableSeats >= 0
    ensures r.offer.driverUserId == input.driverId && r.offer.offerId == input.driverId
    ensures r.offer.payload == map[]
    ensures GetOffer(r.doc, r.offer.offerKey) == Some(r.offer)
  {
    var n := IntOr(d.offerCount, 0) + 1;
    var key := IntToString(n);
    var payload := NewPayload(input);
    NewPayloadReadsBack(input, key);
    Outcome(
      d.(offers := d.offers[key := VMap(payload)], offerCount := VInt(n), lastOfferDay := VInt(today)),
      OfferFromFirebase(key, payload))
  }

  /** The key of a new offer reads back as the new counter value, so offers
      list in the order they were created. */
  lemma CreatedKeyIsCount(d: Document, input: OfferInput, today: int)
    ensures SortKey(Create(d, input, today).offer.offerKey) == IntOr(d.offerCount, 0) + 1
  {
    ParseIntToString(IntOr(d.offerCount, 0) + 1);
  }

  /** create_offer keeps every stored seat count non-negative. */
  lemma CreateKeepsSeatsNonNegative(d: Document, input: OfferInput, today: int)
    requires SeatsNonNegative(d)
    ensures SeatsNonNegative(Create(d, input, today).doc)
  {
    assert Seats(NewPayload(input)) == ClampedSeats(input.seats);
  }

  /** A list sorted by an integer key, ascending. */
  predicate SortedBy<T>(key: T -> int, s: seq<T>)
  {
    forall i, j :: 0 <= i < j < |s| ==> key(s[i]) <= key(s[j])
  }

  /** The key list_available_offers sorts offers by. */
  function OfferSortKey(o: Offer): int
  {
    SortKey(o.offerKey)
  }

  /** Offers sorted by SortKey, ascending. */
  predicate SortedByKey(s: seq<Offer>)
  {
    SortedBy(OfferSortKey, s)
  }

  /** No two elements of a list share an id. */
  predicate DistinctBy<T>(id: T -> string, s: seq<T>)
  {
    forall i, j :: 0 <= i < j < |s| ==> id(s[i]) != id(s[j])
  }

  function OfferKeyOf(o: Offer): string
  {
    o.offerKey
  }

  /** No two offers share a key. */
  predicate DistinctKeys(s: seq<Offer>)
  {
    DistinctBy(OfferKeyOf, s)
  }

  /** Inserts x after every element whose key is not greater, as a stable
      sort does. */
  function InsertBy<T>(key: T -> int, x: T, s: seq<T>): (r: seq<T>)
    ensures |r| == |s| + 1
    ensures multiset(r) == multiset(s) + multiset{x}
  {
    if s == [] then [x]
    else if key(x) < key(s[0]) then [x] + s
    else
      assert s == [s[0]] + s[1..];
      [s[0]] + InsertBy(key, x, s[1..])
  }

  /** Inserting into a sorted list keeps it sorted. */
  lemma {:induction false} InsertSorted<T>(key: T -> int, x: T, s: seq<T>)
    requires SortedBy(key, s)
    ensures SortedBy(key, InsertBy(key, x, s))
  {
    if s != [] && key(x) >= key(s[0]) {
      var t := InsertBy(key, x, s[1..]);
      InsertSorted(key, x, s[1..]);
      forall j | 0 <= j < |t|
        ensures key(s[0]) <= key(t[j])
      {
        assert t[j] in multiset(t);
        if t[j] != x {
          assert t[j] in multiset(s[1..]);
          assert t[j] in s[1..];
        }
      }
      assert InsertBy(key, x, s) == [s[0]] + t;
    }
  }

  /** offers.sort(key=...): a stable insertion sort; a permutation of its
      input. */
  function SortBy<T>(key: T -> int, s: seq<T>): (r: seq<T>)
    ensures |r| == |s|
    ensures multiset(r) == multiset(s)
  {
    if s == [] then []
    else
      var init := s[..|s| - 1];
      assert s == init + [s[|s| - 1]];
      InsertBy(key, s[|s| - 1], SortBy(key, init))
  }

  /** The result of SortBy is sorted. */
  lemma {:induction false} SortSorted<T>(key: T -> int, s: seq<T>)
    ensures SortedBy(key, SortBy(key, s))
  {
    if s != [] {
      SortSorted(key, s[..|s| - 1]);
      InsertSorted(key, s[|s| - 1], SortBy(key, s[..|s| - 1]));
    }
  }

  /** Inserting an element whose id is new into a list of distinct ids
      keeps the ids distinct. */
  lemma {:induction false} InsertDistinct<T>(key: T -> int, id: T -> string, x: T, s: seq<T>)
    requires DistinctBy(id, s)
    requires forall i :: 0 <= i < |s| ==> id(s[i]) != id(x)
    ensures DistinctBy(id, InsertBy(key, x, s))
  {
    if s != [] && key(x) >= key(s[0]) {
      var t := InsertBy(key, x, s[1..]);
      InsertDistinct(key, id, x, s[1..]);
      forall j | 0 <= j < |t|
        ensures id(s[0]) != id(t[j])
      {
        assert t[j] in multiset(t);
        if t[j] != x {
          assert t[j] in multiset(s[1..]);
          assert t[j] in s[1..];
        }
      }
      assert InsertBy(key, x, s) == [s[0]] + t;
    }
  }

  /** Sorting keeps the ids distinct. */
  lemma {:induction false} SortDistinct<T>(key: T -> int, id: T -> string, s: seq<T>)
    requires DistinctBy(id, s)
    ensures DistinctBy(id, SortBy(key, s))
  {
    if s != [] {
      var init := s[..|s| - 1];
      var x := s[|s| - 1];
      var t := SortBy(key, init);
      SortDistinct(key, id, init);
      forall i | 0 <= i < |t|
        ensures id(t[i]) != id(x)
      {
        assert t[i] in multiset(t);
        assert t[i] in multiset(init);
        assert t[i] in init;
      }
      InsertDistinct(key, id, x, t);
    }
  }

  /** An offer list_available_offers returns: a dict payload whose seat
      count is positive. */
  ghost predicate Listed(offers: map<string, Value>, k: string)
  {
    k in offers && offers[k].VMap? && Seats(offers[k].entries) > 0
  }

  /** An offer read from its stored, listed payload. */
  ghost predicate ListedOffer(offers: map<string, Value>, o: Offer)
  {
    Listed(offers, o.offerKey) && o == OfferFromFirebase(o.offerKey, offers[o.offerKey].entries)
  }

  /** A permutation has the same members. */
  lemma PermutationMembers<T>(s: seq<T>, t: seq<T>)
    requires multiset(s) == multiset(t)
    ensures forall x :: x in s <==> x in t
  {
    forall x
      ensures x in s <==> x in t
    {
      assert x in s <==> x in multiset(s);
      assert x in t <==> x in multiset(t);
    }
  }

  /** Sorting the collected offers keeps exactly the listed offers, each
      once, and puts them in key order. */
  lemma SortedListing(offers: map<string, Value>, collected: seq<Offer>)
    requires forall i :: 0 <= i < |collected| ==> ListedOffer(offers, collected[i])
    requires forall k :: Listed(offers, k) ==> OfferFromFirebase(k, offers[k].entries) in collected
    requires DistinctKeys(collected)
    ensures var r := SortBy(OfferSortKey, collected);
      && (forall i :: 0 <= i < |r| ==> ListedOffer(offers, r[i]))
      && (forall k :: Listed(offers, k) ==> OfferFromFirebase(k, offers[k].entries) in r)
      && DistinctKeys(r)
      && SortedByKey(r)
  {
    var r := SortBy(OfferSortKey, collected);
    SortSorted(OfferSortKey, collected);
    SortDistinct(OfferSortKey, OfferKeyOf, collected);
    PermutationMembers(collected, r);
    assert forall i :: 0 <= i < |r| ==> r[i] in collected;
  }

  // ---------------------------------------------------------------
  // Selection
  // ---------------------------------------------------------------

  /** Python's `a or b` */
  function Or(a: Value, b: Value): Value
  {
    if Truthy(a) then a else b
  }

  /** select_offer: fails when the key is absent or its payload is not a
      dict; otherwise snapshots the offer into the local slot and changes
      nothing else. It succeeds whatever the seat count. */
  function Select(d: Document, offerKey: string): (r: Result<Outcome, ServiceError>)
    ensures r.Err? <==> offerKey !in d.offers || !d.offers[offerKey].VMap?
    ensures r.Err? ==> r.error == OfferNotFound
    ensures r.Ok? ==> var p := d.offers[offerKey].entries;
      && r.value.offer == OfferFromFirebase(offerKey, p)
      && r.value.doc.offers == d.offers && r.value.doc.users == d.users
      && r.value.doc.offerCount == d.offerCount && r.value.doc.lastOfferDay == d.lastOfferDay
      && r.value.doc.local.Keys == d.local.Keys + {"offer_key", "id_ofertador", "dados_oferta", "num_vagas"}
      && r.value.doc.local["offer_key"] == VStr(offerKey)
      && r.value.doc.local["num_vagas"] == VInt(Seats(p))
      && r.value.doc.local["dados_oferta"] == Get(p, "dados_oferta", VList([]))
      && r.value.doc.local["id_ofertador"] ==
           Or(Or(Get(p, "id_ofertador", VNone), VStr(r.value.offer.driverUserId)), VStr(r.value.offer.offerId))
    ensures r.Ok? ==> forall k :: k in d.local && k !in {"offer_key", "id_ofertador", "dados_oferta", "num_vagas"} ==>
      r.value.doc.local[k] == d.local[k]
  {
    if offerKey !in d.offers || !d.offers[offerKey].VMap? then Err(OfferNotFound)
    else
      var payload := d.offers[offerKey].entries;
      var offer := OfferFromFirebase(offerKey, payload);
      var local := d.local["offer_key" := VStr(offer.offerKey)];
      var local := local["id_ofertador" := Or(Or(Get(payload, "id_ofertador", VNone), VStr(offer.driverUserId)), VStr(offer.offerId))];
      var local := local["dados_oferta" := Get(payload, "dados_oferta", VList([]))];
      var local := local["num_vagas" := VInt(offer.availableSeats)];
      Ok(Outcome(d.(local := local), offer))
  }

  /** The key in the selection slot, when the slot holds a truthy one. */
  function SelectedKey(local: map<string, Value>): (r: Option<string>)
    ensures "offer_key" !in local ==> r.None?
    ensures r.Some? ==> "offer_key" in local && Truthy(local["offer_key"])
  {
    var sel := Get(local, "offer_key", VNone);
    if Truthy(sel) then Some(Str(sel)) else None
  }

  /** confirm_selected_offer: fails with no (or an empty) selection, with a
      selected offer that is missing or not a dict, or with no seats left;
      otherwise decrements exactly that offer's "num_vagas" by one. */
  function Confirm(d: Document): (r: Result<Outcome, ServiceError>)
    ensures r == Err(NoOfferSelected) <==> SelectedKey(d.local).None?
    ensures r == Err(OfferNotFound) <==>
      SelectedKey(d.local).Some? && (SelectedKey(d.local).value !in d.offers || !d.offers[SelectedKey(d.local).value].VMap?)
    ensures r == Err(NoAvailableSeats) <==>
      SelectedKey(d.local).Some? && GetOffer(d, SelectedKey(d.local).value).Some? &&
      Seats(d.offers[SelectedKey(d.local).value].entries) <= 0
    ensures r.Ok? ==> var key := SelectedKey(d.local).value; var p := d.offers[key].entries;
      && Seats(p) > 0
      && r.value.doc.offers == d.offers[key := VMap(p["num_vagas" := VInt(Seats(p) - 1)])]
      && r.value.doc.local == d.local["num_vagas" := VInt(Seats(p) - 1)]
      && r.value.doc.users == d.users && r.value.doc.offerCount == d.offerCount && r.value.doc.lastOfferDay == d.lastOfferDay
      && r.value.offer == OfferFromFirebase(key, p).(availableSeats := Seats(p) - 1)
      && GetOffer(r.value.doc, key) == Some(r.value.offer)
  {
    var sel := Get(d.local, "offer_key", VNone);
    if !Truthy(sel) then Err(NoOfferSelected)
    else
      var key := Str(sel);
      if key !in d.offers || !d.offers[key].VMap? then Err(OfferNotFound)
      else
        var payload := d.offers[key].entries;
        var offer := OfferFromFirebase(key, payload);
        if offer.availableSeats <= 0 then Err(NoAvailableSeats)
        else
          var left := offer.availableSeats - 1;
          var updated := payload["num_vagas" := VInt(left)];
          assert updated - KnownKeys == payload - KnownKeys;
          Ok(Outcome(
            d.(offers := d.offers[key := VMap(updated)], local := d.local["num_vagas" := VInt(left)]),
            OfferFromFirebase(key, updated)))
  }

  /** A confirmation keeps every stored seat count non-negative: it only
      decrements a count that is positive. */
  lemma ConfirmKeepsSeatsNonNegative(d: Document)
    requires SeatsNonNegative(d)
    requires Confirm(d).Ok?
    ensures SeatsNonNegative(Confirm(d).value.doc)
  {
    var e := Confirm(d).value.doc;
    var key := SelectedKey(d.local).value;
    forall k | k in e.offers && e.offers[k].VMap?
      ensures Seats(e.offers[k].entries) >= 0
    {
      if k != key {
        assert e.offers[k] == d.offers[k];
      }
    }
  }

  /** n confirmations in a row; the first failure stops the run. */
  function ConfirmTimes(d: Document, n: nat): Result<Document, ServiceError>
    decreases n
  {
    if n == 0 then Ok(d)
    else
      match Confirm(d)
      case Err(e) => Err(e)
      case Ok(o) => ConfirmTimes(o.doc, n - 1)
  }

  /** With an offer of n seats selected, n confirmations succeed and leave it
      with 0 seats, every other offer untouched and the selection in place;
      the next confirmation fails with NoAvailableSeats. */
  lemma {:induction false} ConfirmsExhaustSeats(d: Document, key: string, n: nat)
    requires SelectedKey(d.local) == Some(key)
    requires key in d.offers && d.offers[key].VMap? && Seats(d.offers[key].entries) == n
    ensures ConfirmTimes(d, n).Ok?
    ensures var e := ConfirmTimes(d, n).value;
      && SelectedKey(e.local) == Some(key)
      && key in e.offers && e.offers[key].VMap? && Seats(e.offers[key].entries) == 0
      && e.offers - {key} == d.offers - {key}
      && Confirm(e) == Err(NoAvailableSeats)
    decreases n
  {
    if n > 0 {
      var o := Confirm(d).value;
      assert SelectedKey(o.doc.local) == Some(key) by {
        assert Get(o.doc.local, "offer_key", VNone) == Get(d.local, "offer_key", VNone);
      }
      ConfirmsExhaustSeats(o.doc, key, n - 1);
      var e := ConfirmTimes(d, n).value;
      assert e == ConfirmTimes(o.doc, n - 1).value;
      assert e.offers - {key} == o.doc.offers - {key};
      assert o.doc.offers - {key} == d.offers - {key};
    }
  }

  /** create_offer, then select_offer on the new key, then as many
      confirmations as the offer has seats: all of them succeed and one more
      fails with NoAvailableSeats. */
  lemma CreateSelectConfirm(d: Document, input: OfferInput, today: int)
    ensures var c := Create(d, input, today);
      var s := Select(c.doc, c.offer.offerKey);
      && s.Ok?
      && ConfirmTimes(s.value.doc, c.offer.availableSeats).Ok?
      && Confirm(ConfirmTimes(s.value.doc, c.offer.availableSeats).value) == Err(NoAvailableSeats)
  {
    var c := Create(d, input, today);
    var key := c.offer.offerKey;
    var s := Select(c.doc, key).value;
    assert SelectedKey(s.doc.local) == Some(key);
    ConfirmsExhaustSeats(s.doc, key, c.offer.availableSeats);
  }

  // ---------------------------------------------------------------
  // WhatsApp message and list view
  // ---------------------------------------------------------------

  /** The detail lines of the selection snapshot, stripped, blanks dropped. */
  function DetailLines(raw: Value): (r: seq<string>)
    ensures forall i :: 0 <= i < |r| ==> r[i] != "" && Stripped(r[i])
  {
    if raw.VList? then Cleaned(raw.items) else NonBlank(Str(raw))
  }

  /** Every detail line is non-blank and already stripped, and a list of
      lines is cleaned element by element. */
  lemma DetailLinesClean(raw: Value)
    ensures forall i :: 0 <= i < |DetailLines(raw)| ==> DetailLines(raw)[i] != "" && Stripped(DetailLines(raw)[i])
    ensures raw.VList? ==> DetailLines(raw) == Cleaned(raw.items)
  {
  }

  /** Whether the message names the pickup point: non-blank and not the
      campus "unifal", ignoring case. */
  predicate ShowsPickup(pickupPoint: string)
    ensures Strip(pickupPoint) == "unifal" ==> !ShowsPickup(pickupPoint)
  {
    var pp := Strip(pickupPoint);
    LowerKeeps("unifal");
    pp != "" && Lower(pp) != "unifal"
  }

  function Bullets(details: seq<string>): (r: seq<string>)
    ensures |r| == |details|
  {
    seq(|details|, i requires 0 <= i < |details| => "- " + details[i])
  }

  /** One more detail adds one more bullet at the end. */
  lemma BulletsSnoc(details: seq<string>, i: nat)
    requires i < |details|
    ensures Bullets(details[..i + 1]) == Bullets(details[..i]) + ["- " + details[i]]
  {
  }

  /** The two greeting lines. */
  function Greeting(passengerName: string): seq<string>
  {
    ["Hello, this is " + passengerName + ".", "I would like to join the carpool."]
  }

  /** The pickup line, when the pickup point is shown. */
  function PickupLines(pickupPoint: string): seq<string>
  {
    if ShowsPickup(pickupPoint) then ["Pickup point: " + Strip(pickupPoint)] else []
  }

  /** A blank line, a heading and one bullet per detail; nothing without
      details. */
  function DetailBlock(details: seq<string>): seq<string>
  {
    if details == [] then [] else ["", "Offer details:"] + Bullets(details)
  }

  /** The lines of the WhatsApp message. */
  function MessageLines(passengerName: string, pickupPoint: string, details: seq<string>): (r: seq<string>)
    ensures |r| >= 2 && r[0] == "Hello, this is " + passengerName + "." && r[1] == "I would like to join the carpool."
  {
    Greeting(passengerName) + PickupLines(pickupPoint) + DetailBlock(details)
  }

  /** The message has the greeting first, then the pickup line exactly when
      it is shown, then, when there are details, a blank line, a heading and
      one bullet per detail in order. */
  lemma MessageShape(passengerName: string, pickupPoint: string, details: seq<string>)
    ensures var r := MessageLines(passengerName, pickupPoint, details);
      && |r| == 2 + (if ShowsPickup(pickupPoint) then 1 else 0) + (if details == [] then 0 else 2 + |details|)
      && r[0] == "Hello, this is " + passengerName + "." && r[1] == "I would like to join the carpool."
      && (ShowsPickup(pickupPoint) ==> r[2] == "Pickup point: " + Strip(pickupPoint))
      && (details != [] ==> r[|r| - |details| - 2] == "" && r[|r| - |details| - 1] == "Offer details:")
      && forall i :: 0 <= i < |details| ==> r[|r| - |details| + i] == "- " + details[i]
  {
    var head := Greeting(passengerName) + PickupLines(pickupPoint);
    var block := DetailBlock(details);
    assert |head| == 2 + (if ShowsPickup(pickupPoint) then 1 else 0);
    assert forall i :: 0 <= i < |block| ==> (head + block)[|head| + i] == block[i];
  }

  /** The greeting starts with "H" and ends with ".". */
  lemma GreetingEnds(passengerName: string)
    ensures var g := Greeting(passengerName);
      && |g[0]| >= 1 && g[0][0] == 'H'
      && |g[1]| >= 1 && g[1][|g[1]| - 1] == '.'
  {
    FirstOfAppend("Hello, this is " + passengerName, ".");
    FirstOfAppend("Hello, this is ", passengerName);
  }

  /** The message starts with the "H" of its greeting. */
  lemma MessageFirstChar(passengerName: string, pickupPoint: string, details: seq<string>)
    ensures var lines := MessageLines(passengerName, pickupPoint, details);
      |lines| >= 1 && |lines[0]| >= 1 && lines[0][0] == 'H'
  {
    var g := Greeting(passengerName);
    AppendAssoc(g, PickupLines(pickupPoint), DetailBlock(details));
    FirstOfAppend(g, PickupLines(pickupPoint) + DetailBlock(details));
    GreetingEnds(passengerName);
  }

  /** The last line of the message ends in a non-blank character: the last
      detail, the pickup point or the closing "." of the greeting. */
  lemma MessageLastChar(passengerName: string, pickupPoint: string, details: seq<string>)
    requires forall i :: 0 <= i < |details| ==> details[i] != "" && Stripped(details[i])
    ensures var lines := MessageLines(passengerName, pickupPoint, details);
      var last := lines[|lines| - 1];
      |lines| >= 1 && |last| >= 1 && !IsSpace(last[|last| - 1])
  {
    var g := Greeting(passengerName);
    var p := PickupLines(pickupPoint);
    var b := DetailBlock(details);
    if details != [] {
      var d := details[|details| - 1];
      assert Stripped(d) && d != "";
      LastOfAppend(g + p, b);
      LastOfAppend(["", "Offer details:"], Bullets(details));
      LastOfAppend("- ", d);
    } else if ShowsPickup(pickupPoint) {
      var pp := Strip(pickupPoint);
      LastOfAppend(g, p);
      LastOfAppend("Pickup point: ", pp);
    } else {
      GreetingEnds(passengerName);
    }
  }

  /** The trailing strip() of build_whatsapp_message removes nothing: the
      message starts with "Hello" and its last line ends in a non-blank
      character. */
  lemma MessageIsStripped(passengerName: string, pickupPoint: string, details: seq<string>)
    requires forall i :: 0 <= i < |details| ==> details[i] != "" && Stripped(details[i])
    ensures var m := Join("\n", MessageLines(passengerName, pickupPoint, details)); Strip(m) == m
  {
    var lines := MessageLines(passengerName, pickupPoint, details);
    MessageFirstChar(passengerName, pickupPoint, details);
    MessageLastChar(passengerName, pickupPoint, details);
    JoinStripped("\n", lines);
    StripKeeps(Join("\n", lines));
  }

  /** The title shown for an offer in the list view. */
  function Title(o: Offer): (r: string)
    ensures !Truthy(Get(o.payload, "title", VNone)) ==> r != ""
    ensures Truthy(Get(o.payload, "title", VNone)) ==> r == Str(o.payload["title"])
  {
    var title := Get(o.payload, "title", VNone);
    if Truthy(title) then Str(title)
    else if o.rideText != "" then o.rideText
    else "Offer " + o.offerKey
  }

  /** One line of the list view: "[<key>] <title> | Seats: <n>". */
  function ListLine(o: Offer): (r: string)
    ensures var p := "[" + o.offerKey + "] "; |r| > |p| && r[..|p|] == p
    ensures var s := " | Seats: " + IntToString(o.availableSeats); |r| > |s| && r[|r| - |s|..] == s
  {
    var p := "[" + o.offerKey + "] ";
    var s := " | Seats: " + IntToString(o.availableSeats);
    var r := "[" + o.offerKey + "] " + Title(o) + " | Seats: " + IntToString(o.availableSeats);
    AppendAssoc(p + Title(o), " | Seats: ", IntToString(o.availableSeats));
    assert r[..|p|] == p;
    assert r[|r| - |s|..] == s;
    r
  }

  /** A list-view line assembled from an offer's title is its ListLine. */
  lemma ListLineOf(o: Offer, text: string)
    requires text == Title(o)
    ensures "[" + o.offerKey + "] " + text + " | Seats: " + IntToString(o.availableSeats) == ListLine(o)
  {
  }

  // ---------------------------------------------------------------
  // The service object
  // ---------------------------------------------------------------

  class UniCarService {
    var users: map<string, Value>
    var offers: map<string, Value>
    var offerCount: Value
    var lastOfferDay: Value
    var local: map<string, Value>

    /** The document as the store holds it. */
    function Doc(): Document
      reads this
    {
      Document(users, offers, offerCount, lastOfferDay, local)
    }

    constructor (d: Document)
      ensures Doc() == d
    {
      users := d.users;
      offers := d.offers;
      offerCount := d.offerCount;
      lastOfferDay := d.lastOfferDay;
      local := d.local;
    }

    method UpsertUser(user: User) returns (r: User)
      modifies this
      ensures r == user
      ensures Doc() == Upsert(old(Doc()), user)
    {
      users := users[user.userId := VMap(UserToFirebase(user))];
      r := user;
    }

    /** `today` stands for date.today().day. */
    method CreateOffer(input: OfferInput, today: int) returns (r: Offer)
      modifies this
      ensures Outcome(Doc(), r) == Create(old(Doc()), input, today)
    {
      var currentN := IntOr(offerCount, 0);
      var newN := currentN + 1;
      offerCount := VInt(newN);
      lastOfferDay := VInt(today);
      var seats := ClampedSeats(input.seats);
      var details := OfferDetails(input);
      var key := IntToString(newN);
      var offer := Offer(key, input.driverId, input.driverId, seats, "", map[]);
      var payload := OfferToFirebase(offer);
      payload := payload["dados_oferta" := VList(details)];
      payload := payload["id_ofertador" := VStr(input.driverId)];
      offers := offers[key := VMap(payload)];
      r := OfferFromFirebase(key, payload);
    }

    /** list_available_offers: every dict offer with a positive seat count,
      each once, sorted by SortKey. */
    method ListAvailableOffers() returns (r: seq<Offer>)
      ensures forall i :: 0 <= i < |r| ==> r[i].availableSeats > 0
      ensures forall i :: 0 <= i < |r| ==> ListedOffer(offers, r[i])
      ensures forall k :: Listed(offers, k) ==> OfferFromFirebase(k, offers[k].entries) in r
      ensures DistinctKeys(r)
      ensures SortedByKey(r)
    {
      var collected: seq<Offer> := [];
      var remaining := offers.Keys;
      while remaining != {}
        invariant remaining <= offers.Keys
        invariant forall i :: 0 <= i < |collected| ==>
          collected[i].offerKey in offers.Keys - remaining && ListedOffer(offers, collected[i])
        invariant forall k :: k in offers.Keys - remaining && Listed(offers, k) ==>
          OfferFromFirebase(k, offers[k].entries) in collected
        invariant DistinctKeys(collected)
        decreases remaining
      {
        var key :| key in remaining;
        remaining := remaining - {key};
        var payload := offers[key];
        if payload.VMap? {
          var o := OfferFromFirebase(key, payload.entries);
          if o.availableSeats > 0 {
            collected := collected + [o];
          }
        }
      }
      r := SortBy(OfferSortKey, collected);
      SortedListing(offers, collected);
    }

    /** select_offer */
    method SelectOffer(offerKey: string) returns (r: Result<Offer, ServiceError>)
      modifies this
      ensures match Select(old(Doc()), offerKey)
        case Ok(o) => r == Ok(o.offer) && Doc() == o.doc
        case Err(e) => r == Err(e) && Doc() == old(Doc())
    {
      if offerKey !in offers || !offers[offerKey].VMap? {
        return Err(OfferNotFound);
      }
      var payload := offers[offerKey].entries;
      var offer := OfferFromFirebase(offerKey, payload);
      local := local["offer_key" := VStr(offer.offerKey)];
      local := local["id_ofertador" := Or(Or(Get(payload, "id_ofertador", VNone), VStr(offer.driverUserId)), VStr(offer.offerId))];
      local := local["dados_oferta" := Get(payload, "dados_oferta", VList([]))];
      local := local["num_vagas" := VInt(offer.availableSeats)];
      r := Ok(offer);
    }

    /** confirm_selected_offer */
    method ConfirmSelectedOffer() returns (r: Result<Offer, ServiceError>)
      modifies this
      ensures match Confirm(old(Doc()))
        case Ok(o) => r == Ok(o.offer) && Doc() == o.doc
        case Err(e) => r == Err(e) && Doc() == old(Doc())
    {
      ghost var d := Doc();
      var sel := Get(local, "offer_key", VNone);
      if !Truthy(sel) {
        assert Confirm(d) == Err(NoOfferSelected);
        return Err(NoOfferSelected);
      }
      var key := Str(sel);
      if key !in offers || !offers[key].VMap? {
        assert Confirm(d) == Err(OfferNotFound);
        return Err(OfferNotFound);
      }
      var payload := offers[key].entries;
      var offer := OfferFromFirebase(key, payload);
      if offer.availableSeats <= 0 {
        assert Confirm(d) == Err(NoAvailableSeats);
        return Err(NoAvailableSeats);
      }
      offer := offer.(availableSeats := offer.availableSeats - 1);
      var updated := payload["num_vagas" := VInt(offer.availableSeats)];
      offers := offers[key := VMap(updated)];
      local := local["num_vagas" := VInt(offer.availableSeats)];
      r := Ok(OfferFromFirebase(key, updated));
      assert Confirm(d) == Ok(Outcome(Doc(), OfferFromFirebase(key, updated)));
    }

    /** build_whatsapp_message: the greeting, the pickup line when shown, and
      one "- " line per non-blank detail of the selection snapshot; the final
      strip() removes nothing. */
    method BuildWhatsappMessage(passengerName: string, pickupPoint: string) returns (msg: string)
      ensures msg == Join("\n", MessageLines(passengerName, pickupPoint, DetailLines(Get(local, "dados_oferta", VList([])))))
    {
      var details := DetailLines(Get(local, "dados_oferta", VList([])));
      msg := ComposeMessage(passengerName, pickupPoint, details);
      DetailLinesClean(Get(local, "dados_oferta", VList([])));
      MessageIsStripped(passengerName, pickupPoint, details);
    }

    /** The text build_whatsapp_message assembles from the detail lines. */
    static method ComposeMessage(passengerName: string, pickupPoint: string, details: seq<string>) returns (msg: string)
      ensures msg == Strip(Join("\n", MessageLines(passengerName, pickupPoint, details)))
    {
      var lines := ["Hello, this is " + passengerName + ".", "I would like to join the carpool."];
      assert lines == Greeting(passengerName);
      var pp := Strip(pickupPoint);
      if pp != "" && Lower(pp) != "unifal" {
        lines := lines + ["Pickup point: " + pp];
        assert PickupLines(pickupPoint) == ["Pickup point: " + pp];
      } else {
        assert PickupLines(pickupPoint) == [];
      }
      ghost var head := lines;
      assert head == Greeting(passengerName) + PickupLines(pickupPoint);
      if details != [] {
        lines := lines + ["", "Offer details:"];
        ghost var prefix := lines;
        for i := 0 to |details|
          invariant lines == prefix + Bullets(details[..i])
        {
          BulletsSnoc(details, i);
          AppendAssoc(prefix, Bullets(details[..i]), ["- " + details[i]]);
          lines := lines + ["- " + details[i]];
        }
        assert details[..|details|] == details;
        AppendAssoc(head, ["", "Offer details:"], Bullets(details));
      }
      assert lines == head + DetailBlock(details);
      msg := Strip(Join("\n", lines));
    }

    /** offers_to_list_strings: one list-view line per offer, in order. */
    method OffersToListStrings(os: seq<Offer>) returns (r: seq<string>)
      ensures |r| == |os|
      ensures forall i :: 0 <= i < |os| ==> r[i] == ListLine(os[i])
    {
      r := [];
      for i := 0 to |os|
        invariant |r| == i
        invariant forall k {:trigger r[k]} :: 0 <= k < i ==> r[k] == ListLine(os[k])
      {
        var o := os[i];
        var title := Get(o.payload, "title", VNone);
        var text: string;
        if Truthy(title) {
          text := Str(title);
        } else if o.rideText != "" {
          text := o.rideText;
        } else {
          text := "Offer " + o.offerKey;
        }
        assert text == Title(o);
        var line := "[" + o.offerKey + "] " + text + " | Seats: " + IntToString(o.availableSeats);
        ListLineOf(o, text);
        r := r + [line];
      }
    }
  }
}
