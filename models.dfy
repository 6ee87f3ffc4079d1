/** The record codecs of core_python/models.py: habitual stops as a
    "|"-separated string, and User and Offer records to and from the flat
    payload map stored under USUARIOS/<id> and OFERTAS/<key>. */
module Models {
  import opened Values

  // ---------------------------------------------------------------
  // Habitual stops
  // ---------------------------------------------------------------

  /** `[x.strip() for x in xs if x.strip()]`: the stripped, non-blank
      elements, in their original order. */
  function Cleaned(xs: seq<string>): (r: seq<string>)
    ensures |r| <= |xs|
    ensures forall i :: 0 <= i < |r| ==> r[i] != "" && Stripped(r[i])
  {
    if xs == [] then []
    else
      var t := Strip(xs[0]);
      if t != "" then [t] + Cleaned(xs[1..]) else Cleaned(xs[1..])
  }

  /** Stripping never introduces a character, so no cleaned element holds one
      that no input element held. */
  lemma {:induction false} CleanedFree(xs: seq<string>, c: char)
    requires forall i :: 0 <= i < |xs| ==> c !in xs[i]
    ensures forall i :: 0 <= i < |Cleaned(xs)| ==> c !in Cleaned(xs)[i]
  {
    if xs != [] {
      StripChars(xs[0]);
      CleanedFree(xs[1..], c);
    }
  }

  /** Cleaning elements that are already stripped and non-blank changes nothing. */
  lemma {:induction false} CleanedKeeps(xs: seq<string>)
    requires forall i :: 0 <= i < |xs| ==> xs[i] != "" && Stripped(xs[i])
    ensures Cleaned(xs) == xs
  {
    if xs != [] {
      StripKeeps(xs[0]);
      CleanedKeeps(xs[1..]);
      assert [xs[0]] + xs[1..] == xs;
    }
  }

  /** parse_stops: a list is cleaned, a string is split on "|" and cleaned,
      None gives [], any other value gives its stripped str() if non-blank. */
  function ParseStops(raw: Value): (r: seq<string>)
    ensures forall i :: 0 <= i < |r| ==> r[i] != "" && Stripped(r[i])
    ensures raw.VNone? ==> r == []
    ensures raw.VStr? ==> r == Cleaned(Split(raw.s, '|'))
  {
    match raw
    case VNone => []
    case VList(xs) => Cleaned(xs)
    case VStr(s) => Cleaned(Split(s, '|'))
    case _ => NonBlank(Str(raw))
  }

  /** `[s.strip()] if s.strip() else []` */
  function NonBlank(s: string): (r: seq<string>)
    ensures |r| <= 1
    ensures forall i :: 0 <= i < |r| ==> r[i] != "" && Stripped(r[i])
  {
    var t := Strip(s);
    if t != "" then [t] else []
  }

  /** serialize_stops: the "|"-join of the stripped, non-blank stops. */
  function SerializeStops(stops: seq<string>): (r: string)
    ensures stops == [] ==> r == ""
    ensures |stops| == 1 ==> r == Strip(stops[0])
  {
    Join("|", Cleaned(stops))
  }

  /** Parsing a serialised list of stops gives back its stripped, non-blank
      elements, provided no stop holds "|". */
  lemma StopsRoundTrip(xs: seq<string>)
    requires forall i :: 0 <= i < |xs| ==> '|' !in xs[i]
    ensures ParseStops(VStr(SerializeStops(xs))) == Cleaned(xs)
  {
    var c := Cleaned(xs);
    CleanedFree(xs, '|');
    if c == [] {
      assert SerializeStops(xs) == "";
      assert Split("", '|') == [""];
      StripKeeps("");
      assert Cleaned([""]) == [];
    } else {
      SplitJoin(c, '|');
      CleanedKeeps(c);
    }
  }

  // ---------------------------------------------------------------
  // User (USUARIOS/<user_id>)
  // ---------------------------------------------------------------

  datatype User = User(
    userId: string,
    name: string,
    email: string,
    phone: string,
    carModel: string,
    carColor: string,
    plate: string,
    stops: seq<string>)

  /** User.from_firebase: each field is str() of its entry ("" when absent);
      the stops are parsed. */
  function UserFromFirebase(userId: string, data: map<string, Value>): (u: User)
    ensures u.userId == userId
    ensures forall i :: 0 <= i < |u.stops| ==> u.stops[i] != "" && Stripped(u.stops[i])
    ensures "nome" !in data ==> u.name == ""
    ensures "email" !in data ==> u.email == ""
    ensures "telefone" !in data ==> u.phone == ""
    ensures "carro" !in data ==> u.carModel == ""
    ensures "cor" !in data ==> u.carColor == ""
    ensures "placa" !in data ==> u.plate == ""
    ensures "paradas" !in data ==> u.stops == []
  {
    User(
      userId,
      Str(Get(data, "nome", VStr(""))),
      Str(Get(data, "email", VStr(""))),
      Str(Get(data, "telefone", VStr(""))),
      Str(Get(data, "carro", VStr(""))),
      Str(Get(data, "cor", VStr(""))),
      Str(Get(data, "placa", VStr(""))),
      ParseStops(Get(data, "paradas", VNone)))
  }

  const UserKeys: set<string> := {"nome", "email", "telefone", "carro", "cor", "placa", "paradas"}

  /** User.to_firebase: exactly the seven Portuguese field names, every one a
      string, the stops serialised. */
  function UserToFirebase(u: User): (r: map<string, Value>)
    ensures r.Keys == UserKeys
    ensures forall k :: k in r ==> r[k].VStr?
    ensures r["nome"] == VStr(u.name) && r["email"] == VStr(u.email) && r["telefone"] == VStr(u.phone)
    ensures r["carro"] == VStr(u.carModel) && r["cor"] == VStr(u.carColor) && r["placa"] == VStr(u.plate)
    ensures r["paradas"] == VStr(SerializeStops(u.stops))
  {
    var r := map[
      "nome" := VStr(u.name),
      "email" := VStr(u.email),
      "telefone" := VStr(u.phone),
      "carro" := VStr(u.carModel),
      "cor" := VStr(u.carColor),
      "placa" := VStr(u.plate),
      "paradas" := VStr(SerializeStops(u.stops))];
    assert r.Keys == UserKeys;
    r
  }

  /** Reading back a stored user gives its fields and its normalised stops. */
  lemma UserRoundTrip(userId: string, u: User)
    requires forall i :: 0 <= i < |u.stops| ==> '|' !in u.stops[i]
    ensures UserFromFirebase(userId, UserToFirebase(u)) == u.(userId := userId, stops := Cleaned(u.stops))
  {
    var d := UserToFirebase(u);
    StopsRoundTrip(u.stops);
  }

  // ---------------------------------------------------------------
  // Offer (OFERTAS/<offer_key>)
  // ---------------------------------------------------------------

  datatype Offer = Offer(
    offerKey: string,
    driverUserId: string,
    offerId: string,
    availableSeats: int,
    rideText: string,
    payload: map<string, Value>)

  /** The four keys the Offer record reads into fields of its own. */
  const KnownKeys: set<string> := {"id_ofertador", "id", "num_vagas", "dados_oferta"}

  /** `int(data.get("num_vagas", 0))`, 0 where that raises. */
  function Seats(data: map<string, Value>): (n: int)
    ensures "num_vagas" !in data ==> n == 0
    ensures "num_vagas" in data && ToInt(data["num_vagas"]).None? ==> n == 0
    ensures "num_vagas" in data && ToInt(data["num_vagas"]).Some? ==> n == ToInt(data["num_vagas"]).value
  {
    IntOr(Get(data, "num_vagas", VInt(0)), 0)
  }

  /** Offer.from_firebase */
  function OfferFromFirebase(offerKey: string, data: map<string, Value>): (o: Offer)
    ensures o.offerKey == offerKey
    ensures o.payload.Keys == data.Keys - KnownKeys
    ensures forall k :: k in o.payload ==> o.payload[k] == data[k]
    ensures o.availableSeats == Seats(data)
    ensures "id_ofertador" !in data ==> o.driverUserId == ""
  {
    Offer(
      offerKey,
      Str(Get(data, "id_ofertador", VStr(""))),
      Str(Get(data, "id", VStr(""))),
      Seats(data),
      Str(Get(data, "dados_oferta", VStr(""))),
      data - KnownKeys)
  }

  /** Offer.to_firebase: the base keys first, then the payload entries whose
      keys the base does not already hold. */
  function OfferToFirebase(o: Offer): (r: map<string, Value>)
    ensures "id" in r && r["id"] == VStr(o.offerId)
    ensures "num_vagas" in r && r["num_vagas"] == VInt(o.availableSeats)
    ensures "dados_oferta" in r && r["dados_oferta"] == VStr(o.rideText)
    ensures "id_ofertador" in r <==> o.driverUserId != "" || "id_ofertador" in o.payload
    ensures o.driverUserId != "" ==> r["id_ofertador"] == VStr(o.driverUserId)
    ensures r.Keys == {"id", "num_vagas", "dados_oferta"} + o.payload.Keys + (if o.driverUserId != "" then {"id_ofertador"} else {})
    ensures forall k :: k in o.payload && k !in KnownKeys ==> r[k] == o.payload[k]
    ensures o.driverUserId == "" && "id_ofertador" in o.payload ==> r["id_ofertador"] == o.payload["id_ofertador"]
  {
    var base := map["id" := VStr(o.offerId), "num_vagas" := VInt(o.availableSeats), "dados_oferta" := VStr(o.rideText)];
    var base := if o.driverUserId != "" then base["id_ofertador" := VStr(o.driverUserId)] else base;
    base + (o.payload - base.Keys)
  }

  /** An offer without extra payload entries is stored as its base keys alone. */
  lemma BareOfferToFirebase(o: Offer)
    requires o.payload == map[]
    ensures var b := map["id" := VStr(o.offerId), "num_vagas" := VInt(o.availableSeats), "dados_oferta" := VStr(o.rideText)];
      OfferToFirebase(o) == if o.driverUserId != "" then b["id_ofertador" := VStr(o.driverUserId)] else b
  {
  }

  /** Reading back a stored offer gives the same record under the key it is
      read from, provided its payload holds none of the four known keys. */
  lemma OfferRoundTrip(offerKey: string, o: Offer)
    requires o.payload.Keys !! KnownKeys
    ensures OfferFromFirebase(offerKey, OfferToFirebase(o)) == o.(offerKey := offerKey)
  {
    var d := OfferToFirebase(o);
    assert d - KnownKeys == o.payload;
  }
}
