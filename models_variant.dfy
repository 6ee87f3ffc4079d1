/** The record codecs of core_python/core_python/models.py, the variant in
    which every field read is cleaned (None becomes "", text is stripped) and
    an offer keeps its detail lines "dados_oferta" as an ordered list.
    Its User record and its serialize_stops and User.to_firebase are the same
    as in core_python/models.py and are taken from module Models. */
module ModelsVariant {
  import opened Values
  import Models

  /** _clean_str: None becomes "", anything else its stripped str(). */
  function CleanStr(x: Value): (r: string)
    ensures x.VNone? ==> r == ""
    ensures x.VStr? ==> r == Strip(x.s)
    ensures Stripped(r)
  {
    if x.VNone? then "" else Strip(Str(x))
  }

  /** `[_clean_str(x) for x in xs if _clean_str(x)]` */
  function CleanAll(xs: seq<string>): seq<string>
  {
    if xs == [] then []
    else
      var t := CleanStr(VStr(xs[0]));
      (if t != "" then [t] else []) + CleanAll(xs[1..])
  }

  lemma {:induction false} CleanAllIsCleaned(xs: seq<string>)
    ensures CleanAll(xs) == Models.Cleaned(xs)
  {
    if xs != [] {
      CleanAllIsCleaned(xs[1..]);
    }
  }

  /** parse_stops of this variant. */
  function ParseStops(raw: Value): (r: seq<string>)
    ensures raw.VNone? ==> r == []
    ensures forall i :: 0 <= i < |r| ==> r[i] != "" && Stripped(r[i])
  {
    match raw
    case VNone => []
    case VList(xs) => CleanAllIsCleaned(xs); CleanAll(xs)
    case VStr(s) => Models.Cleaned(Split(s, '|'))
    case _ =>
      var s := CleanStr(raw);
      if s != "" then [s] else []
  }

  /** The two parse_stops agree on every value the model represents (its
      lists hold only strings, where _clean_str(x) is x.strip()). */
  lemma ParseStopsAgree(raw: Value)
    ensures ParseStops(raw) == Models.ParseStops(raw)
  {
    if raw.VList? {
      CleanAllIsCleaned(raw.items);
    }
  }

  /** Round trip of stops through this variant's parse_stops. */
  lemma StopsRoundTrip(xs: seq<string>)
    requires forall i :: 0 <= i < |xs| ==> '|' !in xs[i]
    ensures ParseStops(VStr(Models.SerializeStops(xs))) == Models.Cleaned(xs)
  {
    ParseStopsAgree(VStr(Models.SerializeStops(xs)));
    Models.StopsRoundTrip(xs);
  }

  /** parse_offer_data: a list keeps its length and order, each element
      stripped and blanks kept; a string gives [] or [stripped]. */
  function ParseOfferData(raw: Value): (r: seq<string>)
    ensures raw.VNone? ==> r == []
    ensures raw.VList? ==> |r| == |raw.items| && forall i :: 0 <= i < |r| ==> r[i] == Strip(raw.items[i])
    ensures raw.VStr? ==> r == (if Strip(raw.s) == "" then [] else [Strip(raw.s)])
  {
    match raw
    case VNone => []
    case VList(xs) => seq(|xs|, i requires 0 <= i < |xs| => CleanStr(VStr(xs[i])))
    case VStr(s) =>
      var t := Strip(s);
      if t != "" then [t] else []
    case _ =>
      if CleanStr(raw) != "" then [CleanStr(raw)] else []
  }

  // ---------------------------------------------------------------
  // User
  // ---------------------------------------------------------------

  /** User.from_firebase of this variant: every field cleaned. */
  function UserFromFirebase(userId: string, data: map<string, Value>): (u: Models.User)
    ensures u.userId == Strip(userId)
    ensures "nome" !in data ==> u.name == ""
    ensures "email" !in data ==> u.email == ""
    ensures "telefone" !in data ==> u.phone == ""
    ensures "carro" !in data ==> u.carModel == ""
    ensures "cor" !in data ==> u.carColor == ""
    ensures "placa" !in data ==> u.plate == ""
    ensures "paradas" !in data ==> u.stops == []
  {
    Models.User(
      CleanStr(VStr(userId)),
      CleanStr(Get(data, "nome", VNone)),
      CleanStr(Get(data, "email", VNone)),
      CleanStr(Get(data, "telefone", VNone)),
      CleanStr(Get(data, "carro", VNone)),
      CleanStr(Get(data, "cor", VNone)),
      CleanStr(Get(data, "placa", VNone)),
      ParseStops(Get(data, "paradas", VNone)))
  }

  /** Reading back a stored user gives its stripped fields and its
      normalised stops. */
  lemma UserRoundTrip(userId: string, u: Models.User)
    requires forall i :: 0 <= i < |u.stops| ==> '|' !in u.stops[i]
    ensures UserFromFirebase(userId, Models.UserToFirebase(u)) ==
      Models.User(Strip(userId), Strip(u.name), Strip(u.email), Strip(u.phone),
                  Strip(u.carModel), Strip(u.carColor), Strip(u.plate), Models.Cleaned(u.stops))
  {
    StopsRoundTrip(u.stops);
  }

  // ---------------------------------------------------------------
  // Offer
  // ---------------------------------------------------------------

  datatype Offer = Offer(
    offerKey: string,
    offerId: string,
    availableSeats: int,
    dadosOferta: seq<string>,
    driverUserId: string,
    payload: map<string, Value>)

  /** Offer.from_firebase of this variant. */
  function OfferFromFirebase(offerKey: string, data: map<string, Value>): (o: Offer)
    ensures o.offerKey == Strip(offerKey)
    ensures o.payload.Keys == data.Keys - Models.KnownKeys
    ensures forall k :: k in o.payload ==> o.payload[k] == data[k]
    ensures o.availableSeats == Models.Seats(data)
    ensures "dados_oferta" in data && data["dados_oferta"].VList? ==> |o.dadosOferta| == |data["dados_oferta"].items|
  {
    Offer(
      CleanStr(VStr(offerKey)),
      CleanStr(Get(data, "id", VNone)),
      Models.Seats(data),
      ParseOfferData(Get(data, "dados_oferta", VNone)),
      CleanStr(Get(data, "id_ofertador", VNone)),
      data - Models.KnownKeys)
  }

  /** Offer.to_firebase of this variant: "dados_oferta" is stored as a list;
      payload entries never override a base key. */
  function OfferToFirebase(o: Offer): (r: map<string, Value>)
    ensures "id" in r && r["id"] == VStr(o.offerId)
    ensures "num_vagas" in r && r["num_vagas"] == VInt(o.availableSeats)
    ensures "dados_oferta" in r && r["dados_oferta"] == VList(o.dadosOferta)
    ensures "id_ofertador" in r <==> o.driverUserId != "" || "id_ofertador" in o.payload
    ensures o.driverUserId != "" ==> r["id_ofertador"] == VStr(o.driverUserId)
    ensures r.Keys == {"id", "num_vagas", "dados_oferta"} + o.payload.Keys + (if o.driverUserId != "" then {"id_ofertador"} else {})
    ensures forall k :: k in o.payload && k !in Models.KnownKeys ==> r[k] == o.payload[k]
    ensures o.driverUserId == "" && "id_ofertador" in o.payload ==> r["id_ofertador"] == o.payload["id_ofertador"]
  {
    var base := map["id" := VStr(o.offerId), "num_vagas" := VInt(o.availableSeats), "dados_oferta" := VList(o.dadosOferta)];
    var base := if o.driverUserId != "" then base["id_ofertador" := VStr(o.driverUserId)] else base;
    base + (o.payload - base.Keys)
  }

  /** Cleaning a string without surrounding whitespace changes nothing. */
  lemma CleanStrKeeps(s: string)
    requires Stripped(s)
    ensures CleanStr(VStr(s)) == s
  {
    StripKeeps(s);
  }

  /** Detail lines that are already stripped read back unchanged. */
  lemma ParseOfferDataKeeps(xs: seq<string>)
    requires forall i :: 0 <= i < |xs| ==> Stripped(xs[i])
    ensures ParseOfferData(VList(xs)) == xs
  {
    var r := ParseOfferData(VList(xs));
    forall i | 0 <= i < |xs|
      ensures r[i] == xs[i]
    {
      StripKeeps(xs[i]);
    }
  }

  /** A stored offer reads back as itself (under the stripped key), provided
      its id, driver id and detail lines are already stripped and its payload
      holds none of the four known keys. */
  lemma OfferRoundTrip(offerKey: string, o: Offer)
    requires o.payload.Keys !! Models.KnownKeys
    requires Stripped(o.offerId) && Stripped(o.driverUserId)
    requires forall i :: 0 <= i < |o.dadosOferta| ==> Stripped(o.dadosOferta[i])
    ensures OfferFromFirebase(offerKey, OfferToFirebase(o)) == o.(offerKey := Strip(offerKey))
  {
    var d := OfferToFirebase(o);
    assert d - Models.KnownKeys == o.payload;
    ParseOfferDataKeeps(o.dadosOferta);
    CleanStrKeeps(o.offerId);
    CleanStrKeeps(o.driverUserId);
    assert CleanStr(Get(d, "id_ofertador", VNone)) == o.driverUserId;
  }
}
