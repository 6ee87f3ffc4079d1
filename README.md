# UniCar offer lifecycle in Dafny

This project models the core of UniCar, a carpool app for a university campus whose Python
back end copies the Firebase layout of an older App Inventor build. There is one JSON document.
Under `"firebase"` it holds:

- the users (`USUARIOS/<user_id>`);
- the offers (`OFERTAS/<offer_key>`);
- the offer counter `Nofertas`;
- the day of the month of the last offer, `dia_ultima_oferta`.

Under `"local"` it holds the passenger's snapshot of the selected offer.

The model covers three parts of the core:

- `UniCarService` (core_python/services.py). It patches the schema and loads the document. It
  writes users, and it creates, lists, selects and confirms offers. It also builds the WhatsApp
  message and the list-view strings.
- The record codecs of core_python/models.py. These are `parse_stops` / `serialize_stops` and
  `User` / `Offer` to and from their Firebase payloads.
- The codec variant in core_python/core_python/models.py. In this variant every read field is
  cleaned, and an offer keeps `dados_oferta` as an ordered list of lines.

Files:

- `values.dfy` (module `Values`) holds the dynamically typed JSON value and the Python built-ins
  the code relies on: `str()`, `int()`, truthiness, `strip()`, `split("|")`, `join` and `lower()`.
- `models.dfy` (module `Models`) and `models_variant.dfy` (module `ModelsVariant`) hold the two
  codec files.
- `services.dfy` (module `Services`) holds the service.

The service is a class, `Services.UniCarService`. Its fields are the five slots of the document.
The four state-changing Python methods (`upsert_user`, `create_offer`, `select_offer` and
`confirm_selected_offer`) load the whole document, change part of it and save it back; here each
of them changes the fields instead. The read-only methods load without saving and here read the
fields, and `offers_to_list_strings` works on its argument alone. Each state-changing method is proved equal to a pure
transition function on `Document` values: `Upsert`, `Create`, `Select` or `Confirm`. The
lifecycle properties are lemmas about those functions. Three examples:

- an offer created with n seats can be confirmed exactly n times;
- saving then loading gives the document back;
- every codec round-trips.

`_parse_int`'s `try int(x) except` is modelled by `Values.IntOr`. `date.today().day` is the
parameter `today`.

## Model

| member | source | states |
|---|---|---|
| Values.IntOr | core_python/services.py:68-72 | `int(v)` when it succeeds, otherwise the default |
| Values.ParseIntToString | core_python/services.py:99-117 | `int(str(n)) == n` for every integer, so an offer key made by `str(new_n)` sorts as `new_n` |
| Values.SplitJoin | core_python/models.py:21-34 | splitting a join on its one-character separator gives the pieces back when no piece holds the separator |
| Values.StripIdempotent | core_python/models.py:20-23 | stripping twice is stripping once |
| Models.Cleaned | core_python/models.py:20 | every element of `[x.strip() for x in xs if x.strip()]` is non-empty and has no surrounding whitespace; the list is no longer than its input |
| Models.CleanedKeeps | core_python/models.py:33 | cleaning a list that is already clean changes nothing |
| Models.CleanedFree | core_python/models.py:33 | cleaning never introduces a character, in particular no bar separator |
| Models.ParseStops | core_python/models.py:11-25 | None gives `[]`; a string is split on the bar separator and cleaned; every result element is non-blank and stripped |
| Models.StopsRoundTrip | core_python/models.py:11-34 | `parse_stops(serialize_stops(xs))` is the cleaned `xs` when no stop holds the bar separator |
| Models.SerializeStops | core_python/models.py:28-34 | no stops give `""` and a single stop gives itself stripped; the round trip through `parse_stops` is Models.StopsRoundTrip |
| Models.UserFromFirebase | core_python/models.py:57-68 | keeps the user id; each of the six text fields reads `""` and the stops `[]` when absent; the stops are clean |
| Models.UserToFirebase | core_python/models.py:70-79 | exactly the seven keys `nome`…`paradas`, each holding the matching field, with the stops serialised |
| Models.UserRoundTrip | core_python/models.py:57-79 | reading back a stored user gives the same user with cleaned stops |
| Models.Seats | core_python/models.py:114-118 | `num_vagas` read with `int()`; 0 when missing or when `int()` raises |
| Models.OfferFromFirebase | core_python/models.py:108-127 | the payload is exactly the entries outside the four known keys, with their values |
| Models.OfferToFirebase | core_python/models.py:129-149 | holds `id`, `num_vagas` and `dados_oferta`, plus `id_ofertador` exactly when the driver is set or the payload has it, holding the driver, or else the payload's value; payload entries never override a base key |
| Models.OfferRoundTrip | core_python/models.py:108-149 | reading back a stored offer gives the same offer when its payload avoids the known keys |
| ModelsVariant.CleanStr | core_python/core_python/models.py:11-12 | None gives `""`, a string is stripped, and the result is always stripped |
| ModelsVariant.CleanAllIsCleaned | core_python/core_python/models.py:19 | the variant's list comprehension equals the plain one |
| ModelsVariant.ParseStops | core_python/core_python/models.py:15-23 | None gives `[]`; every element is non-blank and stripped; ModelsVariant.ParseStopsAgree and ModelsVariant.StopsRoundTrip carry the rest |
| ModelsVariant.ParseStopsAgree | core_python/core_python/models.py:15-23 | the variant's `parse_stops` agrees with the other file's on every value the model represents (lists hold only strings) |
| ModelsVariant.StopsRoundTrip | core_python/core_python/models.py:15-28 | `parse_stops(serialize_stops(xs))` is the cleaned `xs` when no stop holds the bar separator |
| ModelsVariant.ParseOfferData | core_python/core_python/models.py:31-43 | a list keeps its length and order with each line stripped and blanks kept; a string gives `[]` or `[stripped]`; None gives `[]` |
| ModelsVariant.ParseOfferDataKeeps | core_python/core_python/models.py:38-39 | stripped detail lines read back unchanged |
| ModelsVariant.UserFromFirebase | core_python/core_python/models.py:60-71 | the user id is stripped; each of the six text fields reads `""` and the stops `[]` when absent |
| ModelsVariant.UserRoundTrip | core_python/core_python/models.py:60-82 | reading back a stored user gives every field stripped and the stops cleaned |
| ModelsVariant.OfferFromFirebase | core_python/core_python/models.py:97-115 | key stripped; payload is exactly the unknown entries; seats as `int()` or 0; a list of details keeps its length |
| ModelsVariant.OfferToFirebase | core_python/core_python/models.py:117-131 | `dados_oferta` is stored as the list; `id_ofertador` exactly when the driver is set or the payload has it, holding the driver, or else the payload's value; payload entries never override a base key |
| ModelsVariant.OfferRoundTrip | core_python/core_python/models.py:97-131 | a stored offer with stripped fields and a disjoint payload reads back as itself |
| Services.PatchFirebase | core_python/services.py:47-51 | the four firebase keys gain their defaults when missing; every present entry is kept |
| Services.EnsureSchema | core_python/services.py:45-54 | fails exactly when `"firebase"` is not a dict; otherwise adds `firebase` and `local` and keeps every other entry |
| Services.EnsureSchemaIdempotent | core_python/services.py:45-54 | patching twice is patching once |
| Services.Load | core_python/services.py:56-60 | a stored value that is not a dict loads as the empty document |
| Services.SaveThenLoad | core_python/services.py:56-63 | loading what `_save` wrote gives the same document, and the schema patch leaves it alone |
| Services.GetUser | core_python/services.py:84-90 | None exactly when the entry is missing or not a dict, otherwise the decoded user |
| Services.GetOffer | core_python/services.py:154-160 | None exactly when the entry is missing or not a dict, otherwise the decoded offer under that key |
| Services.Upsert | core_python/services.py:77-82 | adds or overwrites only that user; the other users and the rest of the document are unchanged |
| Services.UpsertThenGetUser | core_python/services.py:77-90 | after an upsert, `get_user` returns the user with cleaned stops, and every other user reads as before |
| Services.OfferDetails | core_python/services.py:107-114 | six detail lines in their fixed order, each with its label |
| Services.ClampedSeats | core_python/services.py:105 | `max(_parse_int(seats, 0), 0)`: never negative, and the parsed value whenever that is non-negative |
| Services.NewPayload | core_python/services.py:125-128 | the stored payload holds exactly the four known keys: the driver id twice, the clamped seats and the six lines |
| Services.NewPayloadReadsBack | core_python/services.py:125-133 | the offer returned is the stored payload read back, with an empty extra payload |
| Services.Create | core_python/services.py:95-133 | counter + 1; the key is its numeral; the day is recorded; only that offer is written; `get_offer` returns the new offer |
| Services.CreatedKeyIsCount | core_python/services.py:99-151 | the new key's sort key is the new counter value |
| Services.SortKey | core_python/services.py:151 | `int(key)` where the key is a decimal numeral, `10**9` otherwise; Services.CreatedKeyIsCount ties it to the counter |
| Services.CreateKeepsSeatsNonNegative | core_python/services.py:105-128 | creating an offer keeps every stored seat count non-negative |
| Services.InsertBy | core_python/services.py:151 | one element longer, with the same elements plus the inserted one |
| Services.SortBy | core_python/services.py:151 | the sort is a permutation of its input |
| Services.InsertSorted | core_python/services.py:151 | inserting into a sorted list keeps it sorted |
| Services.SortSorted | core_python/services.py:151 | the sort's result is sorted by the key |
| Services.InsertDistinct | core_python/services.py:144-151 | inserting an element with a new id keeps the ids distinct |
| Services.SortDistinct | core_python/services.py:144-151 | sorting keeps the ids distinct |
| Services.SortedListing | core_python/services.py:143-152 | the sorted list holds exactly the listed offers, each once, in key order |
| Services.Select | core_python/services.py:165-182 | fails with "offer not found" exactly when the payload is missing or not a dict; otherwise writes key, seats, details and `payload.get("id_ofertador") or driver or offer id` into `local`, keeps every other `local` entry and every other slot |
| Services.Confirm | core_python/services.py:184-210 | each error exactly when its condition holds; otherwise exactly that offer's seats and the snapshot's seats drop by one, and `get_offer` returns the result |
| Services.SelectedKey | core_python/services.py:189-191 | no selection without an `offer_key` entry; a selection comes from a truthy entry; Services.ConfirmsExhaustSeats uses it |
| Services.ConfirmKeepsSeatsNonNegative | core_python/services.py:199-207 | a successful confirmation keeps every stored seat count non-negative |
| Services.ConfirmsExhaustSeats | core_python/services.py:184-210 | with an offer of n seats selected, n confirmations succeed, leave 0 seats and touch no other offer, and the next one fails with "no available seats" |
| Services.CreateSelectConfirm | core_python/services.py:95-210 | create, then select, then as many confirmations as seats all succeed, and one more fails |
| Services.DetailLinesClean | core_python/services.py:219-223 | every detail line of the message is non-blank and stripped |
| Services.DetailLines | core_python/services.py:219-223 | every detail line is non-blank and stripped; Services.DetailLinesClean adds the list case |
| Services.MessageShape | core_python/services.py:225-237 | greeting first, the pickup line exactly when shown, then blank line, heading and one bullet per detail in order |
| Services.ShowsPickup | core_python/services.py:228-230 | the pickup point `unifal` is never shown; Services.MessageShape places the line and shows it exactly when this holds |
| Services.MessageLines | core_python/services.py:225-237 | the two greeting lines come first; Services.MessageShape gives the whole layout |
| Services.MessageFirstChar | core_python/services.py:226 | the message starts with the `H` of its greeting |
| Services.MessageLastChar | core_python/services.py:227-237 | the last line ends in a non-blank character |
| Services.MessageIsStripped | core_python/services.py:239 | the final `strip()` removes nothing |
| Services.Title | core_python/services.py:246-250 | a truthy `title` is used as is; otherwise the title is never empty |
| Services.ListLine | core_python/services.py:252 | starts with the bracketed key and ends with the seat count suffix |
| Services.UniCarService.UpsertUser | core_python/services.py:77-82 | new state is `Upsert` of the old; returns the user |
| Services.UniCarService.CreateOffer | core_python/services.py:95-133 | new state and result are `Create` of the old state |
| Services.UniCarService.ListAvailableOffers | core_python/services.py:135-152 | every dict offer with positive seats, read from its payload, each once, sorted by key |
| Services.UniCarService.SelectOffer | core_python/services.py:165-182 | on success the state and result are `Select`'s; on error the state is unchanged |
| Services.UniCarService.ConfirmSelectedOffer | core_python/services.py:184-210 | on success the state and result are `Confirm`'s; on error the state is unchanged |
| Services.UniCarService.BuildWhatsappMessage | core_python/services.py:215-239 | the message is the `"\n"`-join of the message lines built from the snapshot's details |
| Services.UniCarService.ComposeMessage | core_python/services.py:225-239 | the loop builds exactly the message lines; the result is their stripped join |
| Services.UniCarService.OffersToListStrings | core_python/services.py:244-253 | one list-view line per offer, in order |

## Left out

- The JSON file repository (`repository.py`) is not part of this model: loading is reading the object's fields, saving is assigning them, and `Load` / `ToRaw` model the conversions at that boundary.
- `date.today().day` becomes the parameter `today`, since clocks are outside the model.
- The document slots are typed maps, so a non-dict `USUARIOS`, `OFERTAS` or `"local"` (where most operations raise and `list_available_offers` returns `[]`) is not modelled; `Load` gives None for such a document.
- Top-level and `"firebase"` keys other than the five slots are not kept by `Document`, because no operation reads them.
- Services.UniCarService.ListAvailableOffers: does not state that offers with equal sort keys keep dict insertion order, because maps here have no order; it visits the keys in an arbitrary order.
- `str()` of a non-empty dict is the placeholder `"{...}"` and `str()` of a list of strings ignores Python's quote escaping, because neither text is ever parsed back; floats and lists of non-strings are the opaque `VOther`.
- Values.ToInt: `int()` of a float (truncation), numerals with underscores and non-ASCII digits are not modelled, and such values give None.
- Values.Lower: lower-cases ASCII letters only, since Unicode case tables are out of scope.
- ModelsVariant.ParseStopsAgree: holds because lists hold only strings; in Python the two `parse_stops` differ on a list holding `None`, which core_python/models.py keeps as `"None"` and the variant drops.
- A list holding anything but strings is the opaque `VOther`, so Models.ParseStops, ModelsVariant.ParseStops, ModelsVariant.ParseOfferData and Services.DetailLines treat it as one scalar (its whole `str()` text) where Python cleans it element by element.
- `OfferInput` fields are strings, so `str()` of a non-string driver id and a `None` pickup point are not modelled.
- The roster-ride variant of the service (create, join, leave and cancel ride) is not part of this model.
- Concurrent service instances sharing one file are not modelled.
