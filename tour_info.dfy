/** scraper/tour_info.py: one JSON record per tour URL, filled field by field from what the
    browser finds on the tour page and, when the page links to one, on its booking page. The
    browser is a parameter: a `TourPage` says what each Playwright step returned or whether it
    raised. */
module TourInfo {
  import opened Wrappers
  import opened PyStr
  import opened Json

  /** What one guarded Playwright step gave: an exception, or a value. */
  datatype Probe<+T> = Raised | Returned(value: T)

  /** The first `.chakra-card__body` of the booking page: its date texts, the price paragraph's
      text (`None` when it has none) and how many "Limited availability" texts the page holds. */
  datatype BookingCard = BookingCard(dates: seq<string>, price: Option<string>, limitedCount: nat)

  /** The steps of `extract_tour_info` on one tour page: whether navigating there (the `goto`,
      waits and scroll) succeeded, then the `h1` text, the "Trip code" text, the hero summary
      text, the inclusion span texts, the booking link's `href`, and the booking page. */
  datatype TourPage = TourPage(opens: bool, heading: Probe<Option<string>>,
                               tripCode: Probe<Option<string>>, description: Probe<Option<string>>,
                               inclusionTexts: Probe<seq<Option<string>>>,
                               bookingHref: Probe<Option<string>>, booking: Probe<BookingCard>)

  // ---------------------------------------------------------------- region and country

  /** `tour_url.split("/tours/")[-1]`. */
  function TourPath(url: string): string
  {
    Last(Split(url, "/tours/"))
  }

  /** `parts`: the path after "/tours/" cut at each "/". */
  function PathParts(url: string): (parts: seq<string>)
    ensures |parts| >= 1
  {
    Split(TourPath(url), "/")
  }

  /** `parts[0].capitalize() if len(parts) > 0 else ""`. */
  function Region(url: string): string
  {
    var parts := PathParts(url);
    if |parts| > 0 then Capitalize(parts[0]) else ""
  }

  /** `parts[1].capitalize() if len(parts) > 1 else ""`. */
  function Country(url: string): string
  {
    var parts := PathParts(url);
    if |parts| > 1 then Capitalize(parts[1]) else ""
  }

  /** The region is the capitalised text of the tour path up to its first "/", and it is always
      set; the country is empty when the path has no "/", and otherwise is the capitalised text
      between the first and second "/". Neither contains "/". */
  lemma RegionCountry(url: string)
    ensures Region(url) == Capitalize(TourPath(url)[..FirstIndex(TourPath(url), '/')])
    ensures '/' !in TourPath(url) ==> Country(url) == ""
    ensures '/' in TourPath(url) ==>
              var rest := TourPath(url)[FirstIndex(TourPath(url), '/') + 1..];
              Country(url) == Capitalize(rest[..FirstIndex(rest, '/')])
    ensures '/' !in Region(url) && '/' !in Country(url)
  {
    RegionIs(url);
    CountryIs(url);
  }

  /** The region: the capitalised first segment of the tour path. */
  lemma RegionIs(url: string)
    ensures Region(url) == Capitalize(TourPath(url)[..FirstIndex(TourPath(url), '/')])
    ensures '/' !in Region(url)
  {
    var path := TourPath(url);
    SplitCharFirst(path, '/');
    assert "/" == ['/'];
    assert '/' !in path[..FirstIndex(path, '/')];
    CapitalizeKeepsSlash(path[..FirstIndex(path, '/')]);
  }

  /** The country: empty without a "/", else the capitalised second segment. */
  lemma CountryIs(url: string)
    ensures '/' !in TourPath(url) ==> Country(url) == ""
    ensures '/' in TourPath(url) ==>
              var rest := TourPath(url)[FirstIndex(TourPath(url), '/') + 1..];
              Country(url) == Capitalize(rest[..FirstIndex(rest, '/')])
    ensures '/' !in Country(url)
  {
    var path := TourPath(url);
    SplitCharFirst(path, '/');
    assert "/" == ['/'];
    if '/' in path {
      var rest := path[FirstIndex(path, '/') + 1..];
      SplitCharFirst(rest, '/');
      assert PathParts(url)[1] == Split(rest, "/")[0];
      assert '/' !in rest[..FirstIndex(rest, '/')];
      CapitalizeKeepsSlash(rest[..FirstIndex(rest, '/')]);
    }
  }

  /** Case changes leave "/" alone. */
  lemma CapitalizeKeepsSlash(s: string)
    requires '/' !in s
    ensures '/' !in Capitalize(s)
  {
    if s != [] {
      assert Capitalize(s) == [UpperChar(s[0])] + Lower(s[1..]);
      assert forall k :: 0 <= k < |s| - 1 ==> Lower(s[1..])[k] == LowerChar(s[1..][k]);
    }
  }

  /** The tour path never contains "/tours/"; a URL without "/tours/" is its own tour path. */
  lemma TourPathProperties(url: string)
    ensures !Contains(TourPath(url), "/tours/")
    ensures !Contains(url, "/tours/") ==> TourPath(url) == url
  {
    SplitPiecesFree(url, "/tours/");
    if !Contains(url, "/tours/") {
      SplitAbsent(url, "/tours/");
    }
  }

  // ---------------------------------------------------------------- trip code and texts

  /** `t.replace("Trip code", "").replace(":", "").strip()`. */
  function CleanTripCode(t: string): (r: string)
    ensures ':' !in r
    ensures NoEdgeSpace(r)
  {
    var noLabel := Replace(t, "Trip code", "");
    RemoveChar(noLabel, ':');
    StripKeepsAbsent(Replace(noLabel, ":", ""), ':');
    Strip(Replace(noLabel, ":", ""))
  }

  /** The trip code field: `""` when the locator raised or found no text (the `.replace` on
      `None` raises too). */
  function TripCodeOf(p: Probe<Option<string>>): (r: string)
    ensures ':' !in r && NoEdgeSpace(r)
    ensures (p.Raised? || p.value.None?) ==> r == ""
  {
    match p
    case Returned(Some(t)) => CleanTripCode(t)
    case _ => ""
  }

  /** `text.strip() if text else ""` for a guarded `text_content()`, `""` when it raised. */
  function TextOf(p: Probe<Option<string>>): (r: string)
    ensures NoEdgeSpace(r)
    ensures p.Returned? && p.value.Some? ==> r == Strip(p.value.value)
    ensures (p.Raised? || p.value.None?) ==> r == ""
  {
    match p
    case Returned(Some(t)) => if t != "" then Strip(t) else ""
    case _ => ""
  }

  /** The date at position `i` of the card, stripped, or `""` when there are not that many. */
  function DateAt(dates: seq<string>, i: nat): (r: string)
    ensures i < |dates| ==> r == Strip(dates[i])
    ensures i >= |dates| ==> r == ""
  {
    if |dates| > i then Strip(dates[i]) else ""
  }

  // ---------------------------------------------------------------- inclusions

  /** A missing text counts as blank. */
  function OrEmpty(texts: seq<Option<string>>): (r: seq<string>)
    ensures |r| == |texts|
    ensures forall i :: 0 <= i < |texts| ==> r[i] == texts[i].GetOr("")
  {
    seq(|texts|, i requires 0 <= i < |texts| => texts[i].GetOr(""))
  }

  /** The trip inclusions: the stripped non-blank span texts in page order. */
  function Inclusions(texts: seq<Option<string>>): seq<string>
  {
    KeepStrippedNonBlank(OrEmpty(texts))
  }

  /** One more span adds what that span's text contributes. */
  lemma InclusionsSnoc(texts: seq<Option<string>>, i: nat)
    requires i < |texts|
    ensures Inclusions(texts[..i + 1]) == Inclusions(texts[..i]) + KeptLine(texts[i].GetOr(""))
  {
    assert OrEmpty(texts[..i + 1]) == OrEmpty(texts[..i]) + [texts[i].GetOr("")];
    KeepStrippedNonBlankAppend(OrEmpty(texts[..i]), [texts[i].GetOr("")]);
    assert KeepStrippedNonBlank([texts[i].GetOr("")]) == KeptLine(texts[i].GetOr("")) + [];
    SeqEmptyRight(KeptLine(texts[i].GetOr("")));
  }

  /** The guard `text and text.strip()` decides what one span contributes. */
  lemma InclusionKept(text: Option<string>)
    ensures KeptLine(text.GetOr(""))
            == if text.Some? && text.value != "" && Strip(text.value) != "" then [Strip(text.value)] else []
  {
    if text.None? || text.value == "" {
      StripNoEdgeSpace("");
    }
  }

  /** The inclusion loop: each span's text is kept, stripped, when it is present and not blank. */
  method CollectInclusions(texts: seq<Option<string>>) returns (inclusions: seq<string>)
    ensures inclusions == Inclusions(texts)
  {
    inclusions := [];
    var i := 0;
    while i < |texts|
      invariant 0 <= i <= |texts|
      invariant inclusions == Inclusions(texts[..i])
    {
      var text := texts[i];
      InclusionsSnoc(texts, i);
      InclusionKept(text);
      if text.Some? && text.value != "" && Strip(text.value) != "" {
        inclusions := inclusions + [Strip(text.value)];
      } else {
        SeqEmptyRight(inclusions);
      }
      i := i + 1;
    }
    assert texts[..i] == texts;
  }

  /** Every inclusion is non-blank and stripped, there are no more of them than spans, and spans
      whose texts are all present, non-blank and stripped are all kept in order. */
  lemma InclusionsShape(texts: seq<Option<string>>)
    ensures |Inclusions(texts)| <= |texts|
    ensures forall k :: 0 <= k < |Inclusions(texts)| ==>
              Inclusions(texts)[k] != "" && NoEdgeSpace(Inclusions(texts)[k])
    ensures (forall i :: 0 <= i < |texts| ==> texts[i].Some? && texts[i].value != ""
                                              && NoEdgeSpace(texts[i].value))
            ==> |Inclusions(texts)| == |texts|
                && forall i :: 0 <= i < |texts| ==> Inclusions(texts)[i] == texts[i].value
  {
    if forall i :: 0 <= i < |texts| ==> texts[i].Some? && texts[i].value != ""
                                        && NoEdgeSpace(texts[i].value) {
      KeepStrippedNonBlankIdentity(OrEmpty(texts));
    }
  }

  // ---------------------------------------------------------------- the record

  /** The `booking_url` field: the `href`, `None` when the link has none, `""` when it raised. */
  function BookingUrl(p: Probe<Option<string>>): Json
  {
    match p
    case Raised => Str("")
    case Returned(None) => Null
    case Returned(Some(u)) => Str(u)
  }

  /** The keys of a tour record. */
  datatype Field = OriginalUrl | TripName | TripCode | RegionKey | CountryKey | Description
                 | TripInclusions | BookingUrlKey | StartDate | EndDate | PriceAud
                 | LimitedAvailability

  /** The JSON name of each key. */
  function FieldName(f: Field): string
  {
    match f
    case OriginalUrl => "original_url"
    case TripName => "trip_name"
    case TripCode => "trip_code"
    case RegionKey => "region"
    case CountryKey => "country"
    case Description => "description"
    case TripInclusions => "trip_inclusions"
    case BookingUrlKey => "booking_url"
    case StartDate => "start_date"
    case EndDate => "end_date"
    case PriceAud => "price_aud"
    case LimitedAvailability => "limited_availability"
  }

  /** Different keys have different JSON names. */
  lemma FieldNameInjective(f: Field, g: Field)
    ensures FieldName(f) == FieldName(g) ==> f == g
  {
  }

  /** A record as the JSON object `json.dump` writes. */
  function RecordJson(record: map<Field, Json>): (j: Json)
    ensures j.Obj? && |j.fields| == |record|
    ensures forall f :: f in record ==> FieldName(f) in j.fields && j.fields[FieldName(f)] == record[f]
    ensures forall name :: name in j.fields ==> exists f :: f in record && FieldName(f) == name
  {
    var fields := NamedFields(record);
    NamedFieldsLookup(record);
    forall f, g ensures FieldName(f) == FieldName(g) ==> f == g {
      FieldNameInjective(f, g);
    }
    NamesCard(record.Keys);
    Obj(fields)
  }

  /** Each field of the record under its JSON name. */
  function NamedFields(record: map<Field, Json>): (fields: map<string, Json>)
    ensures fields.Keys == set f | f in record :: FieldName(f)
  {
    forall f, g ensures FieldName(f) == FieldName(g) ==> f == g {
      FieldNameInjective(f, g);
    }
    map f | f in record :: FieldName(f) := record[f]
  }

  lemma NamedFieldsLookup(record: map<Field, Json>)
    ensures forall f :: f in record ==>
              FieldName(f) in NamedFields(record) && NamedFields(record)[FieldName(f)] == record[f]
  {
    forall f, g ensures FieldName(f) == FieldName(g) ==> f == g {
      FieldNameInjective(f, g);
    }
  }

  /** Naming the keys of a record loses none of them. */
  lemma {:induction false} NamesCard(keys: set<Field>)
    requires forall f, g :: FieldName(f) == FieldName(g) ==> f == g
    ensures |set f | f in keys :: FieldName(f)| == |keys|
    decreases |keys|
  {
    if keys != {} {
      var f :| f in keys;
      NamesCard(keys - {f});
      assert (set g | g in keys :: FieldName(g))
             == (set g | g in keys - {f} :: FieldName(g)) + {FieldName(f)};
    }
  }

  /** The keys every record of an opened page has, and the booking keys. */
  const BaseKeys: set<Field> := {OriginalUrl, TripName, TripCode, RegionKey, CountryKey,
                                 Description, TripInclusions, BookingUrlKey}
  const BookingKeys: set<Field> := {StartDate, EndDate, PriceAud, LimitedAvailability}

  /** The booking fields of a booking page, or their defaults when the booking step raised:
      the first and second date texts, the price text and whether availability is limited. */
  function StartDateOf(p: Probe<BookingCard>): string
  {
    if p.Raised? then "" else DateAt(p.value.dates, 0)
  }

  function EndDateOf(p: Probe<BookingCard>): string
  {
    if p.Raised? then "" else DateAt(p.value.dates, 1)
  }

  function PriceOf(p: Probe<BookingCard>): string
  {
    if p.Raised? then "" else TextOf(Returned(p.value.price))
  }

  function LimitedOf(p: Probe<BookingCard>): bool
  {
    p.Returned? && p.value.limitedCount > 0
  }

  /** The record with the booking fields of `p` added. */
  function WithBooking(record: map<Field, Json>, p: Probe<BookingCard>): map<Field, Json>
  {
    record[StartDate := Str(StartDateOf(p))][EndDate := Str(EndDateOf(p))]
          [PriceAud := Str(PriceOf(p))][LimitedAvailability := Bool(LimitedOf(p))]
  }

  /** Whether the `booking_url` field is truthy: the link has a non-empty `href`. */
  predicate HasBookingLink(p: Probe<Option<string>>)
  {
    p.Returned? && p.value.Some? && p.value.value != ""
  }

  lemma HasBookingLinkTruthy(p: Probe<Option<string>>)
    ensures Truthy(BookingUrl(p)) <==> HasBookingLink(p)
  {
  }

  /** The inclusions field: the kept span texts, or none when collecting them raised. */
  function InclusionsOf(p: Probe<seq<Option<string>>>): seq<string>
  {
    match p
    case Raised => []
    case Returned(texts) => Inclusions(texts)
  }

  /** What an opened tour page yields for the fields every record has. */
  datatype TourFields = TourFields(tripName: string, tripCode: string, region: string,
                                   country: string, description: string,
                                   inclusions: seq<string>, bookingUrl: Json)

  function FieldsOf(url: string, page: TourPage): TourFields
  {
    TourFields(TextOf(page.heading), TripCodeOf(page.tripCode), Region(url), Country(url),
               TextOf(page.description), InclusionsOf(page.inclusionTexts),
               BookingUrl(page.bookingHref))
  }

  /** The fields every record of an opened page has. */
  function BaseRecord(url: string, v: TourFields): map<Field, Json>
  {
    map[OriginalUrl := Str(url), TripName := Str(v.tripName), TripCode := Str(v.tripCode),
        RegionKey := Str(v.region), CountryKey := Str(v.country),
        Description := Str(v.description), TripInclusions := StringsToJson(v.inclusions),
        BookingUrlKey := v.bookingUrl]
  }

  /** The record of an opened page with fields `v`: the base fields, then the booking fields
      when `booking_url` is truthy. */
  function Assemble(url: string, v: TourFields, booking: Probe<BookingCard>): map<Field, Json>
  {
    if Truthy(v.bookingUrl) then WithBooking(BaseRecord(url, v), booking) else BaseRecord(url, v)
  }

  /** The record `extract_tour_info(url, page)` returns. */
  function TourRecord(url: string, page: TourPage): map<Field, Json>
  {
    if !page.opens then map[] else Assemble(url, FieldsOf(url, page), page.booking)
  }

  /** An assembled record has the base keys, and the booking keys when `booking_url` is
      truthy. */
  lemma AssembleKeys(url: string, v: TourFields, booking: Probe<BookingCard>)
    ensures Assemble(url, v, booking).Keys
            == if Truthy(v.bookingUrl) then BaseKeys + BookingKeys else BaseKeys
  {
  }

  /** The base fields of an assembled record are those of `v`. */
  lemma AssembleBase(url: string, v: TourFields, booking: Probe<BookingCard>)
    ensures Assemble(url, v, booking)[OriginalUrl] == Str(url)
    ensures Assemble(url, v, booking)[TripName] == Str(v.tripName)
    ensures Assemble(url, v, booking)[TripCode] == Str(v.tripCode)
    ensures Assemble(url, v, booking)[RegionKey] == Str(v.region)
    ensures Assemble(url, v, booking)[CountryKey] == Str(v.country)
    ensures Assemble(url, v, booking)[Description] == Str(v.description)
    ensures Assemble(url, v, booking)[TripInclusions] == StringsToJson(v.inclusions)
    ensures Assemble(url, v, booking)[BookingUrlKey] == v.bookingUrl
  {
    BaseRecordFields(url, v);
    if Truthy(v.bookingUrl) {
      WithBookingKeepsBase(BaseRecord(url, v), booking);
    }
  }

  lemma BaseRecordFields(url: string, v: TourFields)
    ensures BaseRecord(url, v)[OriginalUrl] == Str(url)
    ensures BaseRecord(url, v)[TripName] == Str(v.tripName)
    ensures BaseRecord(url, v)[TripCode] == Str(v.tripCode)
    ensures BaseRecord(url, v)[RegionKey] == Str(v.region)
    ensures BaseRecord(url, v)[CountryKey] == Str(v.country)
    ensures BaseRecord(url, v)[Description] == Str(v.description)
    ensures BaseRecord(url, v)[TripInclusions] == StringsToJson(v.inclusions)
    ensures BaseRecord(url, v)[BookingUrlKey] == v.bookingUrl
  {
  }

  /** Adding the booking fields leaves the base fields alone. */
  lemma WithBookingKeepsBase(record: map<Field, Json>, booking: Probe<BookingCard>)
    requires BaseKeys <= record.Keys
    ensures forall f :: f in BaseKeys ==> WithBooking(record, booking)[f] == record[f]
  {
    BookingUpdate(record, Str(StartDateOf(booking)), Str(EndDateOf(booking)),
                  Str(PriceOf(booking)), Bool(LimitedOf(booking)));
    forall f | f in BaseKeys
      ensures WithBooking(record, booking)[f] == record[f]
    {
      BaseNotBooking(f);
    }
  }

  /** No base key is a booking key. */
  lemma BaseNotBooking(f: Field)
    requires f in BaseKeys
    ensures f !in BookingKeys
  {
  }

  /** Setting the four booking keys, whatever their values: each holds its value and every
      other key keeps its own. */
  lemma BookingUpdate(record: map<Field, Json>, start: Json, end: Json, price: Json, limited: Json)
    ensures var r := record[StartDate := start][EndDate := end][PriceAud := price]
                           [LimitedAvailability := limited];
            r.Keys == record.Keys + BookingKeys
            && r[StartDate] == start && r[EndDate] == end && r[PriceAud] == price
            && r[LimitedAvailability] == limited
            && forall f :: f in record && f !in BookingKeys ==> r[f] == record[f]
  {
  }

  /** The booking fields of an assembled record with a truthy `booking_url`. */
  lemma AssembleBooking(url: string, v: TourFields, booking: Probe<BookingCard>)
    requires Truthy(v.bookingUrl)
    ensures Assemble(url, v, booking)[StartDate] == Str(StartDateOf(booking))
    ensures Assemble(url, v, booking)[EndDate] == Str(EndDateOf(booking))
    ensures Assemble(url, v, booking)[PriceAud] == Str(PriceOf(booking))
    ensures Assemble(url, v, booking)[LimitedAvailability] == Bool(LimitedOf(booking))
  {
    WithBookingFields(BaseRecord(url, v), booking);
  }

  lemma WithBookingFields(record: map<Field, Json>, booking: Probe<BookingCard>)
    ensures WithBooking(record, booking)[StartDate] == Str(StartDateOf(booking))
    ensures WithBooking(record, booking)[EndDate] == Str(EndDateOf(booking))
    ensures WithBooking(record, booking)[PriceAud] == Str(PriceOf(booking))
    ensures WithBooking(record, booking)[LimitedAvailability] == Bool(LimitedOf(booking))
  {
    BookingUpdate(record, Str(StartDateOf(booking)), Str(EndDateOf(booking)),
                  Str(PriceOf(booking)), Bool(LimitedOf(booking)));
  }

  /** `extract_tour_info`: the record is filled one field at a time, each guarded step falling
      back to its default, and stays empty when the page cannot be opened. */
  method ExtractTourInfo(url: string, page: TourPage) returns (result: map<Field, Json>)
    ensures result == TourRecord(url, page)
  {
    result := map[];
    if !page.opens {
      return;
    }
    result := result[OriginalUrl := Str(url)];
    result := result[TripName := Str(TextOf(page.heading))];
    result := result[TripCode := Str(TripCodeOf(page.tripCode))];
    result := result[RegionKey := Str(Region(url))];
    result := result[CountryKey := Str(Country(url))];
    result := result[Description := Str(TextOf(page.description))];
    match page.inclusionTexts {
      case Raised =>
        result := result[TripInclusions := StringsToJson([])];
      case Returned(texts) =>
        var inclusions := CollectInclusions(texts);
        result := result[TripInclusions := StringsToJson(inclusions)];
    }
    result := result[BookingUrlKey := BookingUrl(page.bookingHref)];
    assert result == BaseRecord(url, FieldsOf(url, page));
    if Truthy(result[BookingUrlKey]) {
      result := AddBookingInfo(result, page.booking);
    }
  }

  /** The booking step: every booking field is set from the booking page, or all of them to
      their defaults when any part of that step raised. */
  method AddBookingInfo(record: map<Field, Json>, booking: Probe<BookingCard>)
    returns (result: map<Field, Json>)
    ensures result == WithBooking(record, booking)
  {
    result := record;
    match booking {
      case Raised =>
        result := result[StartDate := Str("")][EndDate := Str("")][PriceAud := Str("")];
        result := result[LimitedAvailability := Bool(false)];
      case Returned(card) =>
        result := result[StartDate := Str(DateAt(card.dates, 0))];
        result := result[EndDate := Str(DateAt(card.dates, 1))];
        result := result[PriceAud := Str(TextOf(Returned(card.price)))];
        result := result[LimitedAvailability := Bool(card.limitedCount > 0)];
    }
  }

  /** A page that cannot be opened leaves the record empty; otherwise the record has the base
      keys, plus the booking keys exactly when the booking link was a non-empty `href`. */
  lemma TourRecordKeys(url: string, page: TourPage)
    ensures !page.opens ==> TourRecord(url, page) == map[]
    ensures page.opens ==>
              TourRecord(url, page).Keys
              == if HasBookingLink(page.bookingHref) then BaseKeys + BookingKeys else BaseKeys
  {
    AssembleKeys(url, FieldsOf(url, page), page.booking);
    HasBookingLinkTruthy(page.bookingHref);
  }

  /** The derived fields of an opened page: the URL, the region and country taken from it, the
      cleaned trip code, and the trip name stripped. */
  lemma TourRecordFields(url: string, page: TourPage)
    requires page.opens
    ensures BaseKeys <= TourRecord(url, page).Keys
    ensures TourRecord(url, page)[OriginalUrl] == Str(url)
    ensures TourRecord(url, page)[RegionKey] == Str(Region(url))
    ensures TourRecord(url, page)[CountryKey] == Str(Country(url))
    ensures TourRecord(url, page)[TripCode].Str? && ':' !in TourRecord(url, page)[TripCode].s
    ensures TourRecord(url, page)[TripName].Str? && NoEdgeSpace(TourRecord(url, page)[TripName].s)
  {
    TourRecordKeys(url, page);
    AssembleBase(url, FieldsOf(url, page), page.booking);
  }

  /** The booking fields when there is a booking link: the defaults when the booking step
      raised, else the first and second date texts stripped (or `""`), and whether any
      "Limited availability" text was found. */
  lemma TourRecordBooking(url: string, page: TourPage)
    requires page.opens && HasBookingLink(page.bookingHref)
    ensures BookingKeys <= TourRecord(url, page).Keys
    ensures page.booking.Raised? ==>
              TourRecord(url, page)[StartDate] == Str("")
              && TourRecord(url, page)[EndDate] == Str("")
              && TourRecord(url, page)[PriceAud] == Str("")
              && TourRecord(url, page)[LimitedAvailability] == Bool(false)
    ensures page.booking.Returned? ==>
              var dates := page.booking.value.dates;
              TourRecord(url, page)[StartDate] == Str(if |dates| > 0 then Strip(dates[0]) else "")
              && TourRecord(url, page)[EndDate] == Str(if |dates| > 1 then Strip(dates[1]) else "")
              && TourRecord(url, page)[LimitedAvailability]
                 == Bool(page.booking.value.limitedCount > 0)
  {
    TourRecordKeys(url, page);
    AssembleBooking(url, FieldsOf(url, page), page.booking);
  }

  // ---------------------------------------------------------------- main

  /** `main`: the URL list is the stripped non-blank lines of the list file, and every URL, in
      order, adds its record to `all_results` (the browser page seen for the `i`-th URL is
      `visit(i, url)`). */
  method ScrapeTours(listFile: string, visit: (nat, string) -> TourPage)
    returns (urls: seq<string>, allResults: seq<map<Field, Json>>)
    ensures urls == ReadStrippedLines(listFile)
    ensures |allResults| == |urls|
    ensures forall i :: 0 <= i < |urls| ==> allResults[i] == TourRecord(urls[i], visit(i, urls[i]))
  {
    urls := ReadStrippedLines(listFile);
    allResults := [];
    var i := 0;
    while i < |urls|
      invariant 0 <= i <= |urls|
      invariant |allResults| == i
      invariant forall k :: 0 <= k < i ==> allResults[k] == TourRecord(urls[k], visit(k, urls[k]))
    {
      var data := ExtractTourInfo(urls[i], visit(i, urls[i]));
      ghost var before := allResults;
      allResults := allResults + [data];
      forall k | 0 <= k < i + 1
        ensures allResults[k] == TourRecord(urls[k], visit(k, urls[k]))
      {
        if k < i {
          assert allResults[k] == before[k];
        } else {
          assert allResults[k] == data;
        }
      }
      i := i + 1;
    }
  }

  /** The contents of the output file: the records as a JSON list. */
  function ResultsJson(allResults: seq<map<Field, Json>>): (j: Json)
    ensures j.Arr? && |j.items| == |allResults|
    ensures forall i :: 0 <= i < |allResults| ==> j.items[i] == RecordJson(allResults[i])
  {
    Arr(seq(|allResults|, i requires 0 <= i < |allResults| => RecordJson(allResults[i])))
  }
}
