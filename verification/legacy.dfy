/**
 * The stand-alone scan script backend/src/index.ts: decoding the rows of its
 * previous CSV output, deciding where to resume, which listing entries to
 * skip, how the scan index moves after each selection, and the final sort.
 * The browser, the CSV streams and date parsing become inputs.
 */
module Legacy {
  import opened Wrappers
  import opened JsText
  import Screening
  import Reservation

  /** One scanned screening as the script keeps it. */
  datatype ParsedScreening = ParsedScreening(
    id: string,
    title: string,
    startTime: int,
    endTime: int,
    screeningType: Option<string>,
    isPremiere: bool,
    isSecondScreening: bool,
    location: string,
    isInParkCity: bool,
    isInSaltLakeCity: bool,
    isSoldOut: Option<bool>,
    index: int)

  // ---------------------------------------------------------------------
  // The CSV rows: columns id, title, date, startDateTime, endDateTime, type,
  // isPremiere, isSecondScreening, location, isInParkCity, isInSaltLakeCity,
  // isSoldOut, index.

  const ColumnCount: nat := 13

  /** `row[i]`, undefined past the end of the row. */
  function Cell(row: seq<string>, i: nat): Option<string> {
    if i < |row| then Some(row[i]) else None
  }

  function Text(cell: Option<string>): string {
    cell.GetOr("")
  }

  /** A boolean column: true iff the cell is exactly `true`. */
  predicate TrueCell(cell: Option<string>) {
    cell == Some("true")
  }

  /** `isSoldOut === '' ? undefined : isSoldOut === 'true'`. */
  function SoldOutCell(cell: Option<string>): (r: Option<bool>)
    ensures r.None? <==> cell == Some("")
    ensures r == Some(true) <==> cell == Some("true")
  {
    if cell == Some("") then None else Some(cell == Some("true"))
  }

  /** `+s` for integer numerals (after trimming); `None` stands for NaN. */
  function NumberValue(s: string): Option<int> {
    var t := Trim(s);
    if IsDigits(t) then Some(DecimalValue(t))
    else if |t| > 1 && t[0] == '-' && IsDigits(t[1..]) then Some(-(DecimalValue(t[1..]) as int))
    else if |t| > 1 && t[0] == '+' && IsDigits(t[1..]) then Some(DecimalValue(t[1..]))
    else None
  }

  /**
   * `(index && +index) || 0`: an empty, missing or non-numeric index reads as
   * 0, and a numeric one as its value.
   */
  function IndexCell(cell: Option<string>): (r: int)
    ensures cell.None? || cell == Some("") ==> r == 0
    ensures cell.Some? && NumberValue(cell.value).None? ==> r == 0
    ensures cell.Some? && NumberValue(cell.value).Some? ==> r == NumberValue(cell.value).value
  {
    if cell.None? || cell.value == "" then 0
    else NumberValue(cell.value).GetOr(0)
  }

  /**
   * One decoded row. The column is called `type` while the record field is
   * `screeningType`, so a decoded row carries no screening type. A sold-out
   * cell that is missing or other than empty or `true` reads as not sold out,
   * and a row cut short before its index reads as index 0.
   */
  function DecodeRow(row: seq<string>, parseIso: string -> int): (r: ParsedScreening)
    ensures r.screeningType.None?
    ensures r.isSoldOut == Some(false) <==> |row| <= 11 || (row[11] != "" && row[11] != "true")
    ensures |row| <= 12 ==> r.index == 0
    ensures r.id == (if |row| > 0 then row[0] else "")
  {
    ParsedScreening(
      Text(Cell(row, 0)), Text(Cell(row, 1)),
      parseIso(Text(Cell(row, 3))), parseIso(Text(Cell(row, 4))),
      None,
      TrueCell(Cell(row, 6)), TrueCell(Cell(row, 7)),
      Text(Cell(row, 8)),
      TrueCell(Cell(row, 9)), TrueCell(Cell(row, 10)),
      SoldOutCell(Cell(row, 11)),
      IndexCell(Cell(row, 12)))
  }

  function BoolText(b: bool): string {
    if b then "true" else "false"
  }

  /** The row the script writes for a screening it selected (`isSoldOut || ''`). */
  function EncodeRow(p: ParsedScreening, dateText: string, formatIso: int -> string): (row: seq<string>)
    requires p.index >= 0
    ensures |row| == ColumnCount
  {
    [p.id, p.title, dateText, formatIso(p.startTime), formatIso(p.endTime), p.screeningType.GetOr(""),
     BoolText(p.isPremiere), BoolText(p.isSecondScreening), p.location,
     BoolText(p.isInParkCity), BoolText(p.isInSaltLakeCity),
     if p.isSoldOut == Some(true) then "true" else "",
     NatToString(p.index)]
  }

  /**
   * A written row reads back as the record it came from, except that the
   * screening type is lost; the sold-out flag survives because the script only
   * ever records it as true or absent.
   */
  lemma DecodeEncodedRow(p: ParsedScreening, dateText: string, formatIso: int -> string, parseIso: string -> int)
    requires p.index >= 0 && p.isSoldOut != Some(false)
    requires forall t :: parseIso(formatIso(t)) == t
    ensures DecodeRow(EncodeRow(p, dateText, formatIso), parseIso) == p.(screeningType := None)
  {
    var row := EncodeRow(p, dateText, formatIso);
    DecodeFullRow(row, parseIso);
    IndexRoundTrip(p.index);
    BoolRoundTrip(p.isPremiere);
    BoolRoundTrip(p.isSecondScreening);
    BoolRoundTrip(p.isInParkCity);
    BoolRoundTrip(p.isInSaltLakeCity);
    SoldOutRoundTrip(p.isSoldOut);
    assert parseIso(row[3]) == p.startTime && parseIso(row[4]) == p.endTime;
  }

  /** A row with every column decodes column by column. */
  lemma DecodeFullRow(row: seq<string>, parseIso: string -> int)
    requires |row| == ColumnCount
    ensures DecodeRow(row, parseIso) ==
      ParsedScreening(row[0], row[1], parseIso(row[3]), parseIso(row[4]), None,
        TrueCell(Some(row[6])), TrueCell(Some(row[7])), row[8], TrueCell(Some(row[9])), TrueCell(Some(row[10])),
        SoldOutCell(Some(row[11])), IndexCell(Some(row[12])))
  {
  }

  /** A decimal numeral reads as its value. */
  lemma NumberValueOfNumeral(n: nat)
    ensures NumberValue(NatToString(n)) == Some(n)
  {
    var digits := NatToString(n);
    NumeralUntrimmed(digits);
    DecimalValueOfNatToString(n);
  }

  /** A decimal numeral after a sign reads as its value, negated after `-`. */
  /** A decimal numeral after a minus sign reads as its value negated. */
  lemma NumberValueOfNegativeNumeral(n: nat)
    ensures NumberValue("-" + NatToString(n)) == Some(-(n as int))
  {
    var digits := NatToString(n);
    var t := "-" + digits;
    NumeralUntrimmed(digits);
    assert t[|t| - 1] == digits[|digits| - 1];
    TrimUntouched(t);
    assert t[1..] == digits;
    DecimalValueOfNatToString(n);
    NumberValueAfterMinus(t);
  }

  lemma NumberValueAfterMinus(t: string)
    requires |t| > 1 && t[0] == '-' && IsDigits(t[1..]) && Trim(t) == t
    ensures NumberValue(t) == Some(-(DecimalValue(t[1..]) as int))
  {
    assert !IsDigits(t) by { assert t[0] in t; }
  }

  lemma NumeralUntrimmed(digits: string)
    requires digits != [] && IsDigits(digits)
    ensures !IsJsWhitespace(digits[|digits| - 1]) && Trim(digits) == digits
  {
    assert !IsJsWhitespace(digits[0]) && !IsJsWhitespace(digits[|digits| - 1]) by {
      assert digits[0] in digits && digits[|digits| - 1] in digits;
    }
    TrimUntouched(digits);
  }

  /** An index written as a decimal numeral reads back as itself. */
  lemma IndexRoundTrip(n: nat)
    ensures IndexCell(Some(NatToString(n))) == n
  {
    NumberValueOfNumeral(n);
  }

  /** A flag written as `true`/`false` reads back as itself. */
  lemma BoolRoundTrip(b: bool)
    ensures TrueCell(Some(BoolText(b))) == b
  {
    assert "true" != "false" by {
      assert "true"[0] != "false"[0];
    }
  }

  /** A sold-out flag written as `true` or left empty reads back as itself. */
  lemma SoldOutRoundTrip(soldOut: Option<bool>)
    requires soldOut != Some(false)
    ensures SoldOutCell(Some(if soldOut == Some(true) then "true" else "")) == soldOut
  {
    if soldOut.Some? {
      assert soldOut.value by {
        assert soldOut == Some(soldOut.value);
      }
      assert "true" != "" by {
        assert |"true"| == 4;
      }
      assert SoldOutCell(Some("true")) == Some(true);
    } else {
      assert SoldOutCell(Some("")) == None;
    }
  }


  // ---------------------------------------------------------------------
  // Resuming.

  /**
   * Where the scan starts: after the last parsed screening when its saved
   * index is inside the listing and the listing still has the same id there;
   * otherwise at 0.
   */
  function ResumeIndex(parsed: seq<ParsedScreening>, listingIds: seq<string>): (r: nat)
    ensures r <= |listingIds|
    ensures r > 0 <==>
      (parsed != [] && 0 <= parsed[|parsed| - 1].index < |listingIds| &&
       listingIds[parsed[|parsed| - 1].index] == parsed[|parsed| - 1].id)
    ensures r > 0 ==> r == parsed[|parsed| - 1].index + 1
  {
    if parsed == [] then 0
    else
      var last := parsed[|parsed| - 1];
      if last.index >= |listingIds| || last.index < 0 then 0
      else if listingIds[last.index] != last.id then 0
      else last.index + 1
  }

  // ---------------------------------------------------------------------
  // Skipping.

  /** The script's settings; an empty filter is unset. */
  datatype Config = Config(
    skipTba: bool,
    filterScreeningType: string,
    filterCity: string,
    filterLocation: string,
    selectFilm: bool,
    sortBy: SortKey)

  /** The settings the script ships with. */
  const ShippedConfig: Config := Config(true, "", "", "", true, ByStart)

  const TbaPrefix: string := "TBA "

  /** `premiere` and `second` test the flags; any other value must equal the type. */
  predicate TypeFilterPasses(filter: string, screeningType: string, isPremiere: bool, isSecondScreening: bool) {
    filter == "" ||
    (if filter == "premiere" then isPremiere
     else if filter == "second" then isSecondScreening
     else filter == screeningType)
  }

  /** `parkCity` and `slc` test the flags; any other value must end the location. */
  predicate CityFilterPasses(filter: string, location: string, isInParkCity: bool, isInSaltLakeCity: bool) {
    filter == "" ||
    (if filter == "parkCity" then isInParkCity
     else if filter == "slc" then isInSaltLakeCity
     else EndsWith(location, filter))
  }

  predicate LocationFilterPasses(filter: string, location: string) {
    filter == "" || Includes(location, filter)
  }

  /** A record the scan may add: not TBA (when skipping those) and through every filter. */
  predicate Admitted(cfg: Config, p: ParsedScreening) {
    !(cfg.skipTba && StartsWith(p.title, TbaPrefix)) &&
    TypeFilterPasses(cfg.filterScreeningType, p.screeningType.GetOr(""), p.isPremiere, p.isSecondScreening) &&
    CityFilterPasses(cfg.filterCity, p.location, p.isInParkCity, p.isInSaltLakeCity) &&
    LocationFilterPasses(cfg.filterLocation, p.location)
  }

  /** With the shipped settings only TBA titles are refused. */
  lemma ShippedConfigAdmits(p: ParsedScreening)
    ensures Admitted(ShippedConfig, p) <==> !StartsWith(p.title, TbaPrefix)
  {
  }

  /** A named filter and the flag it reads agree with the location and type text. */
  lemma NamedFiltersFollowClassification(location: string, typeText: Option<string>)
    ensures var kind := Screening.ClassifyScreeningType(typeText);
      (TypeFilterPasses("premiere", kind.screeningType, kind.isPremiere, kind.isSecondScreening) <==> kind.screeningType == Screening.Premiere) &&
      (TypeFilterPasses("second", kind.screeningType, kind.isPremiere, kind.isSecondScreening) <==> kind.screeningType == Screening.SecondScreening) &&
      (CityFilterPasses("parkCity", location, Screening.IsInParkCity(location), Screening.IsInSaltLakeCity(location)) <==>
        EndsWith(location, Screening.ParkCity) || EndsWith(location, Screening.SundanceMountainResort)) &&
      (CityFilterPasses("slc", location, Screening.IsInParkCity(location), Screening.IsInSaltLakeCity(location)) <==>
        EndsWith(location, Screening.SaltLakeCity))
  {
  }

  // ---------------------------------------------------------------------
  // The scan.

  /** One entry of the listing page. */
  datatype ListingEntry = ListingEntry(
    title: string,
    dateString: string,
    timeRangeString: string,
    location: string,
    typeText: Option<string>,
    startTime: int,
    endTime: int)

  function EntryId(e: ListingEntry): string {
    Screening.ScreeningId(e.title, e.dateString, e.timeRangeString, e.location)
  }

  function EntryIds(listing: seq<ListingEntry>): (ids: seq<string>)
    ensures |ids| == |listing| && forall i | 0 <= i < |listing| :: ids[i] == EntryId(listing[i])
  {
    seq(|listing|, i requires 0 <= i < |listing| => EntryId(listing[i]))
  }

  /** The record for a listing entry at position `index`, before its ticket type is known. */
  function RecordOf(e: ListingEntry, index: nat): ParsedScreening {
    var kind := Screening.ClassifyScreeningType(e.typeText);
    ParsedScreening(EntryId(e), e.title, e.startTime, e.endTime, Some(kind.screeningType),
      kind.isPremiere, kind.isSecondScreening, e.location,
      Screening.IsInParkCity(e.location), Screening.IsInSaltLakeCity(e.location), None, index)
  }

  predicate HasId(parsed: seq<ParsedScreening>, id: string) {
    exists p | p in parsed :: p.id == id
  }

  /**
   * Where the scan goes after a selection, given the reloaded listing: it
   * stops when the index is past the end, restarts at 0 when another entry
   * now sits at the index, and otherwise moves on by one.
   */
  function AfterSelect(index: nat, id: string, reloadedIds: seq<string>): (next: Option<nat>)
    ensures next.None? <==> index >= |reloadedIds|
    ensures next.Some? ==> (next.value == 0 <==> reloadedIds[index] != id)
    ensures next.Some? && next.value != 0 ==> next.value == index + 1
  {
    if index >= |reloadedIds| then None
    else if reloadedIds[index] != id then Some(0)
    else Some(index + 1)
  }

  /**
   * What the scan keeps true of the records it adds after `initial`: each
   * was admitted, has a real index, repeats no earlier id, and is marked sold
   * out only as true and only after a selection.
   */
  predicate AddedWell(cfg: Config, initial: seq<ParsedScreening>, parsed: seq<ParsedScreening>) {
    |initial| <= |parsed| && parsed[..|initial|] == initial &&
    forall k | |initial| <= k < |parsed| :: AddedWellAt(cfg, parsed, k)
  }

  /** The record at position `k` as the scan adds it. */
  predicate AddedWellAt(cfg: Config, parsed: seq<ParsedScreening>, k: nat)
    requires k < |parsed|
  {
    Admitted(cfg, parsed[k]) && parsed[k].index >= 0 && !HasId(parsed[..k], parsed[k].id) &&
    parsed[k].isSoldOut != Some(false) && (parsed[k].isSoldOut.Some? ==> cfg.selectFilm)
  }

  /** What the selection of one screening meets: whether checkout opened, and the ticket type shown. */
  datatype SelectOutcome = SelectOutcome(checkoutReached: bool, ticketType: Option<string>)

  datatype RunOutcome = Finished | CheckoutFailed | OutOfFuel

  // ---------------------------------------------------------------------
  // What the scan adds over a listing that does not change.

  /** The records of a listing's entries, each at its position, before its ticket type is known. */
  function RecordsOf(entries: seq<ListingEntry>): (r: seq<ParsedScreening>)
    ensures |r| == |entries|
  {
    seq(|entries|, k requires 0 <= k < |entries| => RecordOf(entries[k], k))
  }

  /**
   * Position `j` of a listing scanned from `start` is new: its record is
   * admitted, its id was not parsed before, and no earlier admitted record of
   * the scan carries the same id.
   */
  predicate Fresh(cfg: Config, initial: seq<ParsedScreening>, records: seq<ParsedScreening>, start: nat, j: nat)
    requires j < |records|
  {
    Admitted(cfg, records[j]) && !HasId(initial, records[j].id) &&
    forall k | start <= k < j :: Admitted(cfg, records[k]) ==> records[k].id != records[j].id
  }

  /** The new positions among `start <= j < i`, in listing order. */
  function FreshBelow(cfg: Config, initial: seq<ParsedScreening>, records: seq<ParsedScreening>, start: nat, i: nat): (r: seq<nat>)
    requires start <= i <= |records|
    ensures forall m | 0 <= m < |r| :: start <= r[m] < i
    decreases i - start
  {
    if i == start then []
    else FreshBelow(cfg, initial, records, start, i - 1) + (if Fresh(cfg, initial, records, start, i - 1) then [i - 1] else [])
  }

  /** `FreshBelow` lists exactly the new positions before `i`, each once, in increasing order. */
  lemma {:induction false} FreshBelowLists(cfg: Config, initial: seq<ParsedScreening>, records: seq<ParsedScreening>, start: nat, i: nat)
    requires start <= i <= |records|
    ensures var r := FreshBelow(cfg, initial, records, start, i);
      (forall j :: j in r <==> start <= j < i && Fresh(cfg, initial, records, start, j)) &&
      (forall m, n | 0 <= m < n < |r| :: r[m] < r[n])
    decreases i - start
  {
    if i > start {
      FreshBelowLists(cfg, initial, records, start, i - 1);
    }
  }

  /** A record as the scan stores it: with the sold-out flag of its selection when films are selected. */
  function Selected(cfg: Config, record: ParsedScreening, selected: SelectOutcome): ParsedScreening {
    if cfg.selectFilm then record.(isSoldOut := Reservation.SoldOutFromTicketType(selected.ticketType)) else record
  }

  /** The records at the positions `idx`, the `m`-th taking what the `m`-th selection met. */
  function AddedAt(cfg: Config, records: seq<ParsedScreening>, idx: seq<nat>, selects: nat -> SelectOutcome): (r: seq<ParsedScreening>)
    requires forall m | 0 <= m < |idx| :: idx[m] < |records|
    ensures |r| == |idx|
  {
    seq(|idx|, m requires 0 <= m < |idx| => Selected(cfg, records[idx[m]], selects(m)))
  }

  /** The records a scan of an unchanging listing holds once it has looked at the positions before `i`. */
  function ScannedTo(cfg: Config, initial: seq<ParsedScreening>, records: seq<ParsedScreening>, start: nat, i: nat,
    selects: nat -> SelectOutcome): seq<ParsedScreening>
    requires start <= i <= |records|
  {
    initial + AddedAt(cfg, records, FreshBelow(cfg, initial, records, start, i), selects)
  }

  /**
   * An id is among the scanned records exactly when it was parsed before or
   * some admitted record looked at so far carries it.
   */
  lemma {:induction false} ScannedToHasId(cfg: Config, initial: seq<ParsedScreening>, records: seq<ParsedScreening>, start: nat, i: nat,
    selects: nat -> SelectOutcome, id: string)
    requires start <= i <= |records|
    ensures HasId(ScannedTo(cfg, initial, records, start, i, selects), id) <==>
      HasId(initial, id) || exists k | start <= k < i :: Admitted(cfg, records[k]) && records[k].id == id
    decreases i - start
  {
    if i == start {
      assert ScannedTo(cfg, initial, records, start, i, selects) == initial;
    } else {
      var j := i - 1;
      ScannedToHasId(cfg, initial, records, start, j, selects, id);
      var before := ScannedTo(cfg, initial, records, start, j, selects);
      ScannedToStep(cfg, initial, records, start, j, selects);
      if Fresh(cfg, initial, records, start, j) {
        HasIdSnoc(before, Selected(cfg, records[j], selects(|FreshBelow(cfg, initial, records, start, j)|)), id);
      } else if Admitted(cfg, records[j]) && records[j].id == id && !HasId(initial, id) {
        var k :| start <= k < j && Admitted(cfg, records[k]) && records[k].id == records[j].id;
      }
    }
  }

  /** One more position looked at: a new one adds its record, any other adds nothing. */
  lemma ScannedToStep(cfg: Config, initial: seq<ParsedScreening>, records: seq<ParsedScreening>, start: nat, j: nat,
    selects: nat -> SelectOutcome)
    requires start <= j < |records|
    ensures var idx := FreshBelow(cfg, initial, records, start, j);
      var before := ScannedTo(cfg, initial, records, start, j, selects);
      if Fresh(cfg, initial, records, start, j)
      then (FreshBelow(cfg, initial, records, start, j + 1) == idx + [j] &&
        ScannedTo(cfg, initial, records, start, j + 1, selects) == before + [Selected(cfg, records[j], selects(|idx|))])
      else (FreshBelow(cfg, initial, records, start, j + 1) == idx &&
        ScannedTo(cfg, initial, records, start, j + 1, selects) == before)
  {
    var idx := FreshBelow(cfg, initial, records, start, j);
    if Fresh(cfg, initial, records, start, j) {
      AddedAtSnoc(cfg, records, idx, j, selects);
    }
  }

  lemma HasIdSnoc(parsed: seq<ParsedScreening>, p: ParsedScreening, id: string)
    ensures HasId(parsed + [p], id) <==> HasId(parsed, id) || p.id == id
  {
    if HasId(parsed, id) {
      var q :| q in parsed && q.id == id;
      assert q in parsed + [p];
    }
    assert p in parsed + [p];
  }

  lemma AddedAtSnoc(cfg: Config, records: seq<ParsedScreening>, idx: seq<nat>, j: nat, selects: nat -> SelectOutcome)
    requires forall m | 0 <= m < |idx| :: idx[m] < |records|
    requires j < |records|
    ensures AddedAt(cfg, records, idx + [j], selects) == AddedAt(cfg, records, idx, selects) + [Selected(cfg, records[j], selects(|idx|))]
  {
    var a := AddedAt(cfg, records, idx + [j], selects);
    var b := AddedAt(cfg, records, idx, selects) + [Selected(cfg, records[j], selects(|idx|))];
    assert |a| == |b|;
    forall m | 0 <= m < |a|
      ensures a[m] == b[m]
    {
      assert (idx + [j])[m] == if m < |idx| then idx[m] else j;
    }
  }

  /** Every admitted entry from the resume position on ends up parsed. */
  lemma ScanFindsEveryAdmitted(cfg: Config, initial: seq<ParsedScreening>, entries: seq<ListingEntry>, start: nat,
    selects: nat -> SelectOutcome, j: nat)
    requires start <= j < |entries|
    requires Admitted(cfg, RecordOf(entries[j], j))
    ensures HasId(ScannedTo(cfg, initial, RecordsOf(entries), start, |entries|, selects), EntryId(entries[j]))
  {
    ScannedToHasId(cfg, initial, RecordsOf(entries), start, |entries|, selects, EntryId(entries[j]));
    assert RecordsOf(entries)[j] == RecordOf(entries[j], j);
  }

  /** The scan passes over a record: TBA, already parsed, or not admitted. */
  predicate Skips(cfg: Config, parsed: seq<ParsedScreening>, record: ParsedScreening) {
    (cfg.skipTba && StartsWith(record.title, TbaPrefix)) || HasId(parsed, record.id) || !Admitted(cfg, record)
  }

  /** A position that is not new leaves the scanned records as they are. */
  lemma ScanSkipStep(cfg: Config, initial: seq<ParsedScreening>, records: seq<ParsedScreening>, start: nat, i: nat,
    selects: nat -> SelectOutcome)
    requires start <= i < |records|
    requires Skips(cfg, ScannedTo(cfg, initial, records, start, i, selects), records[i])
    ensures ScannedTo(cfg, initial, records, start, i + 1, selects) == ScannedTo(cfg, initial, records, start, i, selects)
    ensures FreshBelow(cfg, initial, records, start, i + 1) == FreshBelow(cfg, initial, records, start, i)
  {
    ScannedToHasId(cfg, initial, records, start, i, selects, records[i].id);
    ScannedToStep(cfg, initial, records, start, i, selects);
  }

  /** A new position adds its record, marked by the next selection. */
  lemma ScanAddStep(cfg: Config, initial: seq<ParsedScreening>, records: seq<ParsedScreening>, start: nat, i: nat,
    selects: nat -> SelectOutcome)
    requires start <= i < |records|
    requires !Skips(cfg, ScannedTo(cfg, initial, records, start, i, selects), records[i])
    ensures var n := |FreshBelow(cfg, initial, records, start, i)|;
      FreshBelow(cfg, initial, records, start, i + 1) == FreshBelow(cfg, initial, records, start, i) + [i] &&
      ScannedTo(cfg, initial, records, start, i + 1, selects) ==
        ScannedTo(cfg, initial, records, start, i, selects) + [Selected(cfg, records[i], selects(n))]
  {
    ScannedToHasId(cfg, initial, records, start, i, selects, records[i].id);
    ScannedToStep(cfg, initial, records, start, i, selects);
  }

  /** Every load of the listing shows the same entries. */
  ghost predicate Unchanging(listing: nat -> seq<ListingEntry>) {
    forall k: nat :: listing(k) == listing(0)
  }

  /** Every selection reaches checkout. */
  ghost predicate AllReachCheckout(selects: nat -> SelectOutcome) {
    forall k: nat :: selects(k).checkoutReached
  }

  /** A listing that does not change, with fuel for each of its entries. */
  ghost predicate Stable(listing: nat -> seq<ListingEntry>, fuel: nat) {
    Unchanging(listing) && |listing(0)| <= fuel
  }

  /**
   * The state of the scan at the head of its loop: looking at position `i`
   * of `screenings` after `steps` entries. On a `stable` scan from `start`,
   * with `records` the records of the listing, the records so far are those
   * of the new positions before `i`, one selection made for each when films
   * are selected.
   */
  ghost predicate Scanning(cfg: Config, initial: seq<ParsedScreening>, stable: bool, records: seq<ParsedScreening>, start: nat,
    selects: nat -> SelectOutcome, fuel: nat, screenings: seq<ListingEntry>, i: int,
    parsed: seq<ParsedScreening>, selections: nat, steps: nat)
  {
    0 <= i <= |screenings| && steps <= fuel &&
    AddedWell(cfg, initial, parsed) && |parsed| - |initial| <= steps &&
    (stable ==>
      |records| == |screenings| <= fuel && start <= i && steps == i - start &&
      parsed == ScannedTo(cfg, initial, records, start, i, selects) &&
      (cfg.selectFilm ==> selections == |FreshBelow(cfg, initial, records, start, i)|))
  }

  /** What a record built at position `i` carries before the scan stores it. */
  predicate Unmarked(record: ParsedScreening, i: nat) {
    record.index == i && record.isSoldOut.None?
  }

  lemma ScanningSkip(cfg: Config, initial: seq<ParsedScreening>, stable: bool, records: seq<ParsedScreening>, start: nat,
    selects: nat -> SelectOutcome, fuel: nat, screenings: seq<ListingEntry>, i: nat,
    parsed: seq<ParsedScreening>, selections: nat, steps: nat, record: ParsedScreening)
    requires Scanning(cfg, initial, stable, records, start, selects, fuel, screenings, i, parsed, selections, steps)
    requires i < |screenings| && steps < fuel && Skips(cfg, parsed, record) && (stable ==> records[i] == record)
    ensures Scanning(cfg, initial, stable, records, start, selects, fuel, screenings, i + 1, parsed, selections, steps + 1)
  {
    if stable {
      ScanSkipStep(cfg, initial, records, start, i, selects);
    }
  }

  lemma ScanningAdd(cfg: Config, initial: seq<ParsedScreening>, stable: bool, records: seq<ParsedScreening>, start: nat,
    selects: nat -> SelectOutcome, fuel: nat, screenings: seq<ListingEntry>, i: nat,
    parsed: seq<ParsedScreening>, selections: nat, steps: nat, record: ParsedScreening)
    requires Scanning(cfg, initial, stable, records, start, selects, fuel, screenings, i, parsed, selections, steps)
    requires i < |screenings| && steps < fuel && !Skips(cfg, parsed, record) && (stable ==> records[i] == record)
    requires Unmarked(record, i) && !cfg.selectFilm
    ensures Scanning(cfg, initial, stable, records, start, selects, fuel, screenings, i + 1, parsed + [record], selections, steps + 1)
  {
    AppendKeepsAddedWell(cfg, initial, parsed, record);
    if stable {
      ScanAddStep(cfg, initial, records, start, i, selects);
    }
  }

  lemma ScanningSelect(cfg: Config, initial: seq<ParsedScreening>, stable: bool, records: seq<ParsedScreening>, start: nat,
    selects: nat -> SelectOutcome, fuel: nat, screenings: seq<ListingEntry>, i: nat,
    parsed: seq<ParsedScreening>, selections: nat, steps: nat, record: ParsedScreening, reloaded: seq<ListingEntry>, next: Option<nat>)
    requires Scanning(cfg, initial, stable, records, start, selects, fuel, screenings, i, parsed, selections, steps)
    requires i < |screenings| && steps < fuel && !Skips(cfg, parsed, record) && (stable ==> records[i] == record)
    requires Unmarked(record, i) && cfg.selectFilm
    requires stable ==> reloaded == screenings
    requires next.None? <==> i >= |reloaded|
    requires next.Some? ==> next.value == 0 || next.value == i + 1
    requires stable && next.Some? ==> next.value == i + 1
    ensures var marked := record.(isSoldOut := Reservation.SoldOutFromTicketType(selects(selections).ticketType));
      AddedWell(cfg, initial, parsed + [marked]) && |parsed + [marked]| - |initial| <= steps + 1 &&
      (stable ==> next.Some?) &&
      (next.Some? ==> Scanning(cfg, initial, stable, records, start, selects, fuel, reloaded, next.value, parsed + [marked], selections + 1, steps + 1))
  {
    var marked := record.(isSoldOut := Reservation.SoldOutFromTicketType(selects(selections).ticketType));
    AppendKeepsAddedWell(cfg, initial, parsed, marked);
    if stable {
      ScanAddStep(cfg, initial, records, start, i, selects);
    }
  }

  /**
   * The scan of `run`: `listing(k)` is the listing at its `k`-th load and
   * `selects(k)` what the `k`-th selection meets. `fuel` bounds the number of
   * entries looked at, since a listing that keeps changing restarts the scan
   * forever. `CheckoutFailed` means a selection did not reach checkout: the
   * scan stops there with the record just added unmarked. `Finished` means
   * the scan reached the end of the listing. Over a listing that does not
   * change, with fuel for every entry, the scan does not run out of fuel; when
   * every selection reaches checkout it finishes, and when it finishes it has
   * added exactly the new entries from the resume position on, in listing
   * order (`ScanFindsEveryAdmitted`: every admitted one).
   */
  method Run(cfg: Config, initial: seq<ParsedScreening>, listing: nat -> seq<ListingEntry>,
             selects: nat -> SelectOutcome, fuel: nat)
    returns (parsed: seq<ParsedScreening>, outcome: RunOutcome)
    ensures AddedWell(cfg, initial, parsed)
    ensures |parsed| - |initial| <= fuel
    ensures outcome == CheckoutFailed ==>
      cfg.selectFilm && !AllReachCheckout(selects) && |initial| < |parsed| && parsed[|parsed| - 1].isSoldOut.None?
    ensures Stable(listing, fuel) && AllReachCheckout(selects) ==> outcome == Finished
    ensures Stable(listing, fuel) ==>
      var entries := listing(0);
      outcome != OutOfFuel &&
      (outcome == Finished ==> parsed == ScannedTo(cfg, initial, RecordsOf(entries), ResumeIndex(initial, EntryIds(entries)), |entries|, selects))
  {
    var screenings := listing(0);
    var screeningIndex := ResumeIndex(initial, EntryIds(screenings));
    parsed, outcome := ScanFrom(cfg, initial, listing, selects, fuel, Stable(listing, fuel), screenings, RecordsOf(screenings),
      screenings, screeningIndex, 1);
  }

  /**
   * The scan's loop, from position `start` of the first listing loaded.
   * Over a `stable` listing it reaches the end of `records`.
   */
  method ScanFrom(cfg: Config, initial: seq<ParsedScreening>, listing: nat -> seq<ListingEntry>, selects: nat -> SelectOutcome,
    fuel: nat, ghost stable: bool, ghost entries: seq<ListingEntry>, ghost records: seq<ParsedScreening>,
    screenings: seq<ListingEntry>, start: nat, loads: nat)
    returns (parsed: seq<ParsedScreening>, outcome: RunOutcome)
    requires start <= |screenings|
    requires stable ==> Unchanging(listing) && entries == listing(0) && screenings == entries && records == RecordsOf(entries) && |entries| <= fuel
    ensures AddedWell(cfg, initial, parsed)
    ensures |parsed| - |initial| <= fuel
    ensures outcome == CheckoutFailed ==>
      cfg.selectFilm && !AllReachCheckout(selects) && |initial| < |parsed| && parsed[|parsed| - 1].isSoldOut.None?
    ensures stable ==> outcome != OutOfFuel && (outcome == Finished ==> parsed == ScannedTo(cfg, initial, records, start, |records|, selects))
  {
    parsed := initial;
    var screenings := screenings;
    var screeningIndex: int := start;
    var loads := loads;
    var selections := 0;
    var steps := 0;
    assert stable ==> ScannedTo(cfg, initial, records, start, start, selects) == initial;
    while screeningIndex < |screenings|
      invariant Scanning(cfg, initial, stable, records, start, selects, fuel, screenings, screeningIndex, parsed, selections, steps)
      invariant stable ==> screenings == entries
      decreases fuel - steps
    {
      if steps == fuel {
        return parsed, OutOfFuel;
      }
      var stop;
      screenings, screeningIndex, parsed, selections, loads, stop :=
        ScanEntry(cfg, initial, listing, selects, fuel, stable, entries, records, start, screenings, screeningIndex, parsed, selections, steps, loads);
      steps := steps + 1;
      if stop.Some? {
        return parsed, stop.value;
      }
    }
    return parsed, Finished;
  }

  /**
   * One pass of the scan's loop, at position `i` of `screenings`: the entry
   * is skipped, or added and, when films are selected, selected. `stop` is
   * set when the scan ends here: a failed selection, or a reloaded listing
   * too short to go on.
   */
  method ScanEntry(cfg: Config, initial: seq<ParsedScreening>, listing: nat -> seq<ListingEntry>, selects: nat -> SelectOutcome,
    fuel: nat, ghost stable: bool, ghost entries: seq<ListingEntry>, ghost records: seq<ParsedScreening>, ghost start: nat,
    screenings: seq<ListingEntry>, i: nat, parsed: seq<ParsedScreening>, selections: nat, steps: nat, loads: nat)
    returns (screenings': seq<ListingEntry>, i': int, parsed': seq<ParsedScreening>, selections': nat, loads': nat,
      stop: Option<RunOutcome>)
    requires Scanning(cfg, initial, stable, records, start, selects, fuel, screenings, i, parsed, selections, steps)
    requires i < |screenings| && steps < fuel
    requires stable ==> Unchanging(listing) && entries == listing(0) && screenings == entries && records == RecordsOf(entries)
    ensures stop.None? ==>
      Scanning(cfg, initial, stable, records, start, selects, fuel, screenings', i', parsed', selections', steps + 1) &&
      (stable ==> screenings' == entries)
    ensures stop.Some? ==> AddedWell(cfg, initial, parsed') && |parsed'| - |initial| <= steps + 1
    ensures stop.Some? ==> stop.value == CheckoutFailed || (stop.value == Finished && !stable)
    ensures stop == Some(CheckoutFailed) ==>
      cfg.selectFilm && !AllReachCheckout(selects) && |initial| < |parsed'| && parsed'[|parsed'| - 1].isSoldOut.None?
  {
    var record := RecordOf(screenings[i], i);
    assert Unmarked(record, i) && (stable ==> records[i] == record);
    if Skips(cfg, parsed, record) {
      ScanningSkip(cfg, initial, stable, records, start, selects, fuel, screenings, i, parsed, selections, steps, record);
      return screenings, i + 1, parsed, selections, loads, None;
    }
    if !cfg.selectFilm {
      ScanningAdd(cfg, initial, stable, records, start, selects, fuel, screenings, i, parsed, selections, steps, record);
      return screenings, i + 1, parsed + [record], selections, loads, None;
    }
    screenings', i', parsed', selections', loads', stop :=
      SelectEntry(cfg, initial, listing, selects, fuel, stable, entries, records, start, screenings, i, parsed, selections, steps, loads, record);
  }

  /**
   * The rest of a pass when films are selected: the record is pushed, then
   * marked once its selection shows the ticket type, and the listing is
   * reloaded to find where the scan goes on.
   */
  method SelectEntry(cfg: Config, initial: seq<ParsedScreening>, listing: nat -> seq<ListingEntry>, selects: nat -> SelectOutcome,
    fuel: nat, ghost stable: bool, ghost entries: seq<ListingEntry>, ghost records: seq<ParsedScreening>, ghost start: nat,
    screenings: seq<ListingEntry>, i: nat, parsed: seq<ParsedScreening>, selections: nat, steps: nat, loads: nat,
    record: ParsedScreening)
    returns (screenings': seq<ListingEntry>, i': int, parsed': seq<ParsedScreening>, selections': nat, loads': nat,
      stop: Option<RunOutcome>)
    requires Scanning(cfg, initial, stable, records, start, selects, fuel, screenings, i, parsed, selections, steps)
    requires i < |screenings| && steps < fuel && !Skips(cfg, parsed, record) && (stable ==> records[i] == record)
    requires Unmarked(record, i) && cfg.selectFilm && record.id == EntryId(screenings[i])
    requires stable ==> Unchanging(listing) && entries == listing(0) && screenings == entries
    ensures stop.None? ==>
      Scanning(cfg, initial, stable, records, start, selects, fuel, screenings', i', parsed', selections', steps + 1) &&
      (stable ==> screenings' == entries)
    ensures stop.Some? ==> AddedWell(cfg, initial, parsed') && |parsed'| - |initial| <= steps + 1
    ensures stop.Some? ==> stop.value == CheckoutFailed || (stop.value == Finished && !stable)
    ensures stop == Some(CheckoutFailed) ==>
      cfg.selectFilm && !AllReachCheckout(selects) && |initial| < |parsed'| && parsed'[|parsed'| - 1].isSoldOut.None?
  {
    var selected := selects(selections);
    if !selected.checkoutReached {
      AppendKeepsAddedWell(cfg, initial, parsed, record);
      return screenings, i, parsed + [record], selections + 1, loads, Some(CheckoutFailed);
    }
    var isTicketSoldOut := Reservation.SoldOutFromTicketType(selected.ticketType);
    var reloaded := listing(loads);
    var next := AfterSelect(i, record.id, EntryIds(reloaded));
    assert stable ==> reloaded == entries && EntryIds(reloaded)[i] == record.id;
    ScanningSelect(cfg, initial, stable, records, start, selects, fuel, screenings, i, parsed, selections, steps, record, reloaded, next);
    parsed' := parsed + [record.(isSoldOut := isTicketSoldOut)];
    if next.None? {
      return reloaded, i, parsed', selections + 1, loads + 1, Some(Finished);
    }
    return reloaded, next.value, parsed', selections + 1, loads + 1, None;
  }

  lemma AppendKeepsAddedWell(cfg: Config, initial: seq<ParsedScreening>, parsed: seq<ParsedScreening>, record: ParsedScreening)
    requires AddedWell(cfg, initial, parsed)
    requires Admitted(cfg, record) && record.index >= 0 && !HasId(parsed, record.id)
    requires record.isSoldOut != Some(false) && (record.isSoldOut.Some? ==> cfg.selectFilm)
    ensures AddedWell(cfg, initial, parsed + [record])
  {
    var next := parsed + [record];
    assert next[..|parsed|] == parsed;
    assert next[..|initial|] == parsed[..|initial|];
    forall k | |initial| <= k < |parsed|
      ensures AddedWellAt(cfg, next, k)
    {
      assert next[..k] == parsed[..k] && next[k] == parsed[k] && AddedWellAt(cfg, parsed, k);
    }
  }

  // ---------------------------------------------------------------------
  // The final sort.

  datatype SortKey = ByStart | ByEnd

  function KeyOf(p: ParsedScreening, order: SortKey): int {
    if order == ByStart then p.startTime else p.endTime
  }

  predicate SortedBy(s: seq<ParsedScreening>, order: SortKey) {
    forall i, j | 0 <= i < j < |s| :: KeyOf(s[i], order) <= KeyOf(s[j], order)
  }

  /** Puts `x` in front of the first element with a greater key. */
  function InsertByKey(x: ParsedScreening, s: seq<ParsedScreening>, order: SortKey): (r: seq<ParsedScreening>)
    ensures multiset(r) == multiset(s) + multiset{x}
  {
    if s == [] || KeyOf(x, order) <= KeyOf(s[0], order) then [x] + s
    else
      assert s == [s[0]] + s[1..];
      [s[0]] + InsertByKey(x, s[1..], order)
  }

  /** Inserting into a sorted sequence keeps it sorted. */
  lemma {:induction false} InsertByKeySorted(x: ParsedScreening, s: seq<ParsedScreening>, order: SortKey)
    requires SortedBy(s, order)
    ensures SortedBy(InsertByKey(x, s, order), order)
  {
    if !(s == [] || KeyOf(x, order) <= KeyOf(s[0], order)) {
      var tail := s[1..];
      assert SortedBy(tail, order);
      InsertByKeySorted(x, tail, order);
      var rest := InsertByKey(x, tail, order);
      InsertByKeyHead(x, tail, order);
      assert KeyOf(s[0], order) <= KeyOf(rest[0], order) by {
        if tail != [] {
          assert tail[0] == s[1];
        }
      }
      var r := [s[0]] + rest;
      forall i, j | 0 <= i < j < |r| ensures KeyOf(r[i], order) <= KeyOf(r[j], order) {
        assert r[j] == rest[j - 1];
        if i == 0 {
          assert KeyOf(rest[0], order) <= KeyOf(rest[j - 1], order);
        } else {
          assert r[i] == rest[i - 1];
        }
      }
    }
  }

  /** The inserted sequence starts with `x` or with the old first element. */
  lemma InsertByKeyHead(x: ParsedScreening, s: seq<ParsedScreening>, order: SortKey)
    ensures |InsertByKey(x, s, order)| == |s| + 1
    ensures InsertByKey(x, s, order)[0] == x || (s != [] && InsertByKey(x, s, order)[0] == s[0])
  {
    var r := InsertByKey(x, s, order);
    assert |multiset(r)| == |s| + 1;
  }

  /** `[...parsed].sort(...)` by start or end time: sorted, and a permutation. */
  function SortByKey(s: seq<ParsedScreening>, order: SortKey): (r: seq<ParsedScreening>)
    ensures SortedBy(r, order)
    ensures multiset(r) == multiset(s)
  {
    if s == [] then []
    else
      assert s == [s[0]] + s[1..];
      var sortedTail := SortByKey(s[1..], order);
      InsertByKeySorted(s[0], sortedTail, order);
      InsertByKey(s[0], sortedTail, order)
  }
}
