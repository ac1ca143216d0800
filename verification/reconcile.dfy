/**
 * Catalog reconciliation of backend/src/shared/shared.ts: `refreshProgram`
 * walks the scanned screening listing, stores a record per row, reports rows
 * that became available, stores the program, marks screenings that vanished
 * from the listing as unavailable and grows the set of screenings ever seen;
 * `refreshScreeningInfo` first relocates one screening in the listing.
 * The browser is replaced by `page`, the rows the listing shows, in order.
 */
module Reconcile {
  import opened Wrappers
  import opened JsText
  import opened Seqs
  import opened Store
  import Screening

  /** What the scraper reads from one row of the listing. */
  datatype ScreeningRow = ScreeningRow(
    title: string,
    dateString: string,
    timeRangeString: string,
    location: string,
    startTime: int,
    endTime: int,
    updatedAt: int)

  function RowId(row: ScreeningRow): string {
    Screening.ScreeningId(row.title, row.dateString, row.timeRangeString, row.location)
  }

  /** The record stored for a scanned row; a fresh scan carries no `isUnavailable`. */
  function RowRecord(row: ScreeningRow): BasicInfo {
    BasicInfo(row.title, row.dateString, row.timeRangeString, row.location,
      Screening.IsInParkCity(row.location), Screening.IsInSaltLakeCity(row.location),
      None, row.startTime, row.endTime, row.updatedAt)
  }

  /** The ids of the rows, in listing order. */
  function Ids(page: seq<ScreeningRow>): (ids: seq<string>)
    ensures |ids| == |page|
    ensures forall k | 0 <= k < |page| :: ids[k] == RowId(page[k])
    ensures forall id :: id in ids <==> exists k | 0 <= k < |page| :: RowId(page[k]) == id
  {
    var ids := seq(|page|, k requires 0 <= k < |page| => RowId(page[k]));
    assert forall k | 0 <= k < |page| :: ids[k] == RowId(page[k]);
    ids
  }

  lemma IdsPrefix(page: seq<ScreeningRow>, i: nat)
    requires i <= |page|
    ensures Ids(page[..i]) == Ids(page)[..i]
  {
  }

  /** `!stored || stored.isUnavailable`. */
  predicate MissingOrUnavailable(stored: Option<BasicInfo>) {
    stored.None? || stored.value.isUnavailable == Some(true)
  }

  /** The store after the scan loop has written a record for every row of `page`, in order. */
  function ScanStore(store: Storage, page: seq<ScreeningRow>): Storage
    decreases |page|
  {
    if page == [] then store
    else
      var row := page[|page| - 1];
      ScanStore(store, page[..|page| - 1])[BasicInfoKey(RowId(row)) := JBasic(RowRecord(row))]
  }

  /** The indices of the rows the scan loop reports as newly available, in listing order. */
  function NewlyAvailableIndices(store: Storage, page: seq<ScreeningRow>): (r: seq<nat>)
    ensures forall j | 0 <= j < |r| :: r[j] < |page|
    ensures forall i, j | 0 <= i < j < |r| :: r[i] < r[j]
    decreases |page|
  {
    if page == [] then []
    else
      var n := |page| - 1;
      var before := NewlyAvailableIndices(store, page[..n]);
      before + (if MissingOrUnavailable(BasicInfoIn(ScanStore(store, page[..n]), RowId(page[n]))) then [n] else [])
  }

  /** The titles of the rows at the given indices. */
  function TitlesAt(page: seq<ScreeningRow>, idx: seq<nat>): seq<string>
    requires forall j | 0 <= j < |idx| :: idx[j] < |page|
  {
    seq(|idx|, j requires 0 <= j < |idx| => page[idx[j]].title)
  }

  /** The titles of the newly available rows, each once, in order of first report. */
  function NewlyAvailableTitles(store: Storage, page: seq<ScreeningRow>): seq<string> {
    Dedupe(TitlesAt(page, NewlyAvailableIndices(store, page)))
  }

  /** The record of the last row carrying `id`: the one the scan loop writes last. */
  function LastRecord(page: seq<ScreeningRow>, id: string): BasicInfo
    requires id in Ids(page)
    decreases |page|
  {
    var n := |page| - 1;
    if RowId(page[n]) == id then RowRecord(page[n])
    else
      assert Ids(page) == Ids(page[..n]) + [RowId(page[n])];
      LastRecord(page[..n], id)
  }

  /** A screening that was seen before, is not in the program and is stored as available. */
  predicate IsVanished(store: Storage, seen: set<string>, program: set<string>, id: string) {
    id in seen && id !in program && BasicInfoIn(store, id).Some? && BasicInfoIn(store, id).value.isUnavailable != Some(true)
  }

  predicate IsBasicInfoKey(key: string) {
    |BasicInfoPrefix| <= |key| && key[..|BasicInfoPrefix|] == BasicInfoPrefix
  }

  function KeyId(key: string): string
    requires IsBasicInfoKey(key)
  {
    key[|BasicInfoPrefix|..]
  }

  lemma KeyIdOf(key: string)
    requires IsBasicInfoKey(key)
    ensures key == BasicInfoKey(KeyId(key))
  {
  }

  lemma IsBasicInfoKeyOf(id: string)
    ensures IsBasicInfoKey(BasicInfoKey(id)) && KeyId(BasicInfoKey(id)) == id
  {
  }

  /** The store after the vanished-screening loop: every vanished record is marked unavailable, all else kept. */
  function MarkVanished(store: Storage, seen: set<string>, program: set<string>): (r: Storage)
    ensures r.Keys == store.Keys
    ensures forall k | k in store && !IsBasicInfoKey(k) :: r[k] == store[k]
    ensures forall k | k in store && IsBasicInfoKey(k) && !IsVanished(store, seen, program, KeyId(k)) :: r[k] == store[k]
  {
    map k | k in store ::
      if IsBasicInfoKey(k) && IsVanished(store, seen, program, KeyId(k))
      then JBasic(BasicInfoIn(store, KeyId(k)).value.(isUnavailable := Some(true)))
      else store[k]
  }

  /** The store after `refreshProgram`, except for the order in which the screenings array lists its members. */
  function RefreshedStore(store: Storage, page: seq<ScreeningRow>): Storage {
    var scanned := ScanStore(store, page)[ProgramKey := JStrings(Ids(page))];
    MarkVanished(scanned, ScreeningsIn(scanned), set id | id in Ids(page))
  }

  const NewlyAvailableHeader: string := "Newly available screenings:"

  // ---------------------------------------------------------------------
  // What the scan does to each kind of key.

  lemma {:induction false} ScanStoreBasicInfo(store: Storage, page: seq<ScreeningRow>, id: string)
    ensures id in Ids(page) ==> BasicInfoIn(ScanStore(store, page), id) == Some(LastRecord(page, id))
    ensures id !in Ids(page) ==> BasicInfoIn(ScanStore(store, page), id) == BasicInfoIn(store, id)
    decreases |page|
  {
    if page != [] {
      var n := |page| - 1;
      assert Ids(page) == Ids(page[..n]) + [RowId(page[n])];
      ScanStoreBasicInfo(store, page[..n], id);
      BasicInfoWrite(ScanStore(store, page[..n]), RowId(page[n]), RowRecord(page[n]), id);
    }
  }

  lemma {:induction false} ScanStoreFrame(store: Storage, page: seq<ScreeningRow>, id: string)
    ensures MoreInfoIn(ScanStore(store, page), id) == MoreInfoIn(store, id)
    ensures forall k | IsFixedKey(k) :: StringsAt(ScanStore(store, page), k) == StringsAt(store, k)
    ensures CurrentScreeningIdIn(ScanStore(store, page)) == CurrentScreeningIdIn(store)
    decreases |page|
  {
    if page != [] {
      var n := |page| - 1;
      ScanStoreFrame(store, page[..n], id);
      BasicInfoWrite(ScanStore(store, page[..n]), RowId(page[n]), RowRecord(page[n]), id);
    }
  }

  lemma LastRecordAvailable(page: seq<ScreeningRow>, id: string)
    requires id in Ids(page)
    ensures LastRecord(page, id).isUnavailable == None
    decreases |page|
  {
    var n := |page| - 1;
    if RowId(page[n]) != id {
      assert Ids(page) == Ids(page[..n]) + [RowId(page[n])];
      LastRecordAvailable(page[..n], id);
    }
  }

  /**
   * A scanned row is reported as newly available iff it is the first row with
   * its id in this scan and the record stored for that id before the scan was
   * missing or marked unavailable. (A repeated id finds the record the scan
   * itself just wrote, which carries no `isUnavailable`.)
   */
  lemma {:induction false} NewlyAvailableExactly(store: Storage, page: seq<ScreeningRow>, k: nat)
    ensures k in NewlyAvailableIndices(store, page) <==>
      k < |page| && RowId(page[k]) !in Ids(page[..k]) && MissingOrUnavailable(BasicInfoIn(store, RowId(page[k])))
    decreases |page|
  {
    if page != [] {
      var n := |page| - 1;
      var prefix := page[..n];
      var before := NewlyAvailableIndices(store, prefix);
      assert NewlyAvailableIndices(store, page) == before +
        if MissingOrUnavailable(BasicInfoIn(ScanStore(store, prefix), RowId(page[n]))) then [n] else [];
      if k < n {
        NewlyAvailableExactly(store, prefix, k);
        assert prefix[k] == page[k];
        assert prefix[..k] == page[..k];
      } else if k == n {
        assert prefix == page[..k];
        NewlyAvailableLast(store, page);
      }
    }
  }

  /** The last row of a scan is reported iff its id is new to the scan and stored as missing or unavailable. */
  lemma NewlyAvailableLast(store: Storage, page: seq<ScreeningRow>)
    requires page != []
    ensures var n := |page| - 1;
      MissingOrUnavailable(BasicInfoIn(ScanStore(store, page[..n]), RowId(page[n]))) <==>
      RowId(page[n]) !in Ids(page[..n]) && MissingOrUnavailable(BasicInfoIn(store, RowId(page[n])))
  {
    var n := |page| - 1;
    var id := RowId(page[n]);
    ScanStoreBasicInfo(store, page[..n], id);
    if id in Ids(page[..n]) {
      LastRecordAvailable(page[..n], id);
    }
  }

  /** A title is announced iff some row with that title is newly available. */
  lemma NewlyAvailableTitleMembership(store: Storage, page: seq<ScreeningRow>, title: string)
    ensures title in NewlyAvailableTitles(store, page) <==>
      exists k: nat :: k < |page| && page[k].title == title &&
        RowId(page[k]) !in Ids(page[..k]) && MissingOrUnavailable(BasicInfoIn(store, RowId(page[k])))
  {
    var titles := TitlesAt(page, NewlyAvailableIndices(store, page));
    assert title in NewlyAvailableTitles(store, page) <==> title in titles;
    if title in titles {
      AnnouncedTitleHasRow(store, page, title);
    }
    if exists k: nat :: k < |page| && page[k].title == title &&
        RowId(page[k]) !in Ids(page[..k]) && MissingOrUnavailable(BasicInfoIn(store, RowId(page[k]))) {
      var k: nat :| k < |page| && page[k].title == title &&
        RowId(page[k]) !in Ids(page[..k]) && MissingOrUnavailable(BasicInfoIn(store, RowId(page[k])));
      NewRowIsAnnounced(store, page, k);
    }
  }

  lemma AnnouncedTitleHasRow(store: Storage, page: seq<ScreeningRow>, title: string)
    requires title in TitlesAt(page, NewlyAvailableIndices(store, page))
    ensures exists k: nat :: (k < |page| && page[k].title == title &&
      RowId(page[k]) !in Ids(page[..k]) && MissingOrUnavailable(BasicInfoIn(store, RowId(page[k]))))
  {
    var idx := NewlyAvailableIndices(store, page);
    var titles := TitlesAt(page, idx);
    var j :| 0 <= j < |titles| && titles[j] == title;
    NewlyAvailableExactly(store, page, idx[j]);
  }

  lemma NewRowIsAnnounced(store: Storage, page: seq<ScreeningRow>, k: nat)
    requires k < |page| && RowId(page[k]) !in Ids(page[..k]) && MissingOrUnavailable(BasicInfoIn(store, RowId(page[k])))
    ensures page[k].title in TitlesAt(page, NewlyAvailableIndices(store, page))
  {
    var idx := NewlyAvailableIndices(store, page);
    NewlyAvailableExactly(store, page, k);
    var j :| 0 <= j < |idx| && idx[j] == k;
    assert TitlesAt(page, idx)[j] == page[k].title;
  }

  /** Announced titles keep the order in which they were first reported. */
  lemma {:induction false} DedupeKeepsFirstOccurrenceOrder(s: seq<string>)
    ensures forall i, j | 0 <= i < j < |Dedupe(s)| :: IndexOf(s, Dedupe(s)[i]) < IndexOf(s, Dedupe(s)[j])
    decreases |s|
  {
    if s != [] {
      var prefix, last := s[..|s| - 1], s[|s| - 1];
      assert s == prefix + [last];
      DedupeKeepsFirstOccurrenceOrder(prefix);
      var d := Dedupe(prefix);
      forall x | x in prefix
        ensures IndexOf(s, x) == IndexOf(prefix, x)
      {
        IndexOfSnoc(prefix, last, x);
      }
      if last !in prefix {
        IndexOfSnoc(prefix, last, last);
      }
    }
  }

  lemma IndexOfSnoc(list: seq<string>, y: string, x: string)
    ensures x in list ==> IndexOf(list + [y], x) == IndexOf(list, x)
    ensures x !in list && x == y ==> IndexOf(list + [y], x) == |list|
  {
    var r := IndexOf(list + [y], x);
    if x in list {
      assert (list + [y])[IndexOf(list, x)] == x;
    } else if x == y {
      assert (list + [y])[|list|] == x;
    }
  }

  /** What happens to each screening's record: rescanned, marked vanished, or kept. */
  lemma {:induction false} RefreshedBasicInfo(store: Storage, page: seq<ScreeningRow>, id: string)
    ensures BasicInfoIn(RefreshedStore(store, page), id) ==
      if id in Ids(page) then Some(LastRecord(page, id))
      else if id in ScreeningsIn(store) && BasicInfoIn(store, id).Some? && BasicInfoIn(store, id).value.isUnavailable != Some(true)
      then Some(BasicInfoIn(store, id).value.(isUnavailable := Some(true)))
      else BasicInfoIn(store, id)
  {
    var scanned := ScanStore(store, page)[ProgramKey := JStrings(Ids(page))];
    var program := set x | x in Ids(page);
    ScanStoreBasicInfo(store, page, id);
    ScanStoreFrame(store, page, id);
    KeysDisjoint(id, id);
    assert ScreeningsIn(scanned) == ScreeningsIn(store) by {
      assert StringsAt(scanned, ScreeningsKey) == StringsAt(ScanStore(store, page), ScreeningsKey);
    }
    assert BasicInfoIn(scanned, id) == BasicInfoIn(ScanStore(store, page), id);
    MarkVanishedBasicInfo(scanned, ScreeningsIn(scanned), program, id);
    if id in Ids(page) {
      assert id in program;
    }
  }

  lemma MarkVanishedBasicInfo(store: Storage, seen: set<string>, program: set<string>, id: string)
    ensures BasicInfoIn(MarkVanished(store, seen, program), id) ==
      if IsVanished(store, seen, program, id) then Some(BasicInfoIn(store, id).value.(isUnavailable := Some(true)))
      else BasicInfoIn(store, id)
  {
    IsBasicInfoKeyOf(id);
  }

  lemma MarkVanishedFrame(store: Storage, seen: set<string>, program: set<string>, k: string)
    requires !IsBasicInfoKey(k)
    ensures k in MarkVanished(store, seen, program) <==> k in store
    ensures k in store ==> MarkVanished(store, seen, program)[k] == store[k]
  {
  }

  /** Everything but basic-info records and the two program keys survives a refresh. */
  lemma {:induction false} RefreshedFrame(store: Storage, page: seq<ScreeningRow>, id: string)
    ensures ProgramIn(RefreshedStore(store, page)) == Ids(page)
    ensures ScreeningsIn(RefreshedStore(store, page)) == ScreeningsIn(store)
    ensures ScannedScreeningsIn(RefreshedStore(store, page)) == ScannedScreeningsIn(store)
    ensures MoreInfoIn(RefreshedStore(store, page), id) == MoreInfoIn(store, id)
    ensures CurrentScreeningIdIn(RefreshedStore(store, page)) == CurrentScreeningIdIn(store)
  {
    var scanned := ScanStore(store, page)[ProgramKey := JStrings(Ids(page))];
    var program := set x | x in Ids(page);
    ScanStoreFrame(store, page, id);
    assert ScreeningsKey[0] == 's' && ScannedScreeningsKey[0] == 's' && ProgramKey[0] == 'p' && CurrentScreeningIdKey[0] == 'c';
    assert MoreInfoKey(id)[0] == 'm';
    assert BasicInfoPrefix[0] == 'b';
    MarkVanishedFrame(scanned, ScreeningsIn(scanned), program, ProgramKey);
    MarkVanishedFrame(scanned, ScreeningsIn(scanned), program, ScreeningsKey);
    MarkVanishedFrame(scanned, ScreeningsIn(scanned), program, ScannedScreeningsKey);
    MarkVanishedFrame(scanned, ScreeningsIn(scanned), program, CurrentScreeningIdKey);
    MarkVanishedFrame(scanned, ScreeningsIn(scanned), program, MoreInfoKey(id));
  }

  /** One more screening handled by the vanished-screening loop. */
  lemma MarkVanishedStep(store: Storage, done: set<string>, program: set<string>, id: string)
    requires id !in done
    ensures BasicInfoIn(MarkVanished(store, done, program), id) == BasicInfoIn(store, id)
    ensures MarkVanished(store, done + {id}, program) ==
      if IsVanished(store, {id}, program, id)
      then MarkVanished(store, done, program)[BasicInfoKey(id) := JBasic(BasicInfoIn(store, id).value.(isUnavailable := Some(true)))]
      else MarkVanished(store, done, program)
  {
    MarkVanishedBasicInfo(store, done, program, id);
    var before := MarkVanished(store, done, program);
    var after := MarkVanished(store, done + {id}, program);
    forall k | k in store
      ensures after[k] == if IsVanished(store, {id}, program, id) && k == BasicInfoKey(id)
        then JBasic(BasicInfoIn(store, id).value.(isUnavailable := Some(true))) else before[k]
    {
      if IsBasicInfoKey(k) {
        KeyIdOf(k);
        KeysInjective(KeyId(k), id);
      }
      IsBasicInfoKeyOf(id);
    }
    if IsVanished(store, {id}, program, id) {
      assert BasicInfoKey(id) in store;
    }
  }

  /** One more row handled by the scan loop: what the three loop-carried values become. */
  lemma ScanStep(store: Storage, page: seq<ScreeningRow>, i: nat)
    requires i < |page|
    ensures Ids(page[..i + 1]) == Ids(page[..i]) + [RowId(page[i])]
    ensures ScanStore(store, page[..i + 1]) == ScanStore(store, page[..i])[BasicInfoKey(RowId(page[i])) := JBasic(RowRecord(page[i]))]
    ensures NewlyAvailableIndices(store, page[..i + 1]) == NewlyAvailableIndices(store, page[..i]) +
      if MissingOrUnavailable(BasicInfoIn(ScanStore(store, page[..i]), RowId(page[i]))) then [i] else []
  {
    assert page[..i + 1][..i] == page[..i] && page[..i + 1][i] == page[i];
  }

  lemma TitlesAtSnoc(page: seq<ScreeningRow>, idx: seq<nat>, i: nat)
    requires i < |page| && forall j | 0 <= j < |idx| :: idx[j] < |page|
    ensures TitlesAt(page, idx + [i]) == TitlesAt(page, idx) + [page[i].title]
  {
  }

  /** The scan loop of `refreshProgram`: stores every row and collects the titles of newly available ones. */
  method ScanListing(db: Db, page: seq<ScreeningRow>) returns (program: seq<string>, newlyTitles: seq<string>)
    modifies db
    ensures program == Ids(page)
    ensures db.store == ScanStore(old(db.store), page)
    ensures newlyTitles == TitlesAt(page, NewlyAvailableIndices(old(db.store), page))
  {
    ghost var start := db.store;
    program := [];
    newlyTitles := [];
    var i := 0;
    while i < |page|
      invariant 0 <= i <= |page|
      invariant program == Ids(page[..i])
      invariant db.store == ScanStore(start, page[..i])
      invariant newlyTitles == TitlesAt(page, NewlyAvailableIndices(start, page[..i]))
    {
      var row := page[i];
      var id := RowId(row);
      var stored := db.ScreeningBasicInfo(id);
      ScanStep(start, page, i);
      if stored.None? || stored.value.isUnavailable == Some(true) {
        TitlesAtSnoc(page, NewlyAvailableIndices(start, page[..i]), i);
        newlyTitles := newlyTitles + [row.title];
      }
      db.SetScreeningBasicInfo(id, RowRecord(row));
      program := program + [id];
      i := i + 1;
    }
    assert page[..|page|] == page;
  }

  /** The vanished-screening loop of `refreshProgram`, over every screening seen so far. */
  method MarkVanishedScreenings(db: Db, programSet: set<string>) returns (seen: set<string>)
    modifies db
    ensures seen == ScreeningsIn(old(db.store))
    ensures db.store == MarkVanished(old(db.store), seen, programSet)
  {
    ghost var start := db.store;
    seen := db.Screenings();
    var pending := seen;
    ghost var done: set<string> := {};
    while pending != {}
      invariant done + pending == seen && done !! pending
      invariant db.store == MarkVanished(start, done, programSet)
      decreases |pending|
    {
      var id :| id in pending;
      MarkVanishedStep(start, done, programSet, id);
      if id !in programSet {
        var stored := db.ScreeningBasicInfo(id);
        if stored.Some? && stored.value.isUnavailable != Some(true) {
          db.SetScreeningBasicInfo(id, stored.value.(isUnavailable := Some(true)));
        }
      }
      pending := pending - {id};
      done := done + {id};
    }
  }

  /**
   * `refreshProgram` over the rows of the listing. Returns the program and the
   * notification it sends, if any (header and titles).
   */
  method RefreshProgram(db: Db, page: seq<ScreeningRow>) returns (program: seq<string>, notice: Option<(string, seq<string>)>)
    modifies db
    ensures program == Ids(page)
    ensures ScreeningsKey in db.store
    ensures db.store == RefreshedStore(old(db.store), page)[ScreeningsKey := db.store[ScreeningsKey]]
    ensures db.Screenings() == old(db.Screenings()) + set id | id in program
    ensures notice == NewlyAvailableNotice(old(db.store), page)
  {
    ghost var start := db.store;
    var newlyTitles;
    program, newlyTitles := ScanListing(db, page);
    var titles := Dedupe(newlyTitles);
    notice := if titles == [] then None else Some((NewlyAvailableHeader, titles));

    db.SetProgram(program);
    var programSet := set x | x in program;
    ghost var mid := db.store;
    assert ScreeningsIn(mid) == ScreeningsIn(start) by {
      ScanStoreFrame(start, page, "");
      assert StringsAt(mid, ScreeningsKey) == StringsAt(ScanStore(start, page), ScreeningsKey);
    }
    var newScreenings := MarkVanishedScreenings(db, programSet);
    db.SetScreenings(newScreenings + programSet);
  }

  /** The `sendMyselfTweet` call of `refreshProgram`, if any: the header and the newly available titles. */
  function NewlyAvailableNotice(store: Storage, page: seq<ScreeningRow>): Option<(string, seq<string>)> {
    var titles := NewlyAvailableTitles(store, page);
    if titles == [] then None else Some((NewlyAvailableHeader, titles))
  }

  /** The program's index for the id is still in range of the listing and the row there has that id. */
  predicate CacheHit(program: seq<string>, pageIds: seq<string>, id: string) {
    var i := IndexOf(program, id);
    0 <= i < |pageIds| && pageIds[i] == id
  }

  /**
   * The index `refreshScreeningInfo` settles on: the stored program's index when
   * the listing confirms it, otherwise the index in the freshly scanned program.
   */
  function RelocatedIndex(program: seq<string>, pageIds: seq<string>, id: string): (r: int)
    ensures r == -1 <==> id !in pageIds
    ensures r != -1 ==> 0 <= r < |pageIds| && pageIds[r] == id
  {
    if CacheHit(program, pageIds, id) then IndexOf(program, id) else IndexOf(pageIds, id)
  }

  /** With a current program the relocation finds the first row carrying the id. */
  lemma RelocationWithCurrentProgram(pageIds: seq<string>, id: string)
    ensures RelocatedIndex(pageIds, pageIds, id) == IndexOf(pageIds, id)
  {
  }

  /**
   * The store the relocation step leaves: untouched when the stored program's
   * index is confirmed, otherwise refreshed by `refreshProgram`, with the
   * stored screening set grown by the listing's ids.
   */
  ghost predicate Located(before: Storage, after: Storage, program: seq<string>, page: seq<ScreeningRow>, id: string) {
    if CacheHit(program, Ids(page), id) then after == before
    else (ScreeningsKey in after && after == RefreshedStore(before, page)[ScreeningsKey := after[ScreeningsKey]] &&
      ScreeningsIn(after) == ScreeningsIn(before) + (set x | x in Ids(page)))
  }

  /** Relocation never touches a more-info record. */
  lemma LocatedKeepsMoreInfo(before: Storage, after: Storage, program: seq<string>, page: seq<ScreeningRow>, id: string, other: string)
    requires Located(before, after, program, page, id)
    ensures MoreInfoIn(after, other) == MoreInfoIn(before, other)
  {
    if !CacheHit(program, Ids(page), id) {
      RefreshedFrame(before, page, other);
      KeysDisjoint(other, other);
    }
  }

  /**
   * The relocation step of `refreshScreeningInfo`: finds the index of the
   * screening in the listing, refreshing the whole program when the stored
   * index is not confirmed. `screeningIndex == -1` means the screening is no
   * longer listed (not an error).
   */
  method LocateScreening(db: Db, page: seq<ScreeningRow>, screeningId: string)
    returns (screeningIndex: int, refreshedProgram: bool, notice: Option<(string, seq<string>)>)
    modifies db
    ensures screeningIndex == RelocatedIndex(old(db.Program()), Ids(page), screeningId)
    ensures refreshedProgram <==> !CacheHit(old(db.Program()), Ids(page), screeningId)
    ensures notice == if refreshedProgram then NewlyAvailableNotice(old(db.store), page) else None
    ensures Located(old(db.store), db.store, old(db.Program()), page, screeningId)
  {
    var program := db.Program();
    refreshedProgram := false;
    notice := None;
    screeningIndex := IndexOf(program, screeningId);
    if screeningIndex >= |page| || screeningIndex < 0 {
      screeningIndex := -1;
    } else if RowId(page[screeningIndex]) != screeningId {
      screeningIndex := -1;
    }
    if screeningIndex == -1 {
      program, notice := RefreshProgram(db, page);
      refreshedProgram := true;
      screeningIndex := IndexOf(program, screeningId);
    }
  }
}
