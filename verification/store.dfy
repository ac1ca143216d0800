/**
 * The typed store of backend/src/shared/db.ts: class `Db` over a key-value
 * store. The JSON file behind it becomes an in-memory map from keys to stored
 * values; each entity kind lives under its own key, or under a per-id key with
 * a kind prefix (`basicInfo-<id>`, `moreInfo-<id>`).
 */
module Store {
  import opened Wrappers
  import opened JsText

  /** `ScreeningBasicInfo`: what one row of the screening listing says. Times are opaque instants. */
  datatype BasicInfo = BasicInfo(
    title: string,
    dateString: string,
    timeRangeString: string,
    location: string,
    isInParkCity: bool,
    isInSaltLakeCity: bool,
    isUnavailable: Option<bool>,
    startTime: int,
    endTime: int,
    updatedAt: int)

  /** `ScreeningMoreInfo`: screening type and ticket bookkeeping of one screening. */
  datatype MoreInfo = MoreInfo(
    screeningType: string,
    isPremiere: bool,
    isSecondScreening: bool,
    ticketType: Option<string>,
    isSoldOut: Option<bool>,
    ticketsPurchased: Option<int>,
    ticketsRemaining: Option<int>,
    updatedAt: int)

  /** A value as the store holds it. */
  datatype Json =
    | JStrings(items: seq<string>)
    | JString(text: string)
    | JUndefined
    | JBasic(basic: BasicInfo)
    | JMore(more: MoreInfo)

  type Storage = map<string, Json>

  const ProgramKey: string := "program"
  const ScreeningsKey: string := "screenings"
  const CurrentScreeningIdKey: string := "currentScreeningId"
  const ScannedScreeningsKey: string := "scannedScreenings"
  const BasicInfoPrefix: string := "basicInfo-"
  const MoreInfoPrefix: string := "moreInfo-"

  function BasicInfoKey(screeningId: string): string {
    BasicInfoPrefix + screeningId
  }

  function MoreInfoKey(screeningId: string): string {
    MoreInfoPrefix + screeningId
  }

  predicate IsFixedKey(key: string) {
    key == ProgramKey || key == ScreeningsKey || key == CurrentScreeningIdKey || key == ScannedScreeningsKey
  }

  /** The string list under `key`, or `[]` when none is stored (`get(key) || []`). */
  function StringsAt(store: Storage, key: string): seq<string> {
    if key in store && store[key].JStrings? then store[key].items else []
  }

  function ProgramIn(store: Storage): seq<string> {
    StringsAt(store, ProgramKey)
  }

  /** The screenings array read back as a set (`new Set(get(key) || [])`). */
  function ScreeningsIn(store: Storage): set<string> {
    set x | x in StringsAt(store, ScreeningsKey)
  }

  function ScannedScreeningsIn(store: Storage): seq<string> {
    StringsAt(store, ScannedScreeningsKey)
  }

  function CurrentScreeningIdIn(store: Storage): Option<string> {
    if CurrentScreeningIdKey in store && store[CurrentScreeningIdKey].JString?
    then Some(store[CurrentScreeningIdKey].text) else None
  }

  function BasicInfoIn(store: Storage, screeningId: string): Option<BasicInfo> {
    var key := BasicInfoKey(screeningId);
    if key in store && store[key].JBasic? then Some(store[key].basic) else None
  }

  function MoreInfoIn(store: Storage, screeningId: string): Option<MoreInfo> {
    var key := MoreInfoKey(screeningId);
    if key in store && store[key].JMore? then Some(store[key].more) else None
  }

  /** Per-kind keys are injective in the id. */
  lemma {:induction false} KeysInjective(a: string, b: string)
    ensures BasicInfoKey(a) == BasicInfoKey(b) ==> a == b
    ensures MoreInfoKey(a) == MoreInfoKey(b) ==> a == b
  {
    assert BasicInfoKey(a)[|BasicInfoPrefix|..] == a && BasicInfoKey(b)[|BasicInfoPrefix|..] == b;
    assert MoreInfoKey(a)[|MoreInfoPrefix|..] == a && MoreInfoKey(b)[|MoreInfoPrefix|..] == b;
  }

  /** Keys of different kinds never collide, and no per-id key is one of the fixed keys. */
  lemma {:induction false} KeysDisjoint(a: string, b: string)
    ensures BasicInfoKey(a) != MoreInfoKey(b)
    ensures !IsFixedKey(BasicInfoKey(a)) && !IsFixedKey(MoreInfoKey(b))
  {
    assert BasicInfoKey(a)[0] == 'b';
    assert MoreInfoKey(b)[0] == 'm';
    assert ProgramKey[0] == 'p' && ScreeningsKey[0] == 's' && CurrentScreeningIdKey[0] == 'c' && ScannedScreeningsKey[0] == 's';
  }

  /** Nothing is stored yet: every getter gives its default. */
  lemma EmptyStoreDefaults(screeningId: string)
    ensures ProgramIn(map[]) == [] && ScreeningsIn(map[]) == {} && ScannedScreeningsIn(map[]) == []
    ensures CurrentScreeningIdIn(map[]) == None
    ensures BasicInfoIn(map[], screeningId) == None && MoreInfoIn(map[], screeningId) == None
  {
  }

  /**
   * Writing one id's basic info makes it read back whole (no field merge) and
   * leaves every other id's basic info, every more-info record and every fixed
   * key as it was.
   */
  lemma {:induction false} BasicInfoWrite(store: Storage, screeningId: string, info: BasicInfo, other: string)
    ensures BasicInfoIn(store[BasicInfoKey(screeningId) := JBasic(info)], screeningId) == Some(info)
    ensures other != screeningId ==>
      BasicInfoIn(store[BasicInfoKey(screeningId) := JBasic(info)], other) == BasicInfoIn(store, other)
    ensures MoreInfoIn(store[BasicInfoKey(screeningId) := JBasic(info)], other) == MoreInfoIn(store, other)
    ensures forall k | IsFixedKey(k) :: StringsAt(store[BasicInfoKey(screeningId) := JBasic(info)], k) == StringsAt(store, k)
    ensures CurrentScreeningIdIn(store[BasicInfoKey(screeningId) := JBasic(info)]) == CurrentScreeningIdIn(store)
  {
    KeysInjective(screeningId, other);
    KeysDisjoint(screeningId, other);
  }

  /** The same for more info. */
  lemma {:induction false} MoreInfoWrite(store: Storage, screeningId: string, info: MoreInfo, other: string)
    ensures MoreInfoIn(store[MoreInfoKey(screeningId) := JMore(info)], screeningId) == Some(info)
    ensures other != screeningId ==>
      MoreInfoIn(store[MoreInfoKey(screeningId) := JMore(info)], other) == MoreInfoIn(store, other)
    ensures BasicInfoIn(store[MoreInfoKey(screeningId) := JMore(info)], other) == BasicInfoIn(store, other)
    ensures forall k | IsFixedKey(k) :: StringsAt(store[MoreInfoKey(screeningId) := JMore(info)], k) == StringsAt(store, k)
    ensures CurrentScreeningIdIn(store[MoreInfoKey(screeningId) := JMore(info)]) == CurrentScreeningIdIn(store)
  {
    KeysInjective(screeningId, other);
    KeysDisjoint(other, screeningId);
  }

  /**
   * `Array.from(set)`: the members of `s`, each once. (JavaScript lists them in
   * insertion order; the model keeps only which members there are.)
   */
  method ArrayFrom(s: set<string>) returns (items: seq<string>)
    ensures forall x :: x in items <==> x in s
    ensures |items| == |s|
    ensures forall i, j | 0 <= i < j < |items| :: items[i] != items[j]
  {
    items := [];
    var rest := s;
    while rest != {}
      invariant forall x :: x in s <==> x in items || x in rest
      invariant forall x | x in items :: x !in rest
      invariant |items| + |rest| == |s|
      invariant forall i, j | 0 <= i < j < |items| :: items[i] != items[j]
      decreases |rest|
    {
      var x :| x in rest;
      items := items + [x];
      rest := rest - {x};
    }
  }

  /** Class `Db`: the store object all of the core reads and writes. */
  class Db {
    var store: Storage

    /** A store with nothing in it. */
    constructor ()
      ensures store == map[]
    {
      store := map[];
    }

    function Program(): seq<string>
      reads this
    {
      ProgramIn(store)
    }

    method SetProgram(program: seq<string>)
      modifies this
      ensures store == old(store)[ProgramKey := JStrings(program)]
      ensures Program() == program
    {
      store := store[ProgramKey := JStrings(program)];
    }

    function Screenings(): set<string>
      reads this
    {
      ScreeningsIn(store)
    }

    /** Stores the set as an array; reading it back gives the same members. */
    method SetScreenings(screenings: set<string>)
      modifies this
      ensures ScreeningsKey in store && store[ScreeningsKey].JStrings?
      ensures store == old(store)[ScreeningsKey := store[ScreeningsKey]]
      ensures Screenings() == screenings
    {
      var items := ArrayFrom(screenings);
      store := store[ScreeningsKey := JStrings(items)];
      assert StringsAt(store, ScreeningsKey) == items;
    }

    function CurrentScreeningId(): Option<string>
      reads this
    {
      CurrentScreeningIdIn(store)
    }

    method SetCurrentScreeningId(screeningId: Option<string>)
      modifies this
      ensures store == old(store)[CurrentScreeningIdKey := if screeningId.Some? then JString(screeningId.value) else JUndefined]
      ensures CurrentScreeningId() == screeningId
    {
      store := store[CurrentScreeningIdKey := if screeningId.Some? then JString(screeningId.value) else JUndefined];
    }

    function ScannedScreenings(): seq<string>
      reads this
    {
      ScannedScreeningsIn(store)
    }

    method SetScannedScreenings(screenings: seq<string>)
      modifies this
      ensures store == old(store)[ScannedScreeningsKey := JStrings(screenings)]
      ensures ScannedScreenings() == screenings
    {
      store := store[ScannedScreeningsKey := JStrings(screenings)];
    }

    function ScreeningBasicInfo(screeningId: string): Option<BasicInfo>
      reads this
    {
      BasicInfoIn(store, screeningId)
    }

    method SetScreeningBasicInfo(screeningId: string, info: BasicInfo)
      modifies this
      ensures store == old(store)[BasicInfoKey(screeningId) := JBasic(info)]
    {
      store := store[BasicInfoKey(screeningId) := JBasic(info)];
    }

    function ScreeningMoreInfo(screeningId: string): Option<MoreInfo>
      reads this
    {
      MoreInfoIn(store, screeningId)
    }

    method SetScreeningMoreInfo(screeningId: string, info: MoreInfo)
      modifies this
      ensures store == old(store)[MoreInfoKey(screeningId) := JMore(info)]
    {
      store := store[MoreInfoKey(screeningId) := JMore(info)];
    }
  }
}
