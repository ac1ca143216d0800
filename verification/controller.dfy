/**
 * The request handlers of backend/src/controllers/MainController.ts that
 * hold logic of their own: the operation-lock bracketing of the browser
 * handlers, the purchase integrity check, the `running-main` switch and the
 * needle lists of the screenings query. The browser work inside the
 * handlers is the rest of this model.
 */
module Controller {
  import opened Wrappers
  import opened Seqs
  import opened Search
  import opened Store
  import opened OpLock
  import Screening
  import Reconcile
  import Reservation
  import Queries

  // ---------------------------------------------------------------------
  // Lock bracketing.

  datatype Handler =
    | RefreshCategoriesHandler
    | RefreshFilmsHandler
    | RefreshFilmInfoHandler
    | RefreshProgramHandler
    | RefreshScreeningHandler
    | PurchaseTicketsHandler
    | ClearCartHandler

  /** The handlers that take the operation lock. */
  predicate TakesLock(h: Handler) {
    h.RefreshProgramHandler? || h.RefreshScreeningHandler? || h.PurchaseTicketsHandler? || h.ClearCartHandler?
  }

  /**
   * The lock calls one handler makes once its browser exists: `startOp`
   * first in the `try`, `endOp` in the `finally`, so also when the work fails.
   */
  function HandlerEvents(h: Handler, t: Ticket): (events: seq<Event>)
    ensures |events| == 0 || |events| == 2
  {
    if TakesLock(h) then [Start(t), End] else []
  }

  /** The lock calls of handlers served one after the other, with tickets `ts`. */
  function SequentialEvents(hs: seq<Handler>, ts: seq<Ticket>): seq<Event>
    requires |hs| == |ts|
    decreases |hs|
  {
    if hs == [] then [] else HandlerEvents(hs[0], ts[0]) + SequentialEvents(hs[1..], ts[1..])
  }

  lemma {:induction false} RunAppend(s: LockState, a: seq<Event>, b: seq<Event>)
    ensures Run(s, a + b).final == Run(Run(s, a).final, b).final
    decreases |a|
  {
    if a == [] {
      assert a + b == b;
    } else {
      assert (a + b)[0] == a[0] && (a + b)[1..] == a[1..] + b;
      match a[0]
      case Start(t) =>
        RunAppend(StartStep(s, t), a[1..], b);
        assert Run(s, a + b).final == Run(StartStep(s, t), a[1..] + b).final;
        assert Run(s, a).final == Run(StartStep(s, t), a[1..]).final;
      case End =>
        RunAppend(EndStep(s).0, a[1..], b);
        assert Run(s, a + b).final == Run(EndStep(s).0, a[1..] + b).final;
        assert Run(s, a).final == Run(EndStep(s).0, a[1..]).final;
    }
  }

  /** One bracketed operation: a `startOp` followed by its `endOp`. */
  lemma StartThenEnd(s: LockState, t: Ticket)
    ensures Run(s, [Start(t), End]).final == EndStep(StartStep(s, t)).0
  {
    var events := [Start(t), End];
    assert events[1..] == [End] && events[1..][1..] == [];
    var mid := StartStep(s, t);
    assert Run(mid, [End]).final == Run(EndStep(mid).0, []).final;
    assert Run(s, events).final == Run(mid, [End]).final;
  }

  /**
   * A handler served while nothing else runs leaves the lock as it found
   * it, resuming nobody; the other handlers never touch it.
   */
  lemma HandlerLeavesLockIdle(h: Handler, t: Ticket)
    ensures Run(Idle, HandlerEvents(h, t)) == Trace(Idle, [], [])
    ensures !TakesLock(h) ==> HandlerEvents(h, t) == []
  {
    if TakesLock(h) {
      var events := [Start(t), End];
      assert events[1..] == [End] && events[1..][1..] == [];
      assert Run(LockState(1, []), [End]) == Trace(Idle, [], []);
    }
  }

  /** Any number of handlers served one after the other leave the lock idle. */
  lemma {:induction false} SequentialHandlersLeaveLockIdle(hs: seq<Handler>, ts: seq<Ticket>)
    requires |hs| == |ts|
    ensures Run(Idle, SequentialEvents(hs, ts)).final == Idle
    decreases |hs|
  {
    if hs != [] {
      RunAppend(Idle, HandlerEvents(hs[0], ts[0]), SequentialEvents(hs[1..], ts[1..]));
      HandlerLeavesLockIdle(hs[0], ts[0]);
      SequentialHandlersLeaveLockIdle(hs[1..], ts[1..]);
    }
  }

  /** `state.runningMain = value === 'true'`. */
  method SetRunningMain(state: SharedState, value: string)
    modifies state
    ensures state.runningMain == (value == "true")
    ensures state.Lock() == old(state.Lock()) && state.screeningIndex == old(state.screeningIndex)
  {
    state.runningMain := value == "true";
  }

  // ---------------------------------------------------------------------
  // Purchase.

  const UnableToPurchase: string := "Unable to purchase tickets"

  /** `ticketsPurchased ?? 0` of a record that may be missing. */
  function PurchasedIn(info: Option<MoreInfo>): int {
    if info.Some? then info.value.ticketsPurchased.GetOr(0) else 0
  }

  /** The integrity check: the reported count must be the original count plus the quantity. */
  function PurchaseCheck(originalPurchased: int, reported: Option<MoreInfo>, quantity: int): (r: Result<(), string>)
    ensures r.Ok? <==> PurchasedIn(reported) == originalPurchased + quantity
    ensures r.Err? ==> r.error == UnableToPurchase
  {
    if PurchasedIn(reported) != originalPurchased + quantity then Err(UnableToPurchase) else Ok(())
  }

  /**
   * The check agrees with the reservation flow: a buy that went through
   * passes it, and for a non-zero quantity a flow that bought nothing fails it.
   */
  lemma PurchaseCheckMatchesFlow(stored: Option<MoreInfo>, screeningId: string, title: string, kind: Screening.ScreeningKind,
    quantity: int, checkoutOpen: bool, page: Reservation.CheckoutPage, now: int)
    ensures var d := Reservation.DetailsAfter(stored, screeningId, title, kind, Some(quantity), checkoutOpen, page, now);
      (d.result == Ok(true) ==> PurchaseCheck(PurchasedIn(stored), Some(d.record), quantity).Ok?) &&
      (d.result == Ok(false) && quantity != 0 ==> PurchaseCheck(PurchasedIn(stored), Some(d.record), quantity).Err?)
  {
    Reservation.PurchasedCountGrowsExactly(stored, screeningId, title, kind, Some(quantity), checkoutOpen, page, now);
  }

  /** A screening that could not be located reports no record: only a zero total passes. */
  lemma UnlocatedPurchase(originalPurchased: int, quantity: int)
    ensures PurchaseCheck(originalPurchased, None, quantity).Ok? <==> originalPurchased + quantity == 0
  {
  }

  datatype PurchaseError = FlowFailed(error: Reservation.FlowError) | CheckFailed(message: string)

  /**
   * `purchaseScreeningTickets`: under the operation lock, locate the
   * screening, run the reservation flow for `quantity` tickets, and check the
   * reported count. Returns the reported count. The handler succeeds exactly
   * when the flow does not fail and the check passes: for a screening that is
   * no longer listed only a zero total passes; otherwise the reported record
   * is the one the flow stores.
   */
  method PurchaseScreeningTickets(state: SharedState, db: Db, sel: Reservation.QuantitySelector, t: Ticket,
    listing: seq<Reconcile.ScreeningRow>, screeningId: string, quantity: int, typeText: Option<string>,
    attempts: seq<Reservation.AttemptEnv>, checkout: Reservation.CheckoutPage, now: int)
    returns (r: Result<int, PurchaseError>)
    modifies state, db, sel
    ensures state.Lock() == Run(old(state.Lock()), [Start(t), End]).final
    ensures r.Ok? ==> r.value == PurchasedIn(old(db.ScreeningMoreInfo(screeningId))) + quantity
    ensures r.Err? && r.error.CheckFailed? ==> r.error.message == UnableToPurchase
    ensures var original := PurchasedIn(old(db.ScreeningMoreInfo(screeningId)));
      Reconcile.RelocatedIndex(old(db.Program()), Reconcile.Ids(listing), screeningId) == -1 ==>
        (r.Ok? <==> original + quantity == 0) && (r.Err? ==> r.error.CheckFailed?) &&
        Reconcile.Located(old(db.store), db.store, old(db.Program()), listing, screeningId)
    ensures var stored := old(db.ScreeningMoreInfo(screeningId));
      var idx := Reconcile.RelocatedIndex(old(db.Program()), Reconcile.Ids(listing), screeningId);
      idx != -1 ==>
        var d := Reservation.DetailsAfter(stored, screeningId, listing[idx].title, Screening.ClassifyScreeningType(typeText),
          Some(quantity), Reservation.FirstSuccess(attempts, Some(quantity), 0).Some?, checkout, now);
        (r.Ok? <==> d.result.Ok? && PurchaseCheck(PurchasedIn(stored), Some(d.record), quantity).Ok?) &&
        (d.result.Err? ==> r == Err(FlowFailed(d.result.error))) &&
        exists located :: Reconcile.Located(old(db.store), located, old(db.Program()), listing, screeningId) &&
          db.store == located[MoreInfoKey(screeningId) := JMore(d.record)]
  {
    ghost var lock0 := state.Lock();
    ghost var store0 := db.store;
    ghost var program0 := db.Program();
    var _ := state.StartOp(t);
    var originalPurchased := PurchasedIn(db.ScreeningMoreInfo(screeningId));
    var screeningIndex, _, _ := Reconcile.LocateScreening(db, listing, screeningId);
    ghost var located := db.store;
    Reconcile.LocatedKeepsMoreInfo(store0, located, program0, listing, screeningId, screeningId);
    var reported: Option<MoreInfo> := None;
    if screeningIndex != -1 {
      var row := listing[screeningIndex];
      var kind := Screening.ClassifyScreeningType(typeText);
      ghost var d := Reservation.DetailsAfter(MoreInfoIn(store0, screeningId), screeningId, row.title, kind,
        Some(quantity), Reservation.FirstSuccess(attempts, Some(quantity), 0).Some?, checkout, now);
      var flow, _ := Reservation.RefreshDetails(db, sel, screeningId, row.title, kind, Some(quantity), attempts, checkout, now);
      assert flow == d.result && db.store == located[MoreInfoKey(screeningId) := JMore(d.record)];
      MoreInfoWrite(located, screeningId, d.record, screeningId);
      if flow.Err? {
        var _ := state.EndOp();
        StartThenEnd(lock0, t);
        return Err(FlowFailed(flow.error));
      }
      reported := db.ScreeningMoreInfo(screeningId);
    }
    var check := PurchaseCheck(originalPurchased, reported, quantity);
    var _ := state.EndOp();
    StartThenEnd(lock0, t);
    if check.Err? {
      return Err(CheckFailed(check.error));
    }
    return Ok(PurchasedIn(reported));
  }

  // ---------------------------------------------------------------------
  // The screenings query.

  /** The handler's query: the named and other cities, and the named and other types, each as one list. */
  function ScreeningsQueryOf(sortByStartTime: bool, venues: seq<string>, cities: seq<string>, otherCities: seq<string>,
    titles: seq<string>, soldOut: Option<bool>, available: Option<bool>, screeningTypes: seq<string>,
    otherScreeningTypes: seq<string>, filmIds: seq<string>, categories: seq<string>, tags: seq<string>): (q: Queries.ScreeningQuery)
    ensures q.cities == cities + otherCities && q.screeningTypes == screeningTypes + otherScreeningTypes
    ensures q.withFilmInfo
  {
    Queries.ScreeningQuery(sortByStartTime, venues, cities + otherCities, titles, soldOut, available,
      screeningTypes + otherScreeningTypes, categories, tags, filmIds, true)
  }

  /** Other cities only widen the city stage once a named city is effective. */
  lemma OtherCitiesWiden(s: Queries.ScreeningInfo, cities: seq<string>, otherCities: seq<string>)
    requires HasEffectiveNeedle(cities)
    requires Keeps(cities, s, Queries.CityValues, Some(Queries.CityOr))
    ensures Keeps(cities + otherCities, s, Queries.CityValues, Some(Queries.CityOr))
  {
    MatchesGrow(s, cities, otherCities, Queries.CityValues, Some(Queries.CityOr));
    ExactNeedlesGrow(cities, otherCities);
  }
}
