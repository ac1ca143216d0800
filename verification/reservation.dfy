/**
 * Reservation bookkeeping of `refreshScreeningInfo` in
 * backend/src/shared/shared.ts: merging the screening type into the stored
 * details, opening the checkout page (up to 20 attempts, each stepping the
 * ticket quantity up to the requested count), recording sold-out status from
 * the ticket type, checking the total against the price ceiling, and
 * recording the outcome of the purchase. The browser pages become inputs:
 * per-attempt page behaviour, the checkout page, and the quantity widget.
 */
module Reservation {
  import opened Wrappers
  import opened JsText
  import opened Store
  import Screening

  const MaxAttempts: nat := 20
  /** Highest acceptable price per ticket: the ticket plus fees. */
  const TicketPriceCeiling: int := 25 + 2
  const SoldOutSuffix: string := "(SOLD OUT)"
  const RemainingMarker: string := " tickets remaining: "
  const TbaPrefix: string := "TBA "
  const TicketCountTooHigh: string := "Ticket count higher than requested!"

  // ---------------------------------------------------------------------
  // Record updates.

  /** The screening-type update: merged into the stored details (`{...stored, screeningType, …}`), or a fresh record. */
  function WithKind(stored: Option<MoreInfo>, kind: Screening.ScreeningKind, now: int): MoreInfo {
    match stored
    case Some(m) =>
      m.(screeningType := kind.screeningType, isPremiere := kind.isPremiere,
         isSecondScreening := kind.isSecondScreening, updatedAt := now)
    case None =>
      MoreInfo(kind.screeningType, kind.isPremiere, kind.isSecondScreening, None, None, None, None, now)
  }

  /** `(ticketType || '').endsWith('(SOLD OUT)') || undefined`. */
  function SoldOutFromTicketType(ticketType: Option<string>): (r: Option<bool>)
    ensures r == Some(true) <==> ticketType.Some? && EndsWith(ticketType.value, SoldOutSuffix)
    ensures r != Some(false)
  {
    if EndsWith(ticketType.GetOr(""), SoldOutSuffix) then Some(true) else None
  }

  function WithTicketType(base: MoreInfo, ticketType: Option<string>, now: int): MoreInfo {
    base.(ticketType := ticketType, isSoldOut := SoldOutFromTicketType(ticketType), updatedAt := now)
  }

  function WithRemaining(base: MoreInfo, remaining: nat, now: int): MoreInfo {
    base.(isSoldOut := Some(remaining == 0), ticketsRemaining := if remaining == 0 then None else Some(remaining), updatedAt := now)
  }

  function WithPurchase(base: MoreInfo, count: int, now: int): MoreInfo {
    base.(ticketsPurchased := Some(base.ticketsPurchased.GetOr(0) + count), updatedAt := now)
  }

  /** JavaScript truthiness of an optional flag. */
  predicate Truthy(flag: Option<bool>) {
    flag == Some(true)
  }

  /** The notification sent when the sold-out status flips. */
  function AvailabilityNotice(wasSoldOut: bool, isSoldOut: Option<bool>, availableDetail: string, screeningId: string): (r: Option<string>)
    ensures r.Some? <==> wasSoldOut != Truthy(isSoldOut)
  {
    if wasSoldOut == Truthy(isSoldOut) then None
    else Some("Screening " + (if Truthy(isSoldOut) then "sold out" else "tickets available" + availableDetail) + ": " + screeningId)
  }

  function OptionToSeq(o: Option<string>): seq<string> {
    if o.Some? then [o.value] else []
  }

  /** The screening-type update never touches the ticket bookkeeping of a stored record. */
  lemma WithKindKeepsTicketFields(stored: MoreInfo, kind: Screening.ScreeningKind, now: int)
    ensures var m := WithKind(Some(stored), kind, now);
      m.ticketType == stored.ticketType && m.isSoldOut == stored.isSoldOut &&
      m.ticketsPurchased == stored.ticketsPurchased && m.ticketsRemaining == stored.ticketsRemaining
    ensures var m := WithKind(Some(stored), kind, now);
      m.screeningType == kind.screeningType && m.isPremiere == kind.isPremiere && m.isSecondScreening == kind.isSecondScreening
    ensures WithKind(None, kind, now).ticketsPurchased == None && WithKind(None, kind, now).isSoldOut == None
  {
  }

  // ---------------------------------------------------------------------
  // The remaining-ticket count in the "not enough tickets" message:
  // the leftmost match of / tickets remaining: (\d+)/.

  /** The marker followed by at least one digit starts at `i`. */
  predicate RemainingAt(msg: string, i: nat) {
    i + |RemainingMarker| < |msg| && msg[i..i + |RemainingMarker|] == RemainingMarker && IsDigit(msg[i + |RemainingMarker|])
  }

  function FirstRemainingAt(msg: string, from: nat): (r: Option<nat>)
    ensures r.Some? ==> from <= r.value && RemainingAt(msg, r.value)
    ensures r.Some? ==> forall i | from <= i < r.value :: !RemainingAt(msg, i)
    ensures r.None? ==> forall i | from <= i :: !RemainingAt(msg, i)
    decreases |msg| - from
  {
    if from >= |msg| then None
    else if RemainingAt(msg, from) then Some(from)
    else FirstRemainingAt(msg, from + 1)
  }

  /** The remaining count the message reports, if it matches at all. */
  function TicketsRemaining(msg: string): (r: Option<nat>)
    ensures r.None? <==> forall i: nat :: !RemainingAt(msg, i)
  {
    match FirstRemainingAt(msg, 0)
    case None => None
    case Some(i) =>
      var start := i + |RemainingMarker|;
      Some(DecimalValue(msg[start..start + DigitRun(msg, start)]))
  }

  /** A message carrying the marker once, followed by a count, reports that count. */
  lemma {:induction false} TicketsRemainingReadsCount(prefix: string, n: nat, rest: string)
    requires forall i | 0 <= i < |prefix| :: !RemainingAt(prefix + RemainingMarker + NatToString(n) + rest, i)
    requires rest == [] || !IsDigit(rest[0])
    ensures TicketsRemaining(prefix + RemainingMarker + NatToString(n) + rest) == Some(n)
  {
    var digits := NatToString(n);
    var msg := prefix + RemainingMarker + digits + rest;
    var start := |prefix| + |RemainingMarker|;
    assert msg[|prefix|..start] == RemainingMarker;
    assert msg[start] == digits[0];
    assert RemainingAt(msg, |prefix|);
    assert FirstRemainingAt(msg, 0) == Some(|prefix|);
    DigitRunOver(msg, start, |digits|);
    assert msg[start..start + |digits|] == digits;
    DecimalValueOfNatToString(n);
  }

  // ---------------------------------------------------------------------
  // Opening the checkout page.

  /** The ticket-quantity widget of the cart page. */
  class QuantitySelector {
    var count: int

    constructor (shown: int)
      ensures count == shown
    {
      count := shown;
    }

    /** The cart page is (re)loaded and shows `shown` tickets. */
    method Load(shown: int)
      modifies this
      ensures count == shown
    {
      count := shown;
    }

    /** A click on the increase button. */
    method Increase()
      modifies this
      ensures count == old(count) + 1
    {
      count := count + 1;
    }
  }

  /** The quantity stepper: clicks until the requested count shows; a higher count throws. */
  method StepQuantity(sel: QuantitySelector, requested: int) returns (r: Result<(), string>)
    modifies sel
    ensures r.Ok? <==> old(sel.count) <= requested
    ensures r.Ok? ==> sel.count == requested
    ensures r.Err? ==> sel.count == old(sel.count) && r.error == TicketCountTooHigh
  {
    var current := sel.count;
    while current != requested
      invariant current == sel.count
      invariant old(sel.count) <= requested ==> old(sel.count) <= current <= requested
      invariant old(sel.count) > requested ==> current == old(sel.count)
      decreases if current <= requested then requested - current else 0
    {
      if current < requested {
        sel.Increase();
        current := sel.count;
      } else {
        return Err(TicketCountTooHigh);
      }
    }
    return Ok(());
  }

  /** What one attempt meets: whether the cart loads, the count it shows, whether checkout then loads. */
  datatype AttemptEnv = AttemptEnv(cartLoads: bool, shownCount: int, checkoutLoads: bool)

  function EnvAt(attempts: seq<AttemptEnv>, k: nat): AttemptEnv {
    if k < |attempts| then attempts[k] else AttemptEnv(false, 0, false)
  }

  /** An attempt gets through iff both pages load and the shown count does not exceed the request. */
  predicate AttemptSucceeds(env: AttemptEnv, requested: Option<int>) {
    env.cartLoads && (requested.None? || env.shownCount <= requested.value) && env.checkoutLoads
  }

  /** The first successful attempt at or after `from`, among the first `MaxAttempts`. */
  function FirstSuccess(attempts: seq<AttemptEnv>, requested: Option<int>, from: nat): (r: Option<nat>)
    ensures r.Some? ==> from <= r.value < MaxAttempts && AttemptSucceeds(EnvAt(attempts, r.value), requested)
    ensures r.Some? ==> forall k | from <= k < r.value :: !AttemptSucceeds(EnvAt(attempts, k), requested)
    ensures r.None? ==> forall k | from <= k < MaxAttempts :: !AttemptSucceeds(EnvAt(attempts, k), requested)
    decreases MaxAttempts - from
  {
    if from >= MaxAttempts then None
    else if AttemptSucceeds(EnvAt(attempts, from), requested) then Some(from)
    else FirstSuccess(attempts, requested, from + 1)
  }

  /** The retry loop: returns whether checkout opened and how many attempts it took. */
  method OpenCheckout(sel: QuantitySelector, attempts: seq<AttemptEnv>, requested: Option<int>) returns (checkoutOpen: bool, used: nat)
    modifies sel
    ensures checkoutOpen <==> FirstSuccess(attempts, requested, 0).Some?
    ensures checkoutOpen ==> used == FirstSuccess(attempts, requested, 0).value + 1
    ensures !checkoutOpen ==> used == MaxAttempts
    ensures checkoutOpen && requested.Some? ==> sel.count == requested.value
  {
    var attempt := 0;
    while attempt < MaxAttempts
      invariant 0 <= attempt <= MaxAttempts
      invariant FirstSuccess(attempts, requested, 0) == FirstSuccess(attempts, requested, attempt)
      decreases MaxAttempts - attempt
    {
      var env := EnvAt(attempts, attempt);
      var ok := env.cartLoads;
      if ok && requested.Some? {
        sel.Load(env.shownCount);
        var stepped := StepQuantity(sel, requested.value);
        ok := stepped.Ok?;
      }
      if ok && env.checkoutLoads {
        return true, attempt + 1;
      }
      attempt := attempt + 1;
    }
    return false, MaxAttempts;
  }

  /** An overshooting count costs one attempt, not the whole flow. */
  lemma OvershootCostsOneAttempt(good: AttemptEnv, requested: int)
    requires AttemptSucceeds(good, Some(requested))
    ensures FirstSuccess([AttemptEnv(true, requested + 1, true), good], Some(requested), 0) == Some(1)
  {
  }

  /** If the page always shows too many tickets, checkout never opens. */
  lemma PersistentOvershootNeverOpens(attempts: seq<AttemptEnv>, requested: int)
    requires forall k | 0 <= k < |attempts| :: attempts[k].shownCount > requested
    ensures FirstSuccess(attempts, Some(requested), 0) == None
  {
  }

  // ---------------------------------------------------------------------
  // The checkout page and the whole flow.

  /** `+text`: a number, or NaN when the text is not one. */
  datatype JsNumber = NaN | Num(value: real)

  /** The price check: only a total above `count * (25 + 2)` is refused (NaN is not above anything). */
  predicate PriceAccepted(dollars: JsNumber, count: int) {
    !(dollars.Num? && dollars.value > (count * TicketPriceCeiling) as real)
  }

  lemma PriceCeiling(dollars: real, count: int)
    ensures PriceAccepted(Num(dollars), count) <==> dollars <= (count * 27) as real
    ensures PriceAccepted(NaN, count)
  {
  }

  /** What happens after the buy button is clicked. */
  datatype BuyResult = ButtonGone | ErrorShown(text: string) | NoChange

  datatype CheckoutPage = CheckoutPage(ticketType: Option<string>, dollars: JsNumber, buy: BuyResult)

  datatype FlowError = CheckoutNotOpened | UnexpectedHigherPrice(dollars: JsNumber) | BuyTimedOut

  /** The outcome of the flow: purchased or not (or an error), the stored details, the notifications sent. */
  datatype Details = Details(result: Result<bool, FlowError>, record: MoreInfo, notices: seq<string>)

  /**
   * What the flow does to the details of `screeningId`, given what the pages
   * show: the screening type is always stored; a TBA screening stops there;
   * otherwise the flow fails when checkout does not open, and once it opens
   * the record takes the page's ticket type. At most two notices go out,
   * none before checkout, and a failed flow never counts a purchase.
   */
  function DetailsAfter(stored: Option<MoreInfo>, screeningId: string, title: string, kind: Screening.ScreeningKind,
    count: Option<int>, checkoutOpen: bool, page: CheckoutPage, now: int): (r: Details)
    ensures r.record.screeningType == kind.screeningType && r.record.isPremiere == kind.isPremiere &&
      r.record.isSecondScreening == kind.isSecondScreening && r.record.updatedAt == now
    ensures r.result == Err(CheckoutNotOpened) <==> !StartsWith(title, TbaPrefix) && !checkoutOpen
    ensures StartsWith(title, TbaPrefix) ==> r.result == Ok(false)
    ensures !StartsWith(title, TbaPrefix) && checkoutOpen ==> r.record.ticketType == page.ticketType
    ensures StartsWith(title, TbaPrefix) || !checkoutOpen ==> r.notices == []
    ensures |r.notices| <= 2
    ensures r.result.Err? ==> r.record.ticketsPurchased == (if stored.Some? then stored.value.ticketsPurchased else None)
  {
    var kinded := WithKind(stored, kind, now);
    if StartsWith(title, TbaPrefix) then Details(Ok(false), kinded, [])
    else if !checkoutOpen then Details(Err(CheckoutNotOpened), kinded, [])
    else CheckoutAfter(kinded, screeningId, count, page, now)
  }

  /** The part of the flow after checkout opened, from the record with its screening type. */
  function CheckoutAfter(kinded: MoreInfo, screeningId: string, count: Option<int>, page: CheckoutPage, now: int): Details {
    var soldOut := SoldOutFromTicketType(page.ticketType);
    var typed := WithTicketType(kinded, page.ticketType, now);
    var notices := OptionToSeq(AvailabilityNotice(Truthy(kinded.isSoldOut), soldOut, "", screeningId));
    if count.None? then Details(Ok(false), typed, notices)
    else BuyAfter(typed, notices, screeningId, count.value, page, now)
  }

  /**
   * The buy part of the flow, from the record with its ticket type and the
   * notices so far: a total above the ceiling fails, a click with no visible
   * effect times out, and only a vanished button counts the tickets as
   * purchased. At most one notice is added after those already sent.
   */
  function BuyAfter(typed: MoreInfo, notices: seq<string>, screeningId: string, count: int, page: CheckoutPage, now: int): (r: Details)
    ensures r.result == Err(UnexpectedHigherPrice(page.dollars)) <==> !PriceAccepted(page.dollars, count)
    ensures r.result == Err(BuyTimedOut) <==> PriceAccepted(page.dollars, count) && page.buy.NoChange?
    ensures r.result == Ok(true) <==> PriceAccepted(page.dollars, count) && page.buy.ButtonGone?
    ensures r.record.ticketsPurchased ==
      if r.result == Ok(true) then Some(typed.ticketsPurchased.GetOr(0) + count) else typed.ticketsPurchased
    ensures r.record.ticketType == typed.ticketType && r.record.screeningType == typed.screeningType &&
      r.record.isPremiere == typed.isPremiere && r.record.isSecondScreening == typed.isSecondScreening
    ensures |notices| <= |r.notices| <= |notices| + 1 && r.notices[..|notices|] == notices
  {
    if !PriceAccepted(page.dollars, count) then Details(Err(UnexpectedHigherPrice(page.dollars)), typed, notices)
    else match page.buy
      case NoChange => Details(Err(BuyTimedOut), typed, notices)
      case ButtonGone => Details(Ok(true), WithPurchase(typed, count, now), notices)
      case ErrorShown(msg) =>
        match TicketsRemaining(msg)
        case None => Details(Ok(false), typed, notices)
        case Some(n) =>
          var detail := " (" + NatToString(n) + ")";
          Details(Ok(false), WithRemaining(typed, n, now),
            notices + OptionToSeq(AvailabilityNotice(Truthy(typed.isSoldOut), Some(n == 0), detail, screeningId)))
  }

  /**
   * The details part of `refreshScreeningInfo` for a located screening: every
   * write goes to its more-info record, which ends as `DetailsAfter` says.
   */
  method RefreshDetails(db: Db, sel: QuantitySelector, screeningId: string, title: string, kind: Screening.ScreeningKind,
    purchaseTicketCount: Option<int>, attempts: seq<AttemptEnv>, page: CheckoutPage, now: int)
    returns (r: Result<bool, FlowError>, notices: seq<string>)
    modifies db, sel
    ensures var checkoutOpen := FirstSuccess(attempts, purchaseTicketCount, 0).Some?;
      var d := DetailsAfter(old(db.ScreeningMoreInfo(screeningId)), screeningId, title, kind, purchaseTicketCount, checkoutOpen, page, now);
      r == d.result && notices == d.notices && db.store == old(db.store)[MoreInfoKey(screeningId) := JMore(d.record)]
  {
    ghost var stored := db.ScreeningMoreInfo(screeningId);
    ghost var start := db.store;
    ghost var open := FirstSuccess(attempts, purchaseTicketCount, 0).Some?;
    ghost var d := DetailsAfter(stored, screeningId, title, kind, purchaseTicketCount, open, page, now);
    var newMoreInfo := WithKind(db.ScreeningMoreInfo(screeningId), kind, now);
    db.SetScreeningMoreInfo(screeningId, newMoreInfo);
    notices := [];
    if StartsWith(title, TbaPrefix) {
      assert d == Details(Ok(false), newMoreInfo, []);
      return Ok(false), notices;
    }
    var checkoutOpen, _ := OpenCheckout(sel, attempts, purchaseTicketCount);
    if !checkoutOpen {
      assert d == Details(Err(CheckoutNotOpened), newMoreInfo, []);
      return Err(CheckoutNotOpened), notices;
    }
    assert d == CheckoutAfter(newMoreInfo, screeningId, purchaseTicketCount, page, now);
    r, notices := Checkout(db, screeningId, purchaseTicketCount, page, now);
  }

  /** The flow once checkout is open: the ticket type is recorded, then the tickets are bought when a count was asked for. */
  method Checkout(db: Db, screeningId: string, purchaseTicketCount: Option<int>, page: CheckoutPage, now: int)
    returns (r: Result<bool, FlowError>, notices: seq<string>)
    requires db.ScreeningMoreInfo(screeningId).Some?
    modifies db
    ensures var d := CheckoutAfter(old(db.ScreeningMoreInfo(screeningId)).value, screeningId, purchaseTicketCount, page, now);
      r == d.result && notices == d.notices && db.store == old(db.store)[MoreInfoKey(screeningId) := JMore(d.record)]
  {
    var isTicketSoldOut := SoldOutFromTicketType(page.ticketType);
    var current := db.ScreeningMoreInfo(screeningId).value;
    notices := OptionToSeq(AvailabilityNotice(Truthy(current.isSoldOut), isTicketSoldOut, "", screeningId));
    var newMoreInfo := WithTicketType(current, page.ticketType, now);
    db.SetScreeningMoreInfo(screeningId, newMoreInfo);
    if purchaseTicketCount.None? {
      return Ok(false), notices;
    }
    r, notices := Buy(db, screeningId, purchaseTicketCount.value, page, now, notices);
  }

  /** The buy part of the flow: the price check, the click and what the page shows after it. */
  method Buy(db: Db, screeningId: string, count: int, page: CheckoutPage, now: int, noticesSoFar: seq<string>)
    returns (r: Result<bool, FlowError>, notices: seq<string>)
    requires db.ScreeningMoreInfo(screeningId).Some?
    modifies db
    ensures var d := BuyAfter(old(db.ScreeningMoreInfo(screeningId)).value, noticesSoFar, screeningId, count, page, now);
      r == d.result && notices == d.notices && db.store == old(db.store)[MoreInfoKey(screeningId) := JMore(d.record)]
  {
    notices := noticesSoFar;
    if !PriceAccepted(page.dollars, count) {
      return Err(UnexpectedHigherPrice(page.dollars)), notices;
    }
    var current := db.ScreeningMoreInfo(screeningId).value;
    match page.buy {
      case NoChange =>
        return Err(BuyTimedOut), notices;
      case ErrorShown(msg) =>
        var remaining := TicketsRemaining(msg);
        if remaining.Some? {
          var n := remaining.value;
          notices := notices + OptionToSeq(AvailabilityNotice(Truthy(current.isSoldOut), Some(n == 0), " (" + NatToString(n) + ")", screeningId));
          db.SetScreeningMoreInfo(screeningId, WithRemaining(current, n, now));
        }
        return Ok(false), notices;
      case ButtonGone =>
        db.SetScreeningMoreInfo(screeningId, WithPurchase(current, count, now));
        return Ok(true), notices;
    }
  }

  // ---------------------------------------------------------------------
  // Properties of the flow.

  /**
   * Tickets are counted as purchased exactly when the buy went through: the
   * count then grows by the number requested, and otherwise stays as stored.
   */
  lemma PurchasedCountGrowsExactly(stored: Option<MoreInfo>, screeningId: string, title: string, kind: Screening.ScreeningKind,
    count: Option<int>, checkoutOpen: bool, page: CheckoutPage, now: int)
    ensures var d := DetailsAfter(stored, screeningId, title, kind, count, checkoutOpen, page, now);
      var before := if stored.Some? then stored.value.ticketsPurchased else None;
      if d.result == Ok(true) then count.Some? && d.record.ticketsPurchased == Some(before.GetOr(0) + count.value)
      else d.record.ticketsPurchased == before
    ensures DetailsAfter(stored, screeningId, title, kind, count, checkoutOpen, page, now).result == Ok(true) <==>
      !StartsWith(title, TbaPrefix) && checkoutOpen && count.Some? && PriceAccepted(page.dollars, count.value) && page.buy == ButtonGone
  {
    var d := DetailsAfter(stored, screeningId, title, kind, count, checkoutOpen, page, now);
    var kinded := WithKind(stored, kind, now);
    var before := if stored.Some? then stored.value.ticketsPurchased else None;
    assert kinded.ticketsPurchased == before;
    if !StartsWith(title, TbaPrefix) && checkoutOpen && count.Some? && PriceAccepted(page.dollars, count.value) {
      var typed := WithTicketType(kinded, page.ticketType, now);
      assert typed.ticketsPurchased == before;
      match page.buy {
        case ButtonGone =>
        case NoChange =>
        case ErrorShown(msg) =>
          if TicketsRemaining(msg).Some? {
            assert d.record == WithRemaining(typed, TicketsRemaining(msg).value, now);
          } else {
            assert d.record == typed;
          }
      }
    }
  }

  /** A purchase only goes through below the ceiling (or when the total could not be read). */
  lemma PurchaseRespectsCeiling(stored: Option<MoreInfo>, screeningId: string, title: string, kind: Screening.ScreeningKind,
    count: Option<int>, checkoutOpen: bool, page: CheckoutPage, now: int)
    requires DetailsAfter(stored, screeningId, title, kind, count, checkoutOpen, page, now).result == Ok(true)
    ensures count.Some? && (page.dollars.NaN? || page.dollars.value <= (count.value * 27) as real)
  {
  }

  /** A "not enough tickets" message with a count records it: sold out at zero, otherwise the number left. */
  lemma NotEnoughRecordsRemaining(stored: Option<MoreInfo>, screeningId: string, title: string, kind: Screening.ScreeningKind,
    count: int, page: CheckoutPage, now: int, msg: string)
    requires !StartsWith(title, TbaPrefix) && PriceAccepted(page.dollars, count) && page.buy == ErrorShown(msg)
    requires TicketsRemaining(msg).Some?
    ensures var d := DetailsAfter(stored, screeningId, title, kind, Some(count), true, page, now);
      var n := TicketsRemaining(msg).value;
      d.result == Ok(false) && d.record.isSoldOut == Some(n == 0) &&
      d.record.ticketsRemaining == (if n == 0 then None else Some(n)) &&
      d.record.ticketType == page.ticketType
  {
  }

  /**
   * A TBA screening is only classified: what the pages show makes no
   * difference, no notice goes out and the ticket bookkeeping stays as stored.
   */
  lemma TbaOnlyClassified(stored: Option<MoreInfo>, screeningId: string, title: string, kind: Screening.ScreeningKind,
    count: Option<int>, checkoutOpen: bool, page: CheckoutPage,
    otherCount: Option<int>, otherOpen: bool, otherPage: CheckoutPage, now: int)
    requires StartsWith(title, TbaPrefix)
    ensures var d := DetailsAfter(stored, screeningId, title, kind, count, checkoutOpen, page, now);
      d == DetailsAfter(stored, screeningId, title, kind, otherCount, otherOpen, otherPage, now) &&
      d.result == Ok(false) && d.notices == []
    ensures var d := DetailsAfter(stored, screeningId, title, kind, count, checkoutOpen, page, now);
      stored.Some? ==>
        (d.record.ticketType == stored.value.ticketType && d.record.isSoldOut == stored.value.isSoldOut &&
         d.record.ticketsPurchased == stored.value.ticketsPurchased && d.record.ticketsRemaining == stored.value.ticketsRemaining)
  {
    if stored.Some? {
      WithKindKeepsTicketFields(stored.value, kind, now);
    }
  }

  /** The sold-out flag follows the ticket type, and a notice goes out exactly when it flips. */
  lemma SoldOutFollowsTicketType(stored: Option<MoreInfo>, screeningId: string, title: string, kind: Screening.ScreeningKind,
    page: CheckoutPage, now: int)
    requires !StartsWith(title, TbaPrefix)
    ensures var d := DetailsAfter(stored, screeningId, title, kind, None, true, page, now);
      var was := stored.Some? && Truthy(stored.value.isSoldOut);
      d.result == Ok(false) &&
      (Truthy(d.record.isSoldOut) <==> page.ticketType.Some? && EndsWith(page.ticketType.value, SoldOutSuffix)) &&
      (|d.notices| == 1 <==> was != Truthy(d.record.isSoldOut)) && |d.notices| <= 1
  {
  }
}
