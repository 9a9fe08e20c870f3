/**
 * Which of several tariffs a session is priced by, and which one's limits bound it. Over
 * `select_tariff` and `select_tariff_for_limits` of `src/tariffs/engine.rs`.
 */
module Choosing {
  import opened Wrappers
  import opened Policy
  import opened Tariffs
  import opened Input
  import opened Lookup
  import opened Breakdown
  import opened Selection
  import opened Segments
  import opened Quantise
  import opened Finish
  import opened Price

  // ---------------------------------------------------------------------------------------
  // The choice in terms of the session
  // ---------------------------------------------------------------------------------------

  predicate InForce(t: Tariff, at: DateTime) {
    !(t.start.Some? && at < t.start.value) && !(t.end.Some? && t.end.value <= at)
  }

  /** Tariffs of this type are for this session. */
  predicate Serves(tariffType: TariffType, session: PricedSession) {
    match tariffType
    case AdHocPayment => session.adHocPayment
    case ProfileCheap => !session.adHocPayment && session.profile == Some(Cheap)
    case ProfileFast => !session.adHocPayment && session.profile == Some(Fast)
    case ProfileGreen => !session.adHocPayment && session.profile == Some(Green)
    case Regular => !session.adHocPayment && session.profile == Some(RegularProfile)
  }

  predicate Offers(t: Tariff, at: DateTime, tariffType: Option<TariffType>) {
    InForce(t, at) && t.tariffType == tariffType
  }

  /** Some tariff of this type, or without one, is in force. */
  predicate Offered(tariffs: seq<Tariff>, at: DateTime, tariffType: Option<TariffType>) {
    exists t :: t in tariffs && Offers(t, at, tariffType)
  }

  /** `t` is the first tariff of this type, or without one, that is in force. */
  predicate FirstOffered(tariffs: seq<Tariff>, at: DateTime, tariffType: Option<TariffType>, t: Tariff) {
    exists i :: 0 <= i < |tariffs| && tariffs[i] == t && Offers(t, at, tariffType)
                && forall j :: 0 <= j < i ==> !Offers(tariffs[j], at, tariffType)
  }

  predicate FirstInForce(tariffs: seq<Tariff>, at: DateTime, t: Tariff) {
    exists i :: 0 <= i < |tariffs| && tariffs[i] == t && InForce(t, at)
                && forall j :: 0 <= j < i ==> !InForce(tariffs[j], at)
  }

  /** A tariff for the session if one is in force, else one for any session, else any in force. */
  ghost predicate ChosenAt(session: PricedSession, tariffs: seq<Tariff>, at: DateTime, t: Tariff) {
    && (forall k :: Serves(k, session) && Offered(tariffs, at, Some(k)) ==> FirstOffered(tariffs, at, Some(k), t))
    && ((forall k :: Serves(k, session) ==> !Offered(tariffs, at, Some(k))) ==>
          if Offered(tariffs, at, None) then FirstOffered(tariffs, at, None, t) else FirstInForce(tariffs, at, t))
  }

  /** The same letter, but for the case of an ASCII one. */
  predicate SameLetter(c: char, d: char) {
    || c == d
    || ('A' <= c <= 'Z' && d as int == c as int + 32)
    || ('A' <= d <= 'Z' && c as int == d as int + 32)
  }

  predicate SameId(a: string, b: string) {
    |a| == |b| && forall i :: 0 <= i < |a| ==> SameLetter(a[i], b[i])
  }

  /** `t` is the first tariff with this identifier. */
  predicate FirstNamed(tariffs: seq<Tariff>, id: string, t: Tariff) {
    exists i :: 0 <= i < |tariffs| && tariffs[i] == t && SameId(t.id, id)
                && forall j :: 0 <= j < i ==> !SameId(tariffs[j].id, id)
  }

  lemma SameIdIs(a: string, b: string)
    ensures EqIgnoreCase(a, b) <==> SameId(a, b)
  {
    assert forall i :: 0 <= i < |a| == |b| ==> (LowerChar(a[i]) == LowerChar(b[i]) <==> SameLetter(a[i], b[i]));
  }

  // ---------------------------------------------------------------------------------------
  // What the engine chooses
  // ---------------------------------------------------------------------------------------

  lemma InForceIs(at: DateTime)
    ensures forall t: Tariff :: t.IsActiveAt(at) <==> InForce(t, at)
  {
  }

  lemma WantedServes(session: PricedSession, k: TariffType)
    ensures Serves(k, session) <==> Wanted(session) == Some(k)
  {
  }

  /** The tariff wanted is chosen as told, and none only when none is in force. */
  lemma ChosenByPreference(session: PricedSession, tariffs: seq<Tariff>, at: DateTime)
    ensures var r := SelectByPreference(Wanted(session), at, tariffs);
            && (r == Err(NoActiveTariff(at)) <==> forall t :: t in tariffs ==> !InForce(t, at))
            && (r.Ok? ==> ChosenAt(session, tariffs, at, r.value))
            && (r.Err? ==> r.error == NoActiveTariff(at))
  {
    var wanted := Wanted(session);
    InForceIs(at);
    forall k: TariffType
      ensures Serves(k, session) <==> wanted == Some(k)
    {
      WantedServes(session, k);
    }
    hide Serves, Wanted, InForce, Tariff.IsActiveAt;
    var preferred := FirstWhere(tariffs, (t: Tariff) => t.IsActiveAt(at) && wanted.Some? && t.tariffType == wanted);
    var untyped := FirstWhere(tariffs, (t: Tariff) => t.IsActiveAt(at) && t.tariffType.None?);
    var active := FirstWhere(tariffs, (t: Tariff) => t.IsActiveAt(at));
    var r := SelectByPreference(wanted, at, tariffs);
    if r.Ok? {
      if preferred.Some? {
        assert r.value == tariffs[preferred.value];
        assert FirstOffered(tariffs, at, wanted, r.value);
      } else if untyped.Some? {
        assert r.value == tariffs[untyped.value];
        assert FirstOffered(tariffs, at, None, r.value) && Offered(tariffs, at, None);
      } else {
        assert r.value == tariffs[active.value];
        assert FirstInForce(tariffs, at, r.value);
      }
    }
  }

  /**
   * The tariff a period is priced by: the first of the name it gives, in whatever case, or the one
   * chosen for the session where the period starts.
   */
  lemma TariffOfPeriod(session: PricedSession, tariffs: seq<Tariff>, stretches: seq<Stretch>, i: nat)
    requires Planned(session, tariffs, |session.periods|) == Ok(stretches) && i < |stretches|
    ensures var p := session.periods[i];
            if p.tariffId.Some? then FirstNamed(tariffs, p.tariffId.value, stretches[i].plan.tariff)
            else ChosenAt(session, tariffs, p.start, stretches[i].plan.tariff)
  {
    hide SelectByPreference, ContextAtStart, ContextAtEnd, ChosenAt, SameId, EqIgnoreCase;
    PlannedMeaning(session, tariffs, |session.periods|);
    hide Planned;
    var p := session.periods[i];
    assert PlanOf(session, tariffs, i) == Ok(stretches[i].plan);
    ChosenByPreference(session, tariffs, p.start);
    if p.tariffId.Some? {
      NamedFirst(tariffs, p.tariffId.value);
    }
  }

  lemma NamedFirst(tariffs: seq<Tariff>, id: string)
    ensures var k := FirstWhere(tariffs, (t: Tariff) => EqIgnoreCase(t.id, id));
            && (k.None? <==> forall t :: t in tariffs ==> !SameId(t.id, id))
            && (k.Some? ==> FirstNamed(tariffs, id, tariffs[k.value]))
  {
    hide SameId, EqIgnoreCase;
    forall t: Tariff
      ensures EqIgnoreCase(t.id, id) <==> SameId(t.id, id)
    {
      SameIdIs(t.id, id);
    }
  }

  /** Why a period has no tariff. */
  lemma PeriodWithoutTariff(session: PricedSession, tariffs: seq<Tariff>, i: nat, id: string, at: DateTime)
    requires i < |session.periods|
    ensures var p := session.periods[i];
            && (PlanOf(session, tariffs, i) == Err(UnknownTariff(id))
                <==> p.tariffId == Some(id) && forall t :: t in tariffs ==> !SameId(t.id, id))
            && (PlanOf(session, tariffs, i) == Err(NoActiveTariff(at))
                <==> p.tariffId.None? && at == p.start && forall t :: t in tariffs ==> !InForce(t, at))
  {
    hide SelectByPreference, ContextAtStart, ContextAtEnd, SameId, EqIgnoreCase, ChosenAt;
    var p := session.periods[i];
    ChosenByPreference(session, tariffs, p.start);
    if p.tariffId.Some? {
      NamedFirst(tariffs, p.tariffId.value);
    }
  }

  /** Two tariffs, in either order, that are in force and made for different sessions. */
  predicate TypedPair(tariffs: seq<Tariff>, at: DateTime, mine: Tariff, other: Tariff, session: PricedSession) {
    && (tariffs == [mine, other] || tariffs == [other, mine])
    && mine.tariffType.Some? && Serves(mine.tariffType.value, session) && InForce(mine, at)
    && other.tariffType.Some? && other.tariffType != mine.tariffType
  }

  /** Of a tariff made for the session and one made for others, a period is priced by the former. */
  lemma OwnTariffPrices(session: PricedSession, tariffs: seq<Tariff>, stretches: seq<Stretch>, i: nat,
                        mine: Tariff, other: Tariff)
    requires Planned(session, tariffs, |session.periods|) == Ok(stretches) && i < |stretches|
    requires session.periods[i].tariffId.None?
    requires TypedPair(tariffs, session.periods[i].start, mine, other, session)
    ensures stretches[i].plan.tariff == mine
  {
    hide Planned, InForce, Serves;
    TariffOfPeriod(session, tariffs, stretches, i);
    var at := session.periods[i].start;
    assert mine in tariffs && Offers(mine, at, mine.tariffType);
    assert FirstOffered(tariffs, at, mine.tariffType, stretches[i].plan.tariff);
  }

  /** The limits a session is held to are those of the tariff chosen for it where the session starts. */
  lemma LimitsOfTheStart(policy: PricingPolicy, session: PricedSession, tariffs: seq<Tariff>)
    returns (t: Tariff, notes: seq<Note>)
    requires Priced(policy, session, tariffs).Ok?
    ensures ChosenAt(session, tariffs, session.start, t)
    ensures var b := Priced(policy, session, tariffs).value;
            b == Finished(policy, b.dimensions, t, notes)
  {
    hide CheckRange, SelectByPreference, Planned, Collect, CollectNotes, OrderNotes, DimensionsOf, NoteSplits,
         ChosenAt, ExclTotal, InclTotal, BaseRatio, LimitOf, FinishNotes, SummariseBasis;
    ChosenByPreference(session, tariffs, session.start);
    t := SelectByPreference(Wanted(session), session.start, tariffs).value;
    var stretches := Planned(session, tariffs, |session.periods|).value;
    var dimensions := DimensionsOf(policy, Collect(stretches));
    notes := NoteSplits(OrderNotes(session) + CollectNotes(stretches), AllSegments(dimensions));
  }
}
