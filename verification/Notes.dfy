/**
 * What each note on a breakdown says of the session it was priced for. Over `price`,
 * `quantise_and_cost` and `finish` of `src/tariffs/engine.rs`.
 */
module Notes {
  import opened Wrappers
  import opened Sums
  import opened Policy
  import opened Tariffs
  import opened Input
  import opened Grouping
  import opened Lookup
  import opened Breakdown
  import opened Selection
  import opened Segments
  import opened Quantise
  import opened TaxLines
  import opened Finish
  import opened Price
  import opened Moments

  // ---------------------------------------------------------------------------------------
  // Where the notes come from
  // ---------------------------------------------------------------------------------------

  lemma NoteIn(notes: seq<Note>, code: NoteCode)
    ensures HasNote(notes, code) <==> exists n :: n in notes && n.code == code
  {
    if n :| n in notes && n.code == code {
      var i :| 0 <= i < |notes| && notes[i] == n;
      assert notes[i].code == code;
    }
  }

  lemma HasNoteConcat(a: seq<Note>, b: seq<Note>, code: NoteCode)
    ensures HasNote(a + b, code) <==> HasNote(a, code) || HasNote(b, code)
  {
    NoteIn(a, code);
    NoteIn(b, code);
    NoteIn(a + b, code);
  }

  /** A segment earns a note for its tax basis. */
  predicate EarnsSplit(list: seq<PricedSegment>, code: NoteCode) {
    exists s :: s in list && SplitNote(s.vat, s.basis) == Some(code)
  }

  lemma {:induction false} SplitsEarned(notes: seq<Note>, list: seq<PricedSegment>, code: NoteCode)
    ensures HasNote(NoteSplits(notes, list), code) <==> HasNote(notes, code) || EarnsSplit(list, code)
  {
    if list == [] {
    } else {
      hide SplitNote, HasNote;
      var n := |list| - 1;
      SplitsEarned(notes, list[..n], code);
      assert list == list[..n] + [list[n]];
    }
  }

  /** One of the quantities of a period earns this note. */
  predicate EarnsNote(s: Stretch, n: Note) {
    exists k :: 0 <= k < 4 && QuantityNote(s.plan, s.period, PeriodQuantities(s.period)[k]) == Some(n)
  }

  /** The notes of a period, one quantity after the other. */
  lemma NotesOneByOne(s: Stretch)
    ensures var q := PeriodQuantities(s.period);
            s.Notes() == ToSeq(QuantityNote(s.plan, s.period, q[0])) + ToSeq(QuantityNote(s.plan, s.period, q[1]))
                         + ToSeq(QuantityNote(s.plan, s.period, q[2])) + ToSeq(QuantityNote(s.plan, s.period, q[3]))
  {
    hide QuantityNote, ToSeq, PeriodQuantities;
    var q := PeriodQuantities(s.period);
    var of := (k: nat) requires k < 4 => ToSeq(QuantityNote(s.plan, s.period, q[k]));
    assert q[..4] == q && q[..3][..2] == q[..2] && q[..2][..1] == q[..1] && q[..1][..0] == [];
    assert [] + of(0) == of(0) && QuantityNotes(s.plan, s.period, q[..1]) == of(0);
    assert QuantityNotes(s.plan, s.period, q[..2]) == of(0) + of(1);
    assert QuantityNotes(s.plan, s.period, q[..3]) == of(0) + of(1) + of(2);
  }

  lemma StretchNotes(s: Stretch, n: Note)
    ensures n in s.Notes() <==> EarnsNote(s, n)
  {
    hide QuantityNote, QuantityNotes, PeriodQuantities;
    NotesOneByOne(s);
    hide Stretch.Notes;
    var q := PeriodQuantities(s.period);
    assert EarnsNote(s, n) <==> (QuantityNote(s.plan, s.period, q[0]) == Some(n)
                                 || QuantityNote(s.plan, s.period, q[1]) == Some(n)
                                 || QuantityNote(s.plan, s.period, q[2]) == Some(n)
                                 || QuantityNote(s.plan, s.period, q[3]) == Some(n));
  }

  /** Some stretch of the first `m` earns it. */
  predicate EarnedBefore(stretches: seq<Stretch>, m: nat, n: Note)
    requires m <= |stretches|
  {
    exists i :: 0 <= i < m && EarnsNote(stretches[i], n)
  }

  lemma OneMoreEarned(stretches: seq<Stretch>, m: nat, n: Note)
    requires 0 < m <= |stretches|
    ensures EarnedBefore(stretches, m, n) <==> EarnedBefore(stretches, m - 1, n) || EarnsNote(stretches[m - 1], n)
  {
    hide EarnsNote;
  }

  lemma OneMoreCollected(stretches: seq<Stretch>, m: nat)
    requires 0 < m <= |stretches|
    ensures CollectNotes(stretches[..m]) == CollectNotes(stretches[..m - 1]) + stretches[m - 1].Notes()
  {
    hide Stretch.Notes;
    assert stretches[..m][..m - 1] == stretches[..m - 1];
  }

  lemma {:induction false} CollectedBefore(stretches: seq<Stretch>, m: nat, n: Note)
    requires m <= |stretches|
    ensures n in CollectNotes(stretches[..m]) <==> EarnedBefore(stretches, m, n)
  {
    if m == 0 {
    } else {
      hide EarnsNote, Stretch.Notes;
      CollectedBefore(stretches, m - 1, n);
      StretchNotes(stretches[m - 1], n);
      OneMoreCollected(stretches, m);
      OneMoreEarned(stretches, m, n);
      hide CollectNotes, EarnedBefore;
    }
  }

  lemma CollectedNotes(stretches: seq<Stretch>, n: Note)
    ensures n in CollectNotes(stretches) <==> exists i :: 0 <= i < |stretches| && EarnsNote(stretches[i], n)
  {
    hide EarnsNote, CollectNotes;
    CollectedBefore(stretches, |stretches|, n);
    assert stretches[..|stretches|] == stretches;
  }

  /** The notes of a finished breakdown, in the three groups they come in. */
  lemma PricedNotes(policy: PricingPolicy, session: PricedSession, tariffs: seq<Tariff>) returns (tariff: Tariff)
    requires Priced(policy, session, tariffs).Ok?
    ensures Planned(session, tariffs, |session.periods|).Ok?
    ensures var b := Priced(policy, session, tariffs).value;
            var stretches := Planned(session, tariffs, |session.periods|).value;
            var notes := NoteSplits(OrderNotes(session) + CollectNotes(stretches), AllSegments(b.dimensions));
            b == Finished(policy, b.dimensions, tariff, notes)
  {
    hide CheckRange, SelectByPreference, Planned, Collect, CollectNotes, OrderNotes, DimensionsOf, NoteSplits, Finished;
    tariff := SelectByPreference(Wanted(session), session.start, tariffs).value;
    PricedDimensions(policy, session, tariffs);
    assert Priced(policy, session, tariffs).value
           == Assemble(policy, session, Planned(session, tariffs, |session.periods|).value, tariff);
    FinishedKeepsDimensions(policy, tariff);
  }

  lemma FinishedKeepsDimensions(policy: PricingPolicy, tariff: Tariff)
    ensures forall dimensions, notes ::
              Finished(policy, dimensions, tariff, notes).dimensions == dimensions
  {
    hide ExclTotal, InclTotal, LimitOf, BaseRatio, FinishNotes, SummariseBasis, Presented, RawExcl, RawVat, RawLines;
  }

  // ---------------------------------------------------------------------------------------
  // What the notes say
  // ---------------------------------------------------------------------------------------

  /** Whether a note of this code is made of the totals or of the periods, not of a segment's basis. */
  predicate OfBasis(code: NoteCode) {
    code.MixedTaxBasis? || code.TaxIncludedWithoutRate? || code.TaxRateIgnored?
  }

  predicate OfTotals(code: NoteCode) {
    code.TotalClamped? || code.NegativeTax? || code.UnattributedTax?
  }

  /** The notes `finish` adds. */
  lemma FinishedNotes(policy: PricingPolicy, dimensions: seq<DimensionCost>, tariff: Tariff, notes: seq<Note>,
                      code: NoteCode)
    ensures var b := Finished(policy, dimensions, tariff, notes);
            var raw := RawLines(AllSegments(dimensions));
            HasNote(b.notes, code)
            <==> || HasNote(notes, code)
                 || (code.MixedTaxBasis? && b.taxBasis.Mixed?)
                 || (code.TotalClamped? && b.limitApplied.Some?)
                 || (code.NegativeTax? && NegativeTaxHeld(policy, tariff, RawExcl(dimensions), RawVat(dimensions)))
                 || (code.UnattributedTax? && Unattributed(raw, b.totalInclVat - b.totalExclVat))
  {
    hide ExclTotal, InclTotal, LimitOf, BaseRatio, SummariseBasis, Presented, RawExcl, RawVat, RawLines, Unattributed,
         NegativeTaxHeld, HasNote, AllSegments, NoteOnce;
    var (rawExcl, rawVat) := (RawExcl(dimensions), RawVat(dimensions));
    var owed := InclTotal(policy, tariff, rawExcl, rawVat) - ExclTotal(policy, tariff, rawExcl);
    var first := if SummariseBasis(AllSegments(dimensions)).Mixed? then NoteOnce(notes, MixedTaxBasis) else notes;
    var last := if Unattributed(RawLines(AllSegments(dimensions)), owed) then [Note(UnattributedTax, None)] else [];
    var clamped := if LimitOf(policy, tariff, rawExcl, rawVat).Some? then [Note(TotalClamped, None)] else [];
    var held := if NegativeTaxHeld(policy, tariff, rawExcl, rawVat) then [Note(NegativeTax, None)] else [];
    HasNoteConcat(first + (clamped + held), last, code);
    HasNoteConcat(first, clamped + held, code);
    HasNoteConcat(clamped, held, code);
    OnlyNote(UnattributedTax, code);
    OnlyNote(TotalClamped, code);
    OnlyNote(NegativeTax, code);
  }

  lemma OnlyNote(own: NoteCode, code: NoteCode)
    ensures HasNote([Note(own, None)], code) <==> own == code
    ensures !HasNote([], code)
  {
    assert [Note(own, None)][0].code == own;
  }

  /** Each of the first `n` periods starts after the one before it. */
  predicate InPlace(session: PricedSession, n: nat) {
    forall j :: 0 < j < n && j < |session.periods| ==> session.periods[j - 1].start < session.periods[j].start
  }

  /** The first period that does not start after the one before it. */
  predicate FirstOutOfPlace(session: PricedSession, k: nat) {
    0 < k < |session.periods| && session.periods[k].start <= session.periods[k - 1].start && InPlace(session, k)
  }

  lemma {:induction false} OutOfOrderAt(session: PricedSession, index: nat) returns (k: nat)
    requires 1 <= index && InPlace(session, index) && session.FirstOutOfOrder(index).Some?
    ensures FirstOutOfPlace(session, k) && session.FirstOutOfOrder(index).value == session.periods[k].start
    decreases |session.periods| - index
  {
    if session.periods[index].start <= session.periods[index - 1].start {
      return index;
    }
    StillInPlace(session, index);
    k := OutOfOrderAt(session, index + 1);
  }

  lemma StillInPlace(session: PricedSession, index: nat)
    requires 1 <= index < |session.periods| && InPlace(session, index)
    requires session.periods[index - 1].start < session.periods[index].start
    ensures InPlace(session, index + 1)
  {
  }

  lemma AllInPlace(session: PricedSession, k: nat)
    requires session.FirstOutOfOrder().None?
    ensures !FirstOutOfPlace(session, k)
  {
    assert session.InOrderFrom(1);
  }

  lemma OnlyOneFirst(session: PricedSession, j: nat, k: nat)
    requires FirstOutOfPlace(session, j) && FirstOutOfPlace(session, k)
    ensures j == k
  {
  }

  lemma QuantityCodes(plan: Plan, period: PricedPeriod, c: Consumed)
    ensures var n := QuantityNote(plan, period, c);
            n.Some? ==> n.value.at == Some(period.start)
                        && (n.value.code.NoPriceComponent? || n.value.code.PeriodSpansPriceChange?)
  {
    hide FindComponent;
  }

  lemma EarnedCodes(s: Stretch)
    ensures forall n :: EarnsNote(s, n) ==> n.code.NoPriceComponent? || n.code.PeriodSpansPriceChange?
  {
    hide QuantityNote, PeriodQuantities;
    forall k | 0 <= k < 4
      ensures var n := QuantityNote(s.plan, s.period, PeriodQuantities(s.period)[k]);
              n.Some? ==> n.value.code.NoPriceComponent? || n.value.code.PeriodSpansPriceChange?
    {
      QuantityCodes(s.plan, s.period, PeriodQuantities(s.period)[k]);
    }
  }

  /** No note of a segment's basis or of the totals is made while the periods are walked. */
  lemma WalkedNotes(session: PricedSession, stretches: seq<Stretch>, code: NoteCode)
    requires OfBasis(code) || OfTotals(code)
    ensures !HasNote(OrderNotes(session) + CollectNotes(stretches), code)
  {
    hide QuantityNote, CollectNotes;
    HasNoteConcat(OrderNotes(session), CollectNotes(stretches), code);
    NoteIn(CollectNotes(stretches), code);
    if n :| n in CollectNotes(stretches) && n.code == code {
      CollectedNotes(stretches, n);
      var i :| 0 <= i < |stretches| && EarnsNote(stretches[i], n);
      EarnedCodes(stretches[i]);
      assert false;
    }
  }

  lemma {:induction false} AdjustedHaveABasis(q: Quantisation, groups: seq<Group>, time: Option<Dimension>)
    requires forall g, s :: g in groups && s in g.list ==> !s.priced.basis.Mixed?
    ensures forall s :: s in AllAdjusted(q, groups, time) ==> !s.priced.basis.Mixed?
  {
    if groups == [] {
    } else {
      hide BilledFor, SumBy;
      var n := |groups| - 1;
      AdjustedHaveABasis(q, groups[..n], time);
      assert groups[n] in groups;
      var (list, adjusted) := (groups[n].list, Adjusted(q, groups[n].dimension, groups[n].list, time));
      forall s | s in adjusted
        ensures !s.priced.basis.Mixed?
      {
        var k :| 0 <= k < |adjusted| && adjusted[k] == s;
        assert list[k] in list && s.priced.basis == list[k].priced.basis;
      }
    }
  }

  /** No segment of a session has a mixed basis of its own. */
  lemma ChargesHaveABasis(policy: PricingPolicy, stretches: seq<Stretch>)
    ensures forall p :: p in AllSegments(DimensionsOf(policy, Collect(stretches))) ==> !p.basis.Mixed?
  {
    var segments := Collect(stretches);
    forall s | s in segments
      ensures !s.priced.basis.Mixed?
    {
      AuditTrail(stretches, s);
    }
    forall g, s | g in Groups(segments) && s in g.list
      ensures s in segments
    {
      WithKeySound(segments, DimensionKey, g.dimension);
    }
    hide Collect, Costed, AllSegments, DimensionsOf, AllAdjusted;
    AdjustedHaveABasis(policy.quantisation, Groups(segments), QuantisedTime(segments));
    CostedSegments(policy, segments);
    var billed := BilledSegments(policy.quantisation, segments);
    forall k | 0 <= k < |billed|
      ensures !Costed(policy, billed[k]).basis.Mixed?
    {
      assert billed[k] in billed;
      CostedKeepsTerms(policy, billed[k]);
    }
  }

  /**
   * A breakdown is noted to mix tax bases exactly when two of its segments have different ones, to
   * include tax at no rate when a segment does, and to ignore a rate when a segment that no tax
   * applies to has one; and its own basis is that of all its segments, or mixed.
   */
  lemma NotesOfTheBasis(policy: PricingPolicy, session: PricedSession, tariffs: seq<Tariff>)
    requires Priced(policy, session, tariffs).Ok?
    ensures var b := Priced(policy, session, tariffs).value;
            var segments := AllSegments(b.dimensions);
            var differ := exists s, t :: s in segments && t in segments && s.basis != t.basis;
            && (HasNote(b.notes, MixedTaxBasis) <==> differ)
            && (HasNote(b.notes, TaxIncludedWithoutRate)
                <==> exists s :: s in segments && s.basis.Included? && s.vat.None?)
            && (HasNote(b.notes, TaxRateIgnored) <==> exists s :: s in segments && s.basis.NoTax? && s.vat.Some?)
            && (differ ==> b.taxBasis.Mixed?)
            && (!differ ==> forall s :: s in segments ==> b.taxBasis == s.basis)
            && (segments == [] ==> b.taxBasis.Excluded?)
  {
    hide Priced, Planned, Collect, CollectNotes, OrderNotes, NoteSplits, Finished, AllSegments, DimensionsOf, HasNote,
         RawLines, Unattributed, NegativeTaxHeld, RawExcl, RawVat;
    var tariff := PricedNotes(policy, session, tariffs);
    var b := Priced(policy, session, tariffs).value;
    var walked := OrderNotes(session) + CollectNotes(Planned(session, tariffs, |session.periods|).value);
    var segments := AllSegments(b.dimensions);
    forall code | OfBasis(code)
      ensures HasNote(b.notes, code) <==> EarnsSplit(segments, code) || (code.MixedTaxBasis? && b.taxBasis.Mixed?)
    {
      FinishedNotes(policy, b.dimensions, tariff, NoteSplits(walked, segments), code);
      SplitsEarned(walked, segments, code);
      WalkedNotes(session, Planned(session, tariffs, |session.periods|).value, code);
    }
    assert OfBasis(MixedTaxBasis) && OfBasis(TaxIncludedWithoutRate) && OfBasis(TaxRateIgnored);
    BasisOfAll(policy, b.dimensions, tariff, NoteSplits(walked, segments));
    BasisSummarised(segments);
    PricedDimensions(policy, session, tariffs);
    ChargesHaveABasis(policy, Planned(session, tariffs, |session.periods|).value);
  }

  lemma BasisOfAll(policy: PricingPolicy, dimensions: seq<DimensionCost>, tariff: Tariff, notes: seq<Note>)
    ensures Finished(policy, dimensions, tariff, notes).taxBasis == SummariseBasis(AllSegments(dimensions))
  {
    hide ExclTotal, InclTotal, LimitOf, BaseRatio, FinishNotes, SummariseBasis, Presented, RawExcl, RawVat, RawLines;
  }

  lemma BasisSummarised(segments: seq<PricedSegment>)
    ensures var differ := exists s, t :: s in segments && t in segments && s.basis != t.basis;
            && (differ ==> SummariseBasis(segments).Mixed?)
            && (!differ ==> forall s :: s in segments ==> SummariseBasis(segments) == s.basis)
            && (segments == [] ==> SummariseBasis(segments).Excluded?)
            && (SummariseBasis(segments).Mixed? ==> differ || exists s :: s in segments && s.basis.Mixed?)
  {
    if segments != [] {
      assert segments[0] in segments;
    }
  }

  /**
   * It is noted as clamped exactly when a limit decided a total; to hold a negative tax when none
   * did and the rounded sum with tax is below the one without; and to owe tax that it cannot
   * attribute when its totals differ and its segments were taxed nothing together.
   */
  lemma NotesOfTheTotals(policy: PricingPolicy, session: PricedSession, tariffs: seq<Tariff>)
    requires Priced(policy, session, tariffs).Ok?
    ensures var b := Priced(policy, session, tariffs).value;
            var tax := SumBy(AllSegments(b.dimensions), Tax);
            && (HasNote(b.notes, TotalClamped) <==> b.limitApplied.Some?)
            && (HasNote(b.notes, NegativeTax)
                <==> b.limitApplied.None?
                     && policy.RoundCurrency(SumBy(b.dimensions, DimensionTotal) + tax)
                        < policy.RoundCurrency(SumBy(b.dimensions, DimensionTotal)))
            && (HasNote(b.notes, UnattributedTax) <==> b.totalInclVat != b.totalExclVat && tax == 0.0)
  {
    hide Priced, Planned, CollectNotes, OrderNotes, NoteSplits, Finished, AllSegments, HasNote, RawLines,
         PricingPolicy.RoundCurrency, LimitOf, SumBy;
    var tariff := PricedNotes(policy, session, tariffs);
    var b := Priced(policy, session, tariffs).value;
    var stretches := Planned(session, tariffs, |session.periods|).value;
    var walked := OrderNotes(session) + CollectNotes(stretches);
    var segments := AllSegments(b.dimensions);
    forall code | OfTotals(code)
      ensures !HasNote(NoteSplits(walked, segments), code)
    {
      SplitsEarned(walked, segments, code);
      WalkedNotes(session, stretches, code);
    }
    assert OfTotals(TotalClamped) && OfTotals(NegativeTax) && OfTotals(UnattributedTax);
    FinishedNotes(policy, b.dimensions, tariff, NoteSplits(walked, segments), TotalClamped);
    FinishedNotes(policy, b.dimensions, tariff, NoteSplits(walked, segments), NegativeTax);
    FinishedNotes(policy, b.dimensions, tariff, NoteSplits(walked, segments), UnattributedTax);
    LimitOfAll(policy, b.dimensions, tariff, NoteSplits(walked, segments));
    RawLinesKeepTax(segments);
    NothingSums();
  }

  lemma NothingSums()
    ensures SumBy<TaxLine>([], Amount) == 0.0
  {
  }

  lemma LimitOfAll(policy: PricingPolicy, dimensions: seq<DimensionCost>, tariff: Tariff, notes: seq<Note>)
    ensures Finished(policy, dimensions, tariff, notes).limitApplied
            == LimitOf(policy, tariff, RawExcl(dimensions), RawVat(dimensions))
  {
    hide ExclTotal, InclTotal, LimitOf, BaseRatio, FinishNotes, SummariseBasis, Presented, RawExcl, RawVat, RawLines;
  }

  /** Some quantity of period `i` is not zero, and no element that holds at its start prices it. */
  ghost predicate LeftUnpriced(session: PricedSession, s: Stretch, i: nat)
    requires i < |session.periods|
  {
    exists k :: 0 <= k < 4 && var c := PeriodQuantities(session.periods[i])[k];
                              c.quantity != 0.0
                              && !exists e :: FirstHolding(s.plan.tariff, session, i, c.reserving, c.dimension, e)
  }

  /** A note of a moment is made while the periods are walked, and by nothing after. */
  lemma {:induction false} SplitsNameNoMoment(notes: seq<Note>, list: seq<PricedSegment>, n: Note)
    requires n.at.Some?
    ensures n in NoteSplits(notes, list) <==> n in notes
  {
    if list == [] {
    } else {
      hide SplitNote;
      SplitsNameNoMoment(notes, list[..|list| - 1], n);
    }
  }

  lemma FinishNamesNoMoment(policy: PricingPolicy, dimensions: seq<DimensionCost>, tariff: Tariff, notes: seq<Note>,
                            n: Note)
    requires n.at.Some?
    ensures n in Finished(policy, dimensions, tariff, notes).notes <==> n in notes
  {
    hide ExclTotal, InclTotal, LimitOf, BaseRatio, SummariseBasis, Presented, RawExcl, RawVat, RawLines, Unattributed,
         NegativeTaxHeld, AllSegments;
  }

  lemma WalkedAt(session: PricedSession, tariffs: seq<Tariff>, stretches: seq<Stretch>, i: nat)
    requires Planned(session, tariffs, |session.periods|) == Ok(stretches) && i < |stretches|
    ensures EarnsNote(stretches[i], Note(NoPriceComponent, Some(session.periods[i].start)))
            <==> LeftUnpriced(session, stretches[i], i)
    ensures forall n :: EarnsNote(stretches[i], n) ==> n.at == Some(session.periods[i].start)
  {
    hide Planned, QuantityNote, QuantitySegment, PeriodQuantities, FirstHolding;
    PlannedAt(session, tariffs, stretches, i);
    forall k | 0 <= k < 4
      ensures var c := PeriodQuantities(session.periods[i])[k];
              var n := QuantityNote(stretches[i].plan, session.periods[i], c);
              && (n == Some(Note(NoPriceComponent, Some(session.periods[i].start)))
                  <==> c.quantity != 0.0
                       && !exists e :: FirstHolding(stretches[i].plan.tariff, session, i, c.reserving, c.dimension, e))
              && (n.Some? ==> n.value.at == Some(session.periods[i].start))
    {
      PricedByFirstHolding(session, tariffs, stretches, i, k);
      QuantityCodes(stretches[i].plan, session.periods[i], PeriodQuantities(session.periods[i])[k]);
    }
  }

  /** The order of the periods is noted at the first that is out of place, if there is one. */
  lemma OrderNoted(session: PricedSession, n: Note)
    ensures n in OrderNotes(session)
            <==> exists k: nat :: FirstOutOfPlace(session, k)
                                  && n == Note(PeriodsOutOfOrder, Some(session.periods[k].start))
  {
    hide FirstOutOfPlace, PricedSession.FirstOutOfOrder;
    if session.FirstOutOfOrder().Some? {
      var first := FirstOf(session);
      forall k: nat | FirstOutOfPlace(session, k)
        ensures k == first
      {
        OnlyOneFirst(session, first, k);
      }
    } else if k: nat :| FirstOutOfPlace(session, k) {
      AllInPlace(session, k);
      assert false;
    }
  }

  lemma FirstOf(session: PricedSession) returns (k: nat)
    requires session.FirstOutOfOrder().Some?
    ensures FirstOutOfPlace(session, k) && session.FirstOutOfOrder().value == session.periods[k].start
  {
    assert InPlace(session, 1);
    k := OutOfOrderAt(session, 1);
  }

  /** The notes of a moment on the breakdown of a session are those its periods earn there. */
  lemma NotesOfAMoment(policy: PricingPolicy, session: PricedSession, tariffs: seq<Tariff>, n: Note)
    requires Priced(policy, session, tariffs).Ok? && n.at.Some?
    ensures Planned(session, tariffs, |session.periods|).Ok?
    ensures var stretches := Planned(session, tariffs, |session.periods|).value;
            n in Priced(policy, session, tariffs).value.notes
            <==> n in OrderNotes(session) || exists i :: 0 <= i < |stretches| && EarnsNote(stretches[i], n)
  {
    hide Priced, Planned, CollectNotes, OrderNotes, NoteSplits, Finished, AllSegments, EarnsNote;
    var tariff := PricedNotes(policy, session, tariffs);
    var (b, stretches) := (Priced(policy, session, tariffs).value, Planned(session, tariffs, |session.periods|).value);
    var walked := OrderNotes(session) + CollectNotes(stretches);
    SplitsNameNoMoment(walked, AllSegments(b.dimensions), n);
    FinishNamesNoMoment(policy, b.dimensions, tariff, NoteSplits(walked, AllSegments(b.dimensions)), n);
    CollectedNotes(stretches, n);
  }

  /**
   * A session is noted to have its periods out of order exactly when one does not start after the
   * one before it, at the first that does not; and to have something unpriced at a moment exactly
   * when a period that starts there leaves a quantity unpriced.
   */
  lemma NotesOfThePeriods(policy: PricingPolicy, session: PricedSession, tariffs: seq<Tariff>, at: DateTime)
    requires Priced(policy, session, tariffs).Ok?
    ensures Planned(session, tariffs, |session.periods|).Ok?
    ensures var (b, stretches) := (Priced(policy, session, tariffs).value,
                                   Planned(session, tariffs, |session.periods|).value);
            && |stretches| == |session.periods|
            && (Note(PeriodsOutOfOrder, Some(at)) in b.notes
                <==> exists k: nat :: FirstOutOfPlace(session, k) && at == session.periods[k].start)
            && (Note(NoPriceComponent, Some(at)) in b.notes
                <==> exists i: nat :: i < |stretches| && at == session.periods[i].start
                                      && LeftUnpriced(session, stretches[i], i))
  {
    hide Priced, Planned, OrderNotes, EarnsNote, LeftUnpriced, FirstOutOfPlace;
    var stretches := PlannedOf(policy, session, tariffs);
    var (order, unpriced) := (Note(PeriodsOutOfOrder, Some(at)), Note(NoPriceComponent, Some(at)));
    NotesOfAMoment(policy, session, tariffs, order);
    NotesOfAMoment(policy, session, tariffs, unpriced);
    OrderNoted(session, order);
    OrderNoted(session, unpriced);
    forall i: nat | i < |stretches|
      ensures EarnsNote(stretches[i], unpriced)
              <==> at == session.periods[i].start && LeftUnpriced(session, stretches[i], i)
      ensures !EarnsNote(stretches[i], order)
    {
      WalkedAt(session, tariffs, stretches, i);
      EarnedCodes(stretches[i]);
    }
  }

  lemma PlannedOf(policy: PricingPolicy, session: PricedSession, tariffs: seq<Tariff>) returns (stretches: seq<Stretch>)
    requires Priced(policy, session, tariffs).Ok?
    ensures Planned(session, tariffs, |session.periods|) == Ok(stretches) && |stretches| == |session.periods|
  {
    hide Planned, Assemble, SelectByPreference, CheckRange;
    stretches := Planned(session, tariffs, |session.periods|).value;
  }
}
