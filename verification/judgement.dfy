/** How the concentration-to-limit ratio of a reading and its cleanliness class relate. */
module Judgement {
  import opened Types
  import opened Zones
  import opened Monitors
  import opened Samples
  import opened State
  import Iso
  import Process
  import Text

  predicate NoOverrides(m: MonitorZone) {
    m.thresholds.limit03 <= 0.0 && m.thresholds.limit05 <= 0.0
  }

  // The counts lie within the design class's own limits once these are scaled.
  lemma RatioAgainstScaled(table: map<string, Iso.IsoLimit>, m: MonitorZone, iso: string, multiplier: real, count03: real, count05: real)
    requires Iso.Complete(table) && iso in Iso.CLASSES && NoOverrides(m) && multiplier > 0.0
    ensures var lim := m.EffectiveLimits(iso, table, multiplier);
            && lim == Iso.IsoLimit(table[iso].count03 * multiplier, table[iso].count05 * multiplier)
            && (Iso.RatioAgainst(lim, count03, count05) <= 1.0 <==> Iso.Fits(lim, count03, count05))
  {
    assert table[iso].count03 > 0.0 && table[iso].count05 > 0.0;
    Positive(table[iso].count03, multiplier);
    Positive(table[iso].count05, multiplier);
    Iso.RatioAtMostOne(m.EffectiveLimits(iso, table, multiplier), count03, count05);
  }

  lemma Positive(a: real, b: real)
    requires a > 0.0 && b > 0.0
    ensures a * b > 0.0
  {
  }

  // In a graded table counts that fit a class are judged no dirtier than it, and the other way round.
  lemma FitsMeansRank(table: map<string, Iso.IsoLimit>, iso: string, count03: real, count05: real)
    requires Iso.Complete(table) && Iso.Graded(table) && iso in Iso.CLASSES
    ensures Iso.Fits(table[iso], count03, count05) <==>
            Iso.Rank(Iso.Classify(table, count03, count05)) <= Iso.Rank(iso) && !Iso.OverTable(table, count03, count05)
  {
    Iso.SearchUnfolds(table, count03, count05);
    Iso.GradedColumns(table);
    assert Iso.CLASSES[0] in Iso.CLASSES && Iso.CLASSES[1] in Iso.CLASSES && Iso.CLASSES[2] in Iso.CLASSES && Iso.CLASSES[3] in Iso.CLASSES;
    hide Iso.Classify;
  }

  /**
   Ratio and class agree. Without overrides and with a process multiplier of at most one, a ratio of at most one
   means a class no worse than the design class; with a multiplier of at least one the converse holds for counts
   within the table.
   */
  lemma RatioAgreesWithClass(table: map<string, Iso.IsoLimit>, m: MonitorZone, iso: string, multiplier: real, count03: real, count05: real)
    requires Iso.Complete(table) && Iso.Graded(table) && iso in Iso.CLASSES && NoOverrides(m) && multiplier > 0.0
    ensures var ratio := Iso.RatioAgainst(m.EffectiveLimits(iso, table, multiplier), count03, count05);
            var noWorse := Iso.Rank(Iso.Classify(table, count03, count05)) <= Iso.Rank(iso);
            var over := Iso.OverTable(table, count03, count05);
            && (multiplier <= 1.0 && ratio <= 1.0 ==> noWorse && !over)
            && (multiplier >= 1.0 && noWorse && !over ==> ratio <= 1.0)
  {
    RatioAgainstScaled(table, m, iso, multiplier, count03, count05);
    FitsMeansRank(table, iso, count03, count05);
    assert table[iso].count03 > 0.0 && table[iso].count05 > 0.0;
    hide *;
    FitsScaled(table[iso], m.EffectiveLimits(iso, table, multiplier), multiplier, count03, count05);
  }

  lemma FitsScaled(base: Iso.IsoLimit, lim: Iso.IsoLimit, multiplier: real, count03: real, count05: real)
    requires base.count03 > 0.0 && base.count05 > 0.0 && multiplier > 0.0
    requires lim == Iso.IsoLimit(base.count03 * multiplier, base.count05 * multiplier)
    ensures multiplier <= 1.0 && Iso.Fits(lim, count03, count05) ==> Iso.Fits(base, count03, count05)
    ensures multiplier >= 1.0 && Iso.Fits(base, count03, count05) ==> Iso.Fits(lim, count03, count05)
  {
    Scaled(base.count03, multiplier);
    Scaled(base.count05, multiplier);
  }

  lemma Scaled(a: real, b: real)
    requires a > 0.0 && b > 0.0
    ensures b <= 1.0 ==> a * b <= a
    ensures b >= 1.0 ==> a * b >= a
  {
    if b <= 1.0 {
      assert a * b <= a * 1.0;
    }
    if b >= 1.0 {
      assert a * b >= a * 1.0;
    }
  }

  /** For a stored zone: in an etching area the ratio is at most one exactly for counts judged within the design class. */
  lemma EtchingRatioIsTheClass(z: CleanZone, m: MonitorZone, count03: real, count05: real)
    requires z.iso in Iso.CLASSES && NoOverrides(m) && z.process == Process.ETCHING
    ensures var table := Iso.StandardLimits();
            RatioOf(z, m, count03, count05) <= 1.0 <==>
            Iso.Rank(Iso.Classify(table, count03, count05)) <= Iso.Rank(z.iso) && !Iso.OverTable(table, count03, count05)
  {
    Iso.StandardTableIsGraded();
    EtchingProfile();
    hide Iso.StandardLimits, Iso.Classify, Iso.RatioAgainst, Iso.OverTable, Iso.Complete, Iso.Graded, Process.DefaultsFor;
    RatioAgreesWithClass(Iso.StandardLimits(), m, z.iso, 1.0, count03, count05);
  }

  lemma EtchingProfile()
    ensures Process.DefaultsFor(Process.ETCHING).multiplier == 1.0
  {
    assert Process.ETCHING[0] == 'e' && Process.LITHOGRAPHY[0] == 'l' && Process.DIFFUSION[0] == 'd';
  }

  // ---- Limits and ranges in numbers ---------------------------------------------------------------

  // Particles per cubic metre of 0.3 um a class allows, as the class is spelled in lower case.
  ghost function Allowed03(iso: string): real {
    if iso == "iso5" then 100000.0 else if iso == "iso6" then 1000000.0
    else if iso == "iso7" then 10000000.0 else if iso == "iso8" then 100000000.0 else 0.0
  }

  // And of 0.5 um.
  ghost function Allowed05(iso: string): real {
    if iso == "iso5" then 35000.0 else if iso == "iso6" then 350000.0
    else if iso == "iso7" then 3500000.0 else if iso == "iso8" then 35000000.0 else 0.0
  }

  // Lithography is the strictest process, diffusion the loosest.
  ghost function Factor(process: string): real {
    if process == "lithography" then 0.8 else if process == "diffusion" then 1.2 else 1.0
  }

  ghost function OwnOr(own: real, derived: real): real {
    if own > 0.0 then own else derived
  }

  ghost function Limit03(z: CleanZone, m: MonitorZone): real {
    OwnOr(m.thresholds.limit03, Allowed03(z.iso) * Factor(z.process))
  }

  ghost function Limit05(z: CleanZone, m: MonitorZone): real {
    OwnOr(m.thresholds.limit05, Allowed05(z.iso) * Factor(z.process))
  }

  lemma LookupInNumbers(iso: string)
    ensures Iso.Lookup(Iso.StandardLimits(), iso) == Iso.IsoLimit(Allowed03(iso), Allowed05(iso))
  {
    Iso.StandardEntries();
    hide Iso.Lookup;
    assert Iso.Lookup(Iso.StandardLimits(), iso) ==
           if iso in Iso.StandardLimits() then Iso.StandardLimits()[iso] else Iso.IsoLimit(0.0, 0.0) by { TableLookup(iso); }
  }

  lemma TableLookup(iso: string)
    ensures Iso.Lookup(Iso.StandardLimits(), iso) ==
            if iso in Iso.StandardLimits() then Iso.StandardLimits()[iso] else Iso.IsoLimit(0.0, 0.0)
  {
    hide Iso.StandardLimits;
  }

  // A bound of a monitor zone's own counts unless it is 0.
  ghost function OwnBound(own: real, usual: real): real {
    if own != 0.0 then own else usual
  }

  ghost function Bounds(process: string): Process.EnvRange {
    if process == "lithography" then Process.EnvRange(20.0, 22.0, 40.0, 50.0, 15.0, 25.0)
    else if process == "diffusion" then Process.EnvRange(21.0, 25.0, 35.0, 55.0, 5.0, 20.0)
    else Process.EnvRange(20.0, 24.0, 40.0, 60.0, 10.0, 25.0)
  }

  lemma ProcessesInNumbers(process: string)
    ensures Process.DefaultsFor(process).multiplier == Factor(process)
    ensures Process.DefaultsFor(process).range == Bounds(process)
  {
    assert Process.LITHOGRAPHY[0] == 'l' && Process.DIFFUSION[0] == 'd';
  }

  /** The limits a monitor zone is judged against: its own where set, else its class's, scaled by the process. */
  lemma LimitsInNumbers(z: CleanZone, m: MonitorZone)
    ensures LimitsOf(z, m) == Iso.IsoLimit(Limit03(z, m), Limit05(z, m))
  {
    LookupInNumbers(z.iso);
    ProcessesInNumbers(z.process);
    hide Iso.Lookup, Iso.StandardLimits, Process.DefaultsFor, Allowed03, Allowed05, Factor;
  }

  // Some count reaches t times the limit it is judged against.
  ghost predicate SomeReaches(z: CleanZone, m: MonitorZone, count03: real, count05: real, t: real) {
    Iso.Reaches(Limit03(z, m), count03, t) || Iso.Reaches(Limit05(z, m), count05, t)
  }

  /** For every t: the ratio of a reading is at least t exactly when one of its counts reaches t times its limit. */
  lemma RatioInCounts(z: CleanZone, m: MonitorZone, count03: real, count05: real, t: real)
    ensures RatioOf(z, m, count03, count05) >= t <==> SomeReaches(z, m, count03, count05, t)
  {
    LimitsInNumbers(z, m);
    hide LimitsOf, Limit03, Limit05, Iso.RatioAgainst, Iso.Reaches;
    Iso.RatioIsTheWorse(LimitsOf(z, m), count03, count05, t);
  }

  // The climate is outside the bounds of the process, as far as the monitor zone has none of its own.
  ghost predicate TooHotOrCold(z: CleanZone, m: MonitorZone, temperature: real) {
    var own, b := m.thresholds.range, Bounds(z.process);
    temperature < OwnBound(own.tempMin, b.tempMin) || temperature > OwnBound(own.tempMax, b.tempMax)
  }

  ghost predicate TooDryOrHumid(z: CleanZone, m: MonitorZone, humidity: real) {
    var own, b := m.thresholds.range, Bounds(z.process);
    humidity < OwnBound(own.humidityMin, b.humidityMin) || humidity > OwnBound(own.humidityMax, b.humidityMax)
  }

  ghost predicate PressureOff(z: CleanZone, m: MonitorZone, pressure: real) {
    var own, b := m.thresholds.range, Bounds(z.process);
    pressure < OwnBound(own.pressureMin, b.pressureMin) || pressure > OwnBound(own.pressureMax, b.pressureMax)
  }

  /** The climate conditions in numbers. */
  lemma ClimateInNumbers(z: CleanZone, m: MonitorZone, s: EnvSample)
    ensures var range := m.EffectiveEnvRange(z.process);
            && (TempOut(s, range) <==> TooHotOrCold(z, m, s.temperature))
            && (HumidityOut(s, range) <==> TooDryOrHumid(z, m, s.humidity))
            && (PressureOut(s, range) <==> PressureOff(z, m, s.pressure))
  {
    ProcessesInNumbers(z.process);
    hide Process.DefaultsFor;
  }

  // ---- A class as it was spelled ------------------------------------------------------------------

  lemma QuotientOfItself(a: real)
    requires a > 0.0
    ensures a / a == 1.0
  {
  }

  /**
   A monitor zone can report a ratio of one or more at all exactly when its clean zone's class is spelled as in the
   limit table or one of its own limits is set. A zone whose class only parses, like "ISO5", has zero limits: no
   reading of it ever shows particles above the limit.
   */
  lemma CanAlarmExactlyWhen(z: CleanZone, m: MonitorZone)
    ensures (exists count03, count05 :: RatioOf(z, m, count03, count05) >= 1.0) <==>
            z.iso in Iso.StandardLimits() || !NoOverrides(m)
  {
    var lim := LimitsOf(z, m);
    LimitsPositive(z, m);
    hide LimitsOf;
    if z.iso in Iso.StandardLimits() || !NoOverrides(m) {
      var count03 := if lim.count03 > 0.0 then lim.count03 else 0.0;
      var count05 := if lim.count05 > 0.0 then lim.count05 else 0.0;
      if lim.count03 > 0.0 {
        QuotientOfItself(lim.count03);
      }
      if lim.count05 > 0.0 {
        QuotientOfItself(lim.count05);
      }
      assert RatioOf(z, m, count03, count05) >= 1.0;
    }
  }

  lemma LimitsPositive(z: CleanZone, m: MonitorZone)
    ensures var lim := LimitsOf(z, m);
            lim.count03 > 0.0 || lim.count05 > 0.0 <==> z.iso in Iso.StandardLimits() || !NoOverrides(m)
  {
  }

  // A zone spelled with capitals.
  const LOUD := NewCleanZone("z", "Bay 1", "A", "ISO5", "Lithography", 0)

  /**
   Such a zone is accepted as it is, its readings have ratio 0 whatever the counts, and its lithography area runs
   on the etching profile.
   */
  lemma SpellingIsKept()
    ensures CreateZone(EMPTY, LOUD) == (EMPTY.(zones := [LOUD]), Ok(LOUD))
    ensures LOUD.iso !in Iso.StandardLimits()
    ensures Process.DefaultsFor(LOUD.process).process == Process.ETCHING
    ensures forall m: MonitorZone, count03, count05 :: NoOverrides(m) ==> RatioOf(LOUD, m, count03, count05) == 0.0
  {
    ClassAsSpelled();
    ProcessAsSpelled();
    hide Text.Normalise, Iso.StandardLimits, Process.DefaultsFor;
    assert !Text.Blank("z") && !Text.Blank("Bay 1") && !Text.Blank("A") by {
      assert !Text.IsSpace("z"[0]) && !Text.IsSpace("Bay 1"[0]) && !Text.IsSpace("A"[0]);
    }
    assert LOUD.Valid();
    assert EMPTY.zones + [LOUD] == [LOUD];
    forall m: MonitorZone, count03, count05 | NoOverrides(m)
      ensures RatioOf(LOUD, m, count03, count05) == 0.0
    {
    }
  }

  lemma ClassAsSpelled()
    ensures Iso.Parses("ISO5") && "ISO5" !in Iso.StandardLimits()
  {
    var s := "ISO5";
    assert Text.ToLower(Text.TrimSpace(s)) == "iso5";
    assert Iso.CLASSES[0] == "iso5";
    assert s[0] == 'I';
  }

  lemma ProcessAsSpelled()
    ensures Process.Parses("Lithography") && Process.DefaultsFor("Lithography").process == Process.ETCHING
  {
    var s := "Lithography";
    assert Text.ToLower(Text.TrimSpace(s)) == "lithography";
    assert s[0] == 'L';
  }
}
