/** ISO cleanliness classes: the dual-size search and the concentration-to-limit ratio. */
module Iso {
  import Text

  datatype IsoLimit = IsoLimit(count03: real, count05: real)

  const ISO5 := "iso5"
  const ISO6 := "iso6"
  const ISO7 := "iso7"
  const ISO8 := "iso8"

  // From cleanest to dirtiest.
  const CLASSES := [ISO5, ISO6, ISO7, ISO8]

  predicate Parses(s: string) {
    Text.Normalise(s) in CLASSES
  }

  function Rank(cls: string): int {
    if cls == ISO5 then 5
    else if cls == ISO6 then 6
    else if cls == ISO7 then 7
    else if cls == ISO8 then 8
    else 99
  }

  // The concentration limits in particles per cubic metre.
  function StandardLimits(): map<string, IsoLimit> {
    map[
      ISO5 := IsoLimit(100000.0, 35000.0),
      ISO6 := IsoLimit(1000000.0, 350000.0),
      ISO7 := IsoLimit(10000000.0, 3500000.0),
      ISO8 := IsoLimit(100000000.0, 35000000.0)
    ]
  }

  predicate Fits(lim: IsoLimit, count03: real, count05: real) {
    count03 <= lim.count03 && count05 <= lim.count05
  }

  // A missing entry reads as the zero limit, like a Go map.
  function Lookup(table: map<string, IsoLimit>, cls: string): IsoLimit {
    if cls in table then table[cls] else IsoLimit(0.0, 0.0)
  }

  // The class the search settles on when it still has these classes to visit.
  function Search(table: map<string, IsoLimit>, classes: seq<string>, best: string, count03: real, count05: real): string {
    if classes == [] then best
    else if classes[0] !in table then Search(table, classes[1..], best, count03, count05)
    else if Fits(table[classes[0]], count03, count05) then classes[0]
    else Search(table, classes[1..], classes[0], count03, count05)
  }

  function Classify(table: map<string, IsoLimit>, count03: real, count05: real): string {
    Search(table, CLASSES, ISO5, count03, count05)
  }

  function OverTable(table: map<string, IsoLimit>, count03: real, count05: real): bool {
    !Fits(Lookup(table, ISO8), count03, count05)
  }

  method ClassifyISO(table: map<string, IsoLimit>, count03: real, count05: real) returns (best: string, over: bool)
    ensures best == Classify(table, count03, count05) && over == OverTable(table, count03, count05)
  {
    best := ISO5;
    over := false;
    var i := 0;
    while i < |CLASSES|
      invariant 0 <= i <= |CLASSES|
      invariant Search(table, CLASSES[i..], best, count03, count05) == Classify(table, count03, count05)
    {
      var cls := CLASSES[i];
      assert CLASSES[i..][0] == cls && CLASSES[i..][1..] == CLASSES[i + 1..];
      i := i + 1;
      if cls !in table {
        continue;
      }
      best := cls;
      if Fits(table[cls], count03, count05) {
        break;
      }
    }
    var last := Lookup(table, ISO8);
    if count03 > last.count03 || count05 > last.count05 {
      over := true;
    }
  }

  function RatioAgainst(lim: IsoLimit, count03: real, count05: real): real {
    var r1 := if lim.count03 > 0.0 then count03 / lim.count03 else 0.0;
    var r2 := if lim.count05 > 0.0 then count05 / lim.count05 else 0.0;
    if r1 >= r2 then r1 else r2
  }

  // ValidateLimitTable accepts it.
  predicate Complete(table: map<string, IsoLimit>) {
    forall cls :: cls in CLASSES ==> cls in table && table[cls].count03 > 0.0 && table[cls].count05 > 0.0
  }

  // The limits never shrink from a class to a dirtier one.
  predicate Graded(table: map<string, IsoLimit>) {
    forall i, j :: 0 <= i < j < |CLASSES| ==>
      Within(Lookup(table, CLASSES[i]), Lookup(table, CLASSES[j]))
  }

  predicate Within(a: IsoLimit, b: IsoLimit) {
    a.count03 <= b.count03 && a.count05 <= b.count05
  }

  // Independent reference: the cleanest class whose single limit admits the count, else the dirtiest.
  ghost function CleanestFor(limit: string -> real, count: real): (i: nat)
    ensures i < |CLASSES|
  {
    if count <= limit(ISO5) then 0 else if count <= limit(ISO6) then 1 else if count <= limit(ISO7) then 2 else 3
  }

  ghost function Class03(table: map<string, IsoLimit>, count: real): nat {
    CleanestFor(c => Lookup(table, c).count03, count)
  }

  ghost function Class05(table: map<string, IsoLimit>, count: real): nat {
    CleanestFor(c => Lookup(table, c).count05, count)
  }

  /** The search through a complete table, class by class. */
  lemma SearchUnfolds(table: map<string, IsoLimit>, count03: real, count05: real)
    requires Complete(table)
    ensures Classify(table, count03, count05) ==
            if Fits(Lookup(table, ISO5), count03, count05) then ISO5
            else if Fits(Lookup(table, ISO6), count03, count05) then ISO6
            else if Fits(Lookup(table, ISO7), count03, count05) then ISO7
            else ISO8
  {
    assert CLASSES[0] in CLASSES && CLASSES[1] in CLASSES && CLASSES[2] in CLASSES && CLASSES[3] in CLASSES;
    SearchHead(table, ISO5, [ISO6, ISO7, ISO8], ISO5, count03, count05);
    SearchHead(table, ISO6, [ISO7, ISO8], ISO5, count03, count05);
    SearchHead(table, ISO7, [ISO8], ISO6, count03, count05);
    SearchHead(table, ISO8, [], ISO7, count03, count05);
  }

  lemma SearchHead(table: map<string, IsoLimit>, cls: string, rest: seq<string>, best: string, count03: real, count05: real)
    requires cls in table
    ensures Search(table, [cls] + rest, best, count03, count05) ==
            if Fits(Lookup(table, cls), count03, count05) then cls else Search(table, rest, cls, count03, count05)
  {
    assert ([cls] + rest)[1..] == rest;
  }

  /** Dual-size rule: each size is judged on its own table column and the worse class wins. */
  lemma WorseOfTwoSizes(table: map<string, IsoLimit>, count03: real, count05: real)
    requires Complete(table) && Graded(table)
    ensures var i, j := Class03(table, count03), Class05(table, count05);
            Classify(table, count03, count05) == CLASSES[if i >= j then i else j]
  {
    SearchUnfolds(table, count03, count05);
    GradedColumns(table);
  }

  lemma GradedColumns(table: map<string, IsoLimit>)
    requires Graded(table)
    ensures Within(Lookup(table, ISO5), Lookup(table, ISO6))
    ensures Within(Lookup(table, ISO6), Lookup(table, ISO7))
    ensures Within(Lookup(table, ISO7), Lookup(table, ISO8))
  {
    assert CLASSES[0] == ISO5 && CLASSES[1] == ISO6 && CLASSES[2] == ISO7 && CLASSES[3] == ISO8;
  }

  /** More particles of either size never make the verdict cleaner, nor clear the over-table flag. */
  lemma MonotoneInBothCounts(table: map<string, IsoLimit>, a03: real, a05: real, b03: real, b05: real)
    requires Complete(table)
    requires a03 <= b03 && a05 <= b05
    ensures Rank(Classify(table, a03, a05)) <= Rank(Classify(table, b03, b05))
    ensures OverTable(table, a03, a05) ==> OverTable(table, b03, b05)
  {
    SearchUnfolds(table, a03, a05);
    SearchUnfolds(table, b03, b05);
  }

  /** The flag is raised exactly when no class of the table admits the counts. */
  lemma OverTableMeansNoClassFits(table: map<string, IsoLimit>, count03: real, count05: real)
    requires Complete(table) && Graded(table)
    ensures OverTable(table, count03, count05) <==> forall cls :: cls in CLASSES ==> !Fits(table[cls], count03, count05)
  {
    GradedColumns(table);
    assert CLASSES[3] in CLASSES;
  }

  /** A ratio of at most one is the same as staying within both limits. */
  lemma RatioAtMostOne(lim: IsoLimit, count03: real, count05: real)
    requires lim.count03 > 0.0 && lim.count05 > 0.0
    ensures RatioAgainst(lim, count03, count05) <= 1.0 <==> Fits(lim, count03, count05)
  {
    QuotientAtMostOne(count03, lim.count03);
    QuotientAtMostOne(count05, lim.count05);
  }

  lemma QuotientAtMostOne(a: real, b: real)
    requires b > 0.0
    ensures a / b <= 1.0 <==> a <= b
  {
    assert a == (a / b) * b;
    if a / b <= 1.0 {
      assert (a / b) * b <= 1.0 * b;
    } else {
      assert (a / b) * b > 1.0 * b;
    }
  }

  // A count reaches t times its limit; without a limit it counts as 0.
  predicate Reaches(limit: real, count: real, t: real) {
    if limit > 0.0 then count >= t * limit else 0.0 >= t
  }

  lemma QuotientAtLeast(a: real, b: real, t: real)
    requires b > 0.0
    ensures a / b >= t <==> a >= t * b
  {
    assert a == (a / b) * b;
    if a / b >= t {
      assert (a / b) * b >= t * b;
    } else {
      assert (a / b) * b < t * b;
    }
  }

  /** The ratio is the worse of the two sizes: it is at least t exactly when some count reaches t times its limit. */
  lemma RatioIsTheWorse(lim: IsoLimit, count03: real, count05: real, t: real)
    ensures RatioAgainst(lim, count03, count05) >= t <==> Reaches(lim.count03, count03, t) || Reaches(lim.count05, count05, t)
  {
    if lim.count03 > 0.0 {
      QuotientAtLeast(count03, lim.count03, t);
    }
    if lim.count05 > 0.0 {
      QuotientAtLeast(count05, lim.count05, t);
    }
  }

  lemma ClassesDiffer()
    ensures ISO5 != ISO6 && ISO5 != ISO7 && ISO5 != ISO8 && ISO6 != ISO7 && ISO6 != ISO8 && ISO7 != ISO8
  {
    assert ISO5[3] == '5' && ISO6[3] == '6' && ISO7[3] == '7' && ISO8[3] == '8';
  }

  lemma StandardEntries()
    ensures ISO5 in StandardLimits() && StandardLimits()[ISO5] == IsoLimit(100000.0, 35000.0)
    ensures ISO6 in StandardLimits() && StandardLimits()[ISO6] == IsoLimit(1000000.0, 350000.0)
    ensures ISO7 in StandardLimits() && StandardLimits()[ISO7] == IsoLimit(10000000.0, 3500000.0)
    ensures ISO8 in StandardLimits() && StandardLimits()[ISO8] == IsoLimit(100000000.0, 35000000.0)
  {
    ClassesDiffer();
  }

  /** The built-in table satisfies what the other lemmas ask of a table. */
  lemma StandardTableIsGraded()
    ensures Complete(StandardLimits()) && Graded(StandardLimits())
  {
    hide StandardLimits;
    StandardEntries();
    forall i, j | 0 <= i < j < |CLASSES|
      ensures Within(Lookup(StandardLimits(), CLASSES[i]), Lookup(StandardLimits(), CLASSES[j]))
    {
      assert CLASSES[0] == ISO5 && CLASSES[1] == ISO6 && CLASSES[2] == ISO7 && CLASSES[3] == ISO8;
    }
  }
}
