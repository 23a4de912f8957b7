/**
 * `BlogUiController.ContentChecker`: how stale an entry's content is, judged from the date it was
 * last updated. The four flags are computed once, in order, in the constructor, and each one
 * excludes the ones computed before it.
 */
module ContentCheck {
  import opened Wrappers
  import opened BlogModel

  /**
   * What the `EventTime` age predicates answer at a given moment (`isOverFiveYearsOld`,
   * `isOverThreeYearsOld`, `isOverOneYearOld`, `isOverHalfYearOld`); they read the clock, so
   * they are inputs here.
   */
  datatype AgeFlags = AgeFlags(overFiveYears: bool, overThreeYears: bool, overOneYear: bool, overHalfYear: bool)

  /** Ages as a clock gives them: older than five years implies older than three, and so on. */
  predicate Consistent(a: AgeFlags)
  {
    (a.overFiveYears ==> a.overThreeYears)
    && (a.overThreeYears ==> a.overOneYear)
    && (a.overOneYear ==> a.overHalfYear)
  }

  datatype Flags = Flags(quiteDanger: bool, danger: bool, warning: bool, caution: bool)

  predicate AtMostOne(f: Flags)
  {
    (if f.quiteDanger then 1 else 0) + (if f.danger then 1 else 0)
      + (if f.warning then 1 else 0) + (if f.caution then 1 else 0) <= 1
  }

  /**
   * The flags for the ages `a`: each flag holds when its own age predicate holds and none of the
   * flags before it does.
   */
  function Classify(a: AgeFlags): (f: Flags)
    ensures AtMostOne(f)
    ensures f.quiteDanger ==> a.overFiveYears
    ensures f.danger ==> a.overThreeYears
    ensures f.warning ==> a.overOneYear
    ensures f.caution ==> a.overHalfYear
    ensures (f.quiteDanger || f.danger || f.warning || f.caution)
      <==> (a.overFiveYears || a.overThreeYears || a.overOneYear || a.overHalfYear)
  {
    var q := a.overFiveYears;
    var d := !q && a.overThreeYears;
    var w := !q && !d && a.overOneYear;
    var c := !q && !d && !w && a.overHalfYear;
    Flags(q, d, w, c)
  }

  /**
   * For ages a clock can give, the flags are age bands: over five years, three to five, one to
   * three, half a year to one.
   */
  lemma ClassifyBands(a: AgeFlags)
    requires Consistent(a)
    ensures var f := Classify(a);
      && (f.quiteDanger <==> a.overFiveYears)
      && (f.danger <==> a.overThreeYears && !a.overFiveYears)
      && (f.warning <==> a.overOneYear && !a.overThreeYears)
      && (f.caution <==> a.overHalfYear && !a.overOneYear)
  {
  }

  class ContentChecker {
    /** The date the ages are measured from: the entry's `updated` date, despite the field's name. */
    const created: EventTime
    var quiteDanger: Option<bool>
    var danger: Option<bool>
    var warning: Option<bool>
    var caution: Option<bool>

    /** `isQuiteDanger()`: the stored flag, or the age predicate at the moment `now`. */
    function IsQuiteDanger(now: AgeFlags): bool
      reads this
    {
      if quiteDanger.Some? then quiteDanger.value else now.overFiveYears
    }

    function IsDanger(now: AgeFlags): bool
      reads this
    {
      if danger.Some? then danger.value else !IsQuiteDanger(now) && now.overThreeYears
    }

    function IsWarning(now: AgeFlags): bool
      reads this
    {
      if warning.Some? then warning.value else !IsQuiteDanger(now) && !IsDanger(now) && now.overOneYear
    }

    function IsCaution(now: AgeFlags): bool
      reads this
    {
      if caution.Some? then caution.value
      else !IsQuiteDanger(now) && !IsDanger(now) && !IsWarning(now) && now.overHalfYear
    }

    /** The four answers at the moment `now`. */
    function Current(now: AgeFlags): Flags
      reads this
    {
      Flags(IsQuiteDanger(now), IsDanger(now), IsWarning(now), IsCaution(now))
    }

    /**
     * `new ContentChecker(entry)`, when the age predicates answer `ages`: every flag is stored,
     * so at any later moment the checker answers the flags classified at construction.
     */
    constructor (entry: Entry, ages: AgeFlags)
      ensures created == entry.updated.date
      ensures forall later :: Current(later) == Classify(ages)
    {
      created := entry.updated.date;
      quiteDanger, danger, warning, caution := None, None, None, None;
      new;
      quiteDanger := Some(IsQuiteDanger(ages));
      danger := Some(IsDanger(ages));
      warning := Some(IsWarning(ages));
      caution := Some(IsCaution(ages));
    }
  }
}
