/**
 * Display rules shared by the admin lists and the public sections: the
 * "first three technologies + N more" preview, the end of an experience's
 * date range, and the alternating timeline layout.
 */
module Display {
  import opened Wrappers

  /** The technologies a card shows, and the "+N" badge when some are hidden. */
  datatype TechPreview = TechPreview(shown: seq<string>, more: Option<nat>)

  /** `techs.slice(0, 3)` and, when `techs.length > 3`, a badge `+{techs.length - 3}`. */
  function PreviewTechnologies(techs: seq<string>): (p: TechPreview)
    ensures p.shown <= techs
    ensures |p.shown| == if |techs| < 3 then |techs| else 3
    ensures p.more.Some? <==> |techs| > 3
    ensures |p.shown| + p.more.GetOr(0) == |techs|
  {
    if |techs| > 3 then TechPreview(techs[..3], Some(|techs| - 3))
    else TechPreview(techs, None)
  }

  /** How an experience's date range ends: the formatted end date, or "Presente". */
  datatype EndLabel = Present | Until(date: string)

  /** `end_date ? format(end_date) : 'Presente'`: an absent or empty end date reads as the current position. */
  function EndDateLabel(endDate: Option<string>): (l: EndLabel)
    ensures l.Present? <==> endDate.None? || endDate == Some("")
    ensures l.Until? ==> endDate == Some(l.date)
  {
    if Truthy(endDate) then Until(endDate.value) else Present
  }

  /** The timeline marker pulses (`!experience.end_date`) for the current position. */
  predicate MarkerPulses(endDate: Option<string>) {
    !Truthy(endDate)
  }

  /** The marker pulses exactly on the rows whose range ends in "Presente". */
  lemma PulsesIffPresent(endDate: Option<string>)
    ensures MarkerPulses(endDate) <==> EndDateLabel(endDate) == Present
  {
  }

  datatype RowSide = Normal | Reversed

  /** `index % 2 === 0 ? 'md:flex-row' : 'md:flex-row-reverse'`. */
  function RowDirection(index: nat): (d: RowSide)
    ensures d == Normal <==> index % 2 == 0
  {
    if index % 2 == 0 then Normal else Reversed
  }

  /** Consecutive timeline rows face opposite ways. */
  lemma RowsAlternate(index: nat)
    ensures RowDirection(index) != RowDirection(index + 1)
  {
  }
}
