/**
 * The priority engine: a deadline's distance in days from the system date
 * mapped to an urgency label and a display colour.
 */
module Priority {
  import opened Util

  datatype Band = Critical | High | Medium | Low | Normal {

    function Label(): string {
      match this
      case Critical => "CRITICAL"
      case High => "HIGH"
      case Medium => "MEDIUM"
      case Low => "LOW"
      case Normal => "NORMAL"
    }

    function Color(): string {
      match this
      case Critical => "#ff4757"
      case High => "#ffb700"
      case Medium => "#00f3ff"
      case Low => "#94a3b8"
      case Normal => "#94a3b8"
    }

    /** How urgent a dated band is; a higher number is more urgent. */
    function Urgency(): nat {
      match this
      case Critical => 3
      case High => 2
      case Medium => 1
      case Low => 0
      case Normal => 0
    }
  }

  /** The band for a deadline `diffDays` days after the system date, or for a
      deadline that could not be parsed (None). */
  function Classify(diffDays: Option<int>): (b: Band)
    ensures b == Normal <==> diffDays.None?
    ensures diffDays.Some? ==> (b == Critical <==> diffDays.value <= 2)
    ensures diffDays.Some? ==> (b == High <==> 2 < diffDays.value <= 5)
    ensures diffDays.Some? ==> (b == Medium <==> 5 < diffDays.value <= 10)
    ensures diffDays.Some? ==> (b == Low <==> 10 < diffDays.value)
  {
    match diffDays
    case None => Normal
    case Some(d) =>
      if d <= 2 then Critical
      else if d <= 5 then High
      else if d <= 10 then Medium
      else Low
  }

  /** The (label, colour) pair the order-creation routes store. */
  function CalculateAiPriority(diffDays: Option<int>): (r: (string, string))
    ensures r.0 == Classify(diffDays).Label() && r.1 == Classify(diffDays).Color()
    ensures diffDays.None? ==> r == ("NORMAL", "#94a3b8")
    ensures diffDays.Some? && diffDays.value <= 2 ==> r == ("CRITICAL", "#ff4757")
    ensures diffDays.Some? && 2 < diffDays.value <= 5 ==> r == ("HIGH", "#ffb700")
    ensures diffDays.Some? && 5 < diffDays.value <= 10 ==> r == ("MEDIUM", "#00f3ff")
    ensures diffDays.Some? && 10 < diffDays.value ==> r == ("LOW", "#94a3b8")
  {
    var b := Classify(diffDays);
    (b.Label(), b.Color())
  }

  /** A later deadline never gets a more urgent band. */
  lemma ClassifyMonotone(earlier: int, later: int)
    requires earlier <= later
    ensures Classify(Some(later)).Urgency() <= Classify(Some(earlier)).Urgency()
  {
  }
}
