/**
 * The logic of client-rivora/src/components/Schedule.jsx: the ordinal suffix of a day
 * of the month, the time-zone abbreviation table, the A.M./P.M. rewriting of a
 * formatted time, and the two flags the component's handlers flip.
 */
module Schedule {
  import opened Wrappers
  import opened JsString

  /** JavaScript's `%`: the remainder takes the sign of the dividend. */
  function JsRem(a: int, b: int): (r: int)
    requires b > 0
    ensures a >= 0 ==> r == a % b
    ensures -b < r < b
  {
    if a >= 0 then a % b else -((-a) % b)
  }

  /** The suffix written after a day number. */
  function OrdinalSuffix(d: int): (r: string)
    ensures r == "st" || r == "nd" || r == "rd" || r == "th"
    ensures 3 < d < 21 ==> r == "th"
    ensures 1 <= d <= 31 ==> r == EnglishOrdinal(d)
  {
    if d > 3 && d < 21 then "th"
    else
      match JsRem(d, 10)
      case 1 => "st"
      case 2 => "nd"
      case 3 => "rd"
      case _ => "th"
  }

  /** The English rule: "th" for numbers ending in 11, 12 or 13, otherwise by the last digit. */
  function EnglishOrdinal(n: nat): string
  {
    if 11 <= n % 100 <= 13 then "th"
    else if n % 10 == 1 then "st"
    else if n % 10 == 2 then "nd"
    else if n % 10 == 3 then "rd"
    else "th"
  }

  /** The days the component is known to render. */
  lemma OrdinalExamples()
    ensures OrdinalSuffix(1) == "st" && OrdinalSuffix(2) == "nd" && OrdinalSuffix(3) == "rd"
    ensures OrdinalSuffix(11) == "th" && OrdinalSuffix(12) == "th" && OrdinalSuffix(13) == "th"
    ensures OrdinalSuffix(21) == "st" && OrdinalSuffix(22) == "nd" && OrdinalSuffix(23) == "rd"
    ensures OrdinalSuffix(31) == "st"
  {
  }

  const TimeZoneMap: map<string, string> :=
    map["Asia/Calcutta" := "IST", "America/New_York" := "EST",
        "America/Los_Angeles" := "PST", "Europe/London" := "GMT"]

  /** `timeZoneMap[zone] || zone`: the zone's abbreviation when the table has one, otherwise the zone itself. */
  function TimeZoneAbbr(zone: string): (r: string)
    ensures zone in TimeZoneMap ==> r == TimeZoneMap[zone]
    ensures zone !in TimeZoneMap ==> r == zone
  {
    if zone in TimeZoneMap then TimeZoneMap[zone] else zone
  }

  /**
   * A zone comes back unchanged exactly when the table does not list it, and an
   * abbreviation is never itself abbreviated again.
   */
  lemma TimeZoneAbbrFallback(zone: string)
    ensures TimeZoneAbbr(zone) == zone <==> zone !in TimeZoneMap
    ensures TimeZoneAbbr(TimeZoneAbbr(zone)) == TimeZoneAbbr(zone)
  {
    assert "IST" !in TimeZoneMap && "EST" !in TimeZoneMap && "PST" !in TimeZoneMap && "GMT" !in TimeZoneMap;
  }

  /** A JavaScript string value is falsy when it is missing or empty. */
  predicate Falsy(s: Option<string>)
  {
    s.None? || s.value == ""
  }

  /**
   * `formatted.replace('AM', 'A.M.').replace('PM', 'P.M.')`: a rendering without any 'A'
   * or 'P' (a 24-hour clock) comes back as it is.
   */
  function Meridiem(formatted: string): (r: string)
    ensures 'A' !in formatted && 'P' !in formatted ==> r == formatted
  {
    var r := ReplaceFirst(ReplaceFirst(formatted, "AM", "A.M."), "PM", "P.M.");
    assert 'A' !in formatted && 'P' !in formatted ==> r == formatted by {
      if 'A' !in formatted && 'P' !in formatted {
        ReplaceFirstAbsent(formatted, "AM", "A.M.");
        ReplaceFirstAbsent(formatted, "PM", "P.M.");
      }
    }
    r
  }

  /**
   * `formatTimeForDisplay`: empty for a falsy input; otherwise the locale's rendering
   * (`intl`, or None when the formatter throws, in which case the input comes back).
   */
  function FormatTimeForDisplay(timeString: Option<string>, intl: Option<string>): (r: string)
    ensures Falsy(timeString) ==> r == ""
    ensures !Falsy(timeString) && intl.None? ==> r == timeString.value
    ensures !Falsy(timeString) && intl.Some? ==> r == Meridiem(intl.value)
  {
    if Falsy(timeString) then ""
    else match intl
      case None => timeString.value
      case Some(f) => Meridiem(f)
  }

  /**
   * A rendered time whose clock part holds no 'A' and no 'P' ("10:30 AM", "9:05 PM")
   * gets exactly its marker dotted and keeps everything else.
   */
  lemma MeridiemDotsMarker(clock: string)
    requires 'A' !in clock && 'P' !in clock
    ensures Meridiem(clock + "AM") == clock + "A.M."
    ensures Meridiem(clock + "PM") == clock + "P.M."
  {
    var am := clock + "AM";
    MarkerFirstAt(clock, "AM");
    assert ReplaceFirst(am, "AM", "A.M.") == clock + "A.M." by {
      assert am[..|clock|] == clock && am[|clock| + 2..] == [];
    }
    assert 'P' !in clock + "A.M.";
    ReplaceFirstAbsent(clock + "A.M.", "PM", "P.M.");

    var pm := clock + "PM";
    assert 'A' !in pm;
    ReplaceFirstAbsent(pm, "AM", "A.M.");
    MarkerFirstAt(clock, "PM");
    assert ReplaceFirst(pm, "PM", "P.M.") == clock + "P.M." by {
      assert pm[..|clock|] == clock && pm[|clock| + 2..] == [];
    }
  }

  /** A marker whose first character the clock part lacks first occurs right after it. */
  lemma MarkerFirstAt(clock: string, marker: string)
    requires |marker| > 0 && marker[0] !in clock
    ensures OccursAt(clock + marker, marker, |clock|)
    ensures forall j: nat :: j < |clock| ==> !OccursAt(clock + marker, marker, j)
  {
    var s := clock + marker;
    assert s[|clock|..|clock| + |marker|] == marker;
    forall j: nat | j < |clock| ensures !OccursAt(s, marker, j) {
      assert clock[j] in clock;
      if j + |marker| <= |s| {
        assert s[j..j + |marker|][0] == clock[j];
      }
    }
  }

  /**
   * `formatDateForDisplay`: empty for a falsy input; otherwise the locale's rendering
   * with the day already rewritten (`dayText`), then the zone's abbreviation in parentheses.
   */
  function FormatDateForDisplay(utcString: Option<string>, dayText: string, zone: string): (r: string)
    ensures Falsy(utcString) ==> r == ""
    ensures !Falsy(utcString) ==> r == dayText + " (" + TimeZoneAbbr(zone) + ")"
  {
    if Falsy(utcString) then "" else dayText + " (" + TimeZoneAbbr(zone) + ")"
  }

  /** The component's two state flags, and the values it has handed to its `onSubmit` prop. */
  class ScheduleState {
    var isDialogOpen: bool
    var isScheduled: bool
    var submitted: seq<string>

    constructor ()
      ensures !isDialogOpen && !isScheduled && submitted == []
    {
      isDialogOpen, isScheduled, submitted := false, false, [];
    }

    method HandleOpenDialog()
      modifies this`isDialogOpen
      ensures isDialogOpen
    {
      isDialogOpen := true;
    }

    method HandleCloseDialog()
      modifies this`isDialogOpen
      ensures !isDialogOpen
    {
      isDialogOpen := false;
    }

    /**
     * Submitting the dialog with the chosen date and time converted to UTC (`utcDate`,
     * or None when the date is invalid and the conversion throws before anything changes).
     */
    method HandleScheduleSubmit(utcDate: Option<string>)
      modifies this
      ensures utcDate.None? ==>
        isDialogOpen == old(isDialogOpen) && isScheduled == old(isScheduled) && submitted == old(submitted)
      ensures utcDate.Some? ==>
        isScheduled && !isDialogOpen && submitted == old(submitted) + [utcDate.value]
    {
      if utcDate.None? {
        return;
      }
      submitted := submitted + [utcDate.value];
      isScheduled := true;
      isDialogOpen := false;
    }

    method HandleEditSchedule()
      modifies this`isDialogOpen
      ensures isDialogOpen
    {
      isDialogOpen := true;
    }

    method HandleRemoveSchedule()
      modifies this`isScheduled
      ensures !isScheduled
    {
      isScheduled := false;
    }
  }
}
