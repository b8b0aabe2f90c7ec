/** client/src/components/AnnouncementsSection.tsx: the border colour of an
    announcement card and its relative date label. Times are milliseconds
    since the epoch; the current time is a parameter. */
module AnnouncementsSection {
  import opened Js
  import opened ClientTypes

  /** `getBorderColor(type)`. */
  function BorderColor(kind: string): string {
    if kind == "important" then "border-red-500"
    else if kind == "special" then "border-accent"
    else "border-primary"
  }

  /** Important cards are red and special ones accented; every other type,
      the default one included, gets the primary border, so the three
      announcement types get three different borders. */
  lemma BorderColors(kind: string, a: AnnouncementType, b: AnnouncementType)
    ensures BorderColor(kind) == "border-red-500" <==> kind == "important"
    ensures BorderColor(kind) == "border-accent" <==> kind == "special"
    ensures BorderColor(kind) == "border-primary" <==> kind != "important" && kind != "special"
    ensures BorderColor(AnnouncementTypeName(a)) == BorderColor(AnnouncementTypeName(b)) <==> a == b
  {
  }

  /** Milliseconds in a day: 1000 * 60 * 60 * 24. */
  const DayMs := 86400000

  /** `Math.floor((now - date) / DayMs)`: the whole days elapsed, rounded
      down, so a time in the future gives a negative count. */
  function DiffInDays(now: int, date: int): (d: int)
    ensures d * DayMs <= now - date < d * DayMs + DayMs
    ensures now >= date ==> d >= 0
    ensures now < date ==> d < 0
  {
    (now - date) / DayMs
  }

  /** `formatDate`'s if-chain on the day count. */
  function FormatDate(days: int): string {
    if days == 0 then "Today"
    else if days == 1 then "Yesterday"
    else if days < 7 then IntToString(days) + " days ago"
    else if days < 30 then IntToString(days / 7) + " weeks ago"
    else IntToString(days / 30) + " months ago"
  }

  /** The number a label shows is what its bucket promises: under a week
      the days themselves (a negative count included), under thirty days
      the whole weeks, one to four, and beyond that the whole thirty-day
      months. "Today" and "Yesterday" carry no number. */
  lemma FormatDateReadBack(days: int)
    ensures days == 0 <==> FormatDate(days) == "Today"
    ensures days == 1 <==> FormatDate(days) == "Yesterday"
    ensures days < 7 && days != 0 && days != 1 ==> ParseInt(FormatDate(days)) == Some(days)
    ensures 7 <= days < 30 ==>
      var w := ParseInt(FormatDate(days));
      w.Some? && 1 <= w.value <= 4 && 7 * w.value <= days < 7 * w.value + 7
    ensures 30 <= days ==>
      var m := ParseInt(FormatDate(days));
      m.Some? && 1 <= m.value && 30 * m.value <= days < 30 * m.value + 30
  {
    if days < 7 && days != 0 && days != 1 {
      ParseIntOfLabel(days, " days ago");
    } else if 7 <= days < 30 {
      ParseIntOfLabel(days / 7, " weeks ago");
    } else if 30 <= days {
      ParseIntOfLabel(days / 30, " months ago");
    }
    if days != 0 && days != 1 {
      var text := FormatDate(days);
      assert text != "Today" && text != "Yesterday" by {
        assert text[|text| - 1] == 'o';
      }
    }
  }

  /** The label of an announcement stamped at `date`, read at `now`. */
  function DateLabel(now: int, date: int): string {
    FormatDate(DiffInDays(now, date))
  }

  /** Within the first day the label is "Today" and within the second
      "Yesterday"; a time in the future reads as a negative number of days. */
  lemma DateLabelDays(now: int, date: int)
    ensures date <= now < date + DayMs ==> DateLabel(now, date) == "Today"
    ensures date + DayMs <= now < date + 2 * DayMs ==> DateLabel(now, date) == "Yesterday"
    ensures now < date ==> ParseInt(DateLabel(now, date)) == Some(DiffInDays(now, date))
  {
    var d := DiffInDays(now, date);
    FormatDateReadBack(d);
  }
}
