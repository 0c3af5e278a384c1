/**
 * The date the digest header carries: the day, the Russian genitive name of
 * the month and the year, as the formatter writes it with Go's time layout
 * "2 января 2006", next to the text that layout was meant to give.
 */
module DigestDate {
  import opened GoStrings

  /** A calendar day as time.Now gives it. */
  datatype CalendarDate = CalendarDate(year: int, month: nat, day: nat)

  /** The genitive name of month m, January being 1. */
  function MonthName(m: nat): string
    requires 1 <= m <= 12
  {
    match m
    case 1 => "января"
    case 2 => "февраля"
    case 3 => "марта"
    case 4 => "апреля"
    case 5 => "мая"
    case 6 => "июня"
    case 7 => "июля"
    case 8 => "августа"
    case 9 => "сентября"
    case 10 => "октября"
    case 11 => "ноября"
    case _ => "декабря"
  }

  /**
   * The date as the layout "2 января 2006" formats it: only "2" and "2006"
   * are layout elements, so the month name is copied as it stands.
   */
  function GoDateText(d: CalendarDate): string
  {
    Itoa(d.day) + " января " + Itoa(d.year)
  }

  /** The intended date text: day, the month's genitive name, year. */
  function DateText(d: CalendarDate): string
    requires 1 <= d.month <= 12
  {
    Itoa(d.day) + " " + MonthName(d.month) + " " + Itoa(d.year)
  }

  /** An October day is printed as a January one. */
  lemma GoDateNamesJanuary()
    ensures GoDateText(CalendarDate(2026, 10, 15)) == GoDateText(CalendarDate(2026, 1, 15))
    ensures GoDateText(CalendarDate(2026, 10, 15)) != DateText(CalendarDate(2026, 10, 15))
  {
    var october := DateText(CalendarDate(2026, 10, 15));
    var written := GoDateText(CalendarDate(2026, 10, 15));
    var day := Itoa(15);
    assert october[|day| + 1] == 'о';
    assert written[|day| + 1] == 'я';
  }

  lemma MonthNamesDistinct()
    ensures forall i, j :: 1 <= i < j <= 12 ==> MonthName(i) != MonthName(j)
  {
  }

  lemma CancelAround(a: string, b: string, pre: string, post: string)
    requires pre + a + post == pre + b + post
    ensures a == b
  {
    assert a == (pre + a + post)[|pre|..|pre| + |a|];
    assert |a| == |b|;
    assert b == (pre + b + post)[|pre|..|pre| + |b|];
  }

  /** The intended text tells the months apart. */
  lemma DateTextNamesMonth(d: CalendarDate, e: CalendarDate)
    requires 1 <= d.month <= 12 && 1 <= e.month <= 12
    requires d.day == e.day && d.year == e.year
    requires DateText(d) == DateText(e)
    ensures d.month == e.month
  {
    var pre := Itoa(d.day) + " ";
    var post := " " + Itoa(d.year);
    assert DateText(d) == pre + MonthName(d.month) + post;
    assert DateText(e) == pre + MonthName(e.month) + post;
    CancelAround(MonthName(d.month), MonthName(e.month), pre, post);
    MonthNamesDistinct();
  }

  /** The two agree in January. */
  lemma GoDateRightInJanuary(d: CalendarDate)
    requires d.month == 1
    ensures GoDateText(d) == DateText(d)
  {
  }
}
