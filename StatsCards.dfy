/**
 * The four summary cards above the dashboard: total applications with the
 * change against last month, responses received, interviews, and
 * priority applications, each with its secondary line.
 */
module StatsCards {
  import opened Wrappers
  import opened Dates
  import opened Database
  import opened Seqs
  import opened Text
  import opened Stats

  datatype Trend = Up | Down | Neutral

  /** The badge under the total: a signed number, its trend and the label "este mes". */
  datatype Change = Change(value: string, trend: Trend, caption: string)

  /** One card: its title, the number it shows, and either a change badge or a secondary line. */
  datatype StatCard = StatCard(title: string, value: nat, change: Option<Change>, secondaryText: Option<string>)

  /** `monthTrend`: up when this month has more applications than last month, down when fewer. */
  function MonthTrend(thisMonth: nat, lastMonth: nat): (t: Trend)
    ensures t == Up <==> thisMonth > lastMonth
    ensures t == Down <==> thisMonth < lastMonth
    ensures t == Neutral <==> thisMonth == lastMonth
  {
    var diff := thisMonth - lastMonth;
    if diff > 0 then Up else if diff < 0 then Down else Neutral
  }

  /** Swapping the two months turns an upward trend into a downward one. */
  lemma TrendSwaps(a: nat, b: nat)
    ensures MonthTrend(a, b) == Up <==> MonthTrend(b, a) == Down
    ensures MonthTrend(a, b) == Neutral <==> MonthTrend(b, a) == Neutral
  {
  }

  /** A "+" in front of a number does not change the number it reads as. */
  lemma {:induction false} ParsePlus(n: nat)
    ensures ParseNumber("+" + ShowInt(n)) == Some(n)
  {
    ParseShowInt(n);
    assert SignlessPart("+" + ShowInt(n)) == SignlessPart(ShowInt(n)) by {
      assert IsDigit(ShowInt(n)[0]);
      assert ("+" + ShowInt(n))[1..] == ShowInt(n);
    }
  }

  /**
   * The change badge of the total card: the signed month-on-month
   * difference ("+" in front of a rise) with its trend; when the two months
   * tie, this month's count with a neutral trend.
   */
  function TotalChange(thisMonth: nat, lastMonth: nat): (c: Change)
    ensures c.caption == "este mes"
    ensures c.trend == MonthTrend(thisMonth, lastMonth)
    ensures thisMonth != lastMonth ==> ParseNumber(c.value) == Some(thisMonth - lastMonth)
    ensures thisMonth == lastMonth ==> ParseNumber(c.value) == Some(thisMonth)
    ensures c.value[0] == '+' <==> thisMonth > lastMonth
    ensures c.value[0] == '-' <==> thisMonth < lastMonth
  {
    var diff := thisMonth - lastMonth;
    if diff != 0 then
      ParseShowInt(diff);
      if diff > 0 then
        ParsePlus(diff);
        Change("+" + ShowInt(diff), MonthTrend(thisMonth, lastMonth), "este mes")
      else
        Change(ShowInt(diff), MonthTrend(thisMonth, lastMonth), "este mes")
    else
      ParseShowInt(thisMonth);
      assert ShowInt(thisMonth)[0] != '+' by {
        assert IsDigit(ShowNat(thisMonth)[0]);
      }
      Change(ShowInt(thisMonth), Neutral, "este mes")
  }

  /** The applications the company answered but that are neither interviews nor accepted. */
  function ContestadaORechazada(): Application -> bool {
    (a: Application) => a.status == TeContestaron || a.status == Rechazada
  }

  function IsPriority(): Application -> bool {
    (a: Application) => a.isPriority
  }

  /**
   * "Respuestas Recibidas": interviews and accepted from the stats plus a
   * direct count of "te contestaron" and rejected.  It is exactly the
   * number of applications in an answered status, the numerator of
   * `tasaRespuesta`.
   */
  function ResponsesReceived(apps: seq<Application>, now: YearMonth, stats: ApplicationStats): (n: nat)
    requires stats == GetStats(apps, now)
    ensures n == CountWhere(apps, Responded())
    ensures n <= |apps|
    ensures stats.tasaRespuesta == ResponseRate(n, |apps|)
  {
    CountOr(apps, HasStatus(TeContestaron), HasStatus(Rechazada), ContestadaORechazada());
    RespondedIsSumOfAnswered(apps);
    stats.entrevistas + stats.aceptadas + CountWhere(apps, ContestadaORechazada())
  }

  /** `priorityCount`: how many applications are marked as priority; zero exactly when none is. */
  function PriorityCount(apps: seq<Application>): (n: nat)
    ensures n <= |apps|
    ensures n == |Filter(apps, IsPriority())|
    ensures n == 0 <==> forall a :: a in apps ==> !a.isPriority
  {
    FilterLength(apps, IsPriority());
    CountWhereZero(apps, IsPriority());
    assert (forall a :: a in apps ==> !a.isPriority) <==> (forall i :: 0 <= i < |apps| ==> !apps[i].isPriority) by {
      if forall i :: 0 <= i < |apps| ==> !apps[i].isPriority {
        forall a | a in apps ensures !a.isPriority {
          var i :| 0 <= i < |apps| && apps[i] == a;
        }
      }
    }
    CountWhere(apps, IsPriority())
  }

  /** The secondary line of the responses card. */
  function ResponsesSecondary(total: nat): (text: string)
    ensures total == 0 <==> text == "Sin postulaciones"
    ensures total > 0 ==> |text| == 3 + |ShowNat(total)| + 14
    ensures total > 0 ==> text[..3] == "de " && ParseNumber(text[3..3 + |ShowNat(total)|]) == Some(total)
  {
    ParseShowInt(total);
    if total > 0 then "de " + ShowNat(total) + " postulaciones" else "Sin postulaciones"
  }

  /** `count + " " + word` with an "s" added unless the count is one. */
  function Counted(count: nat, word: string, plural: bool): (r: string)
    ensures var k := |ShowNat(count)|;
            && |r| == k + 1 + |word| + (if plural then 1 else 0)
            && r[..k] == ShowNat(count) && r[k..k + 1 + |word|] == " " + word
    ensures word != [] ==> (r[|r| - 1] == 's' <==> plural || word[|word| - 1] == 's')
  {
    ShowNat(count) + " " + word + (if plural then "s" else "")
  }

  /**
   * The secondary line of the interviews card: the accepted count when
   * there is one, otherwise the pending count; either way the noun is
   * plural exactly when the count is not one.
   */
  function InterviewsSecondary(aceptadas: nat, pendientes: nat): (text: string)
    ensures |text| >= |ShowNat(if aceptadas > 0 then aceptadas else pendientes)| + 9
    ensures aceptadas == 0 ==> |text| >= |ShowNat(pendientes)| + 10
    ensures var shown := if aceptadas > 0 then aceptadas else pendientes;
            text[..|ShowNat(shown)|] == ShowNat(shown) && (text[|text| - 1] == 's' <==> shown != 1)
    ensures aceptadas > 0 ==> text[|ShowNat(aceptadas)|..|ShowNat(aceptadas)| + 9] == " aceptada"
    ensures aceptadas == 0 ==> text[|ShowNat(pendientes)|..|ShowNat(pendientes)| + 10] == " pendiente"
  {
    if aceptadas > 0 then Counted(aceptadas, "aceptada", aceptadas > 1)
    else Counted(pendientes, "pendiente", pendientes != 1)
  }

  /** The secondary line of the priority card. */
  function PrioritySecondary(priorityCount: nat): (text: string)
    ensures priorityCount > 0 <==> text == "Postulaciones destacadas"
    ensures priorityCount == 0 <==> text == "Marca tus favoritas"
  {
    if priorityCount > 0 then "Postulaciones destacadas" else "Marca tus favoritas"
  }

  /** The total card: the list length, with the month-on-month badge. */
  function TotalCard(apps: seq<Application>, now: YearMonth): (card: StatCard)
    ensures card.title == "Total Postulaciones" && card.value == |apps|
    ensures card.change.Some? && card.secondaryText.None?
    ensures card.change.value.trend
         == MonthTrend(CountWhere(apps, DatedIn(now)), CountWhere(apps, DatedIn(PreviousMonth(now))))
  {
    var stats := GetStats(apps, now);
    StatCard("Total Postulaciones", stats.total, Some(TotalChange(stats.thisMonth, stats.lastMonth)), None)
  }

  function ResponsesCard(apps: seq<Application>, now: YearMonth): (card: StatCard)
    ensures card.title == "Respuestas Recibidas" && card.value == CountWhere(apps, Responded())
    ensures card.change.None? && card.secondaryText == Some(ResponsesSecondary(|apps|))
  {
    var stats := GetStats(apps, now);
    StatCard("Respuestas Recibidas", ResponsesReceived(apps, now, stats), None, Some(ResponsesSecondary(stats.total)))
  }

  function InterviewsCard(apps: seq<Application>, now: YearMonth): (card: StatCard)
    ensures card.title == "Entrevistas" && card.value == CountStatus(apps, EntrevistaProgramada)
    ensures card.change.None?
    ensures card.secondaryText == Some(InterviewsSecondary(CountStatus(apps, Aceptada), CountStatus(apps, Pendiente)))
  {
    var stats := GetStats(apps, now);
    StatCard("Entrevistas", stats.entrevistas, None, Some(InterviewsSecondary(stats.aceptadas, stats.pendientes)))
  }

  function PriorityCard(apps: seq<Application>): (card: StatCard)
    ensures card.title == "Prioritarias" && card.value == PriorityCount(apps)
    ensures card.change.None? && card.secondaryText == Some(PrioritySecondary(PriorityCount(apps)))
  {
    var priority := PriorityCount(apps);
    StatCard("Prioritarias", priority, None, Some(PrioritySecondary(priority)))
  }

  /** The responses card never shows more than the total card, nor the interviews card more than the responses card. */
  lemma ResponsesWithinTotal(apps: seq<Application>, now: YearMonth)
    ensures ResponsesCard(apps, now).value <= TotalCard(apps, now).value
    ensures InterviewsCard(apps, now).value <= ResponsesCard(apps, now).value
  {
    RespondedIsSumOfAnswered(apps);
  }
}
