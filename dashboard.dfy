/**
 * The pipeline board (components/Dashboard.tsx): three status columns, the
 * leads of each column, the header figures and the warning icon on a card.
 */
module Dashboard {
  import opened Types
  import opened Leads

  datatype Column = Column(id: LeadStatus, title: string)

  /** The columns of the board, left to right. */
  const Columns: seq<Column> := [
    Column(New, "Nieuwe Leads"),
    Column(Contacted, "Gemaild"),
    Column(Won, "Deal / Contract")
  ]

  /** The board has one column per status, in the order of the pipeline. */
  lemma ColumnsCoverStatuses()
    ensures |Columns| == 3
    ensures Columns[0].id == New && Columns[1].id == Contacted && Columns[2].id == Won
    ensures forall s: LeadStatus :: Columns[ColumnIndex(s)].id == s
  {
  }

  function ColumnIndex(s: LeadStatus): (i: int)
    ensures 0 <= i < |Columns| && Columns[i].id == s
  {
    match s
    case New => 0
    case Contacted => 1
    case Won => 2
  }

  /** `getLeadsByStatus`: the cards of a column. */
  function ColumnLeads(leads: seq<Lead>, col: Column): seq<Lead> {
    ByStatus(leads, col.id)
  }

  /**
   * Every lead of the store is shown in exactly one column: the one of its
   * status.
   */
  lemma {:induction false} EachLeadInOneColumn(leads: seq<Lead>, l: Lead, i: int)
    requires l in leads && 0 <= i < |Columns|
    ensures l in ColumnLeads(leads, Columns[i]) <==> i == ColumnIndex(l.status)
  {
    var i' := ColumnIndex(l.status);
    assert Columns[i'].id == l.status;
    assert i != i' ==> Columns[i].id != Columns[i'].id;
  }

  /** The column sizes add up to the number of leads. */
  lemma ColumnsPartitionLeads(leads: seq<Lead>)
    ensures |ColumnLeads(leads, Columns[0])| + |ColumnLeads(leads, Columns[1])| +
      |ColumnLeads(leads, Columns[2])| == |leads|
  {
    StatusPartition(leads);
  }

  /** The header figures. */
  datatype Stats = Stats(total: int, converted: int, rate: int)

  /**
   * `Math.round(won / total * 100)` in exact arithmetic: 100·won/total
   * rounded to the nearest integer, halves up, which is
   * ⌊(200·won + total) / (2·total)⌋; with no leads the rate is 0.
   */
  function Rate(won: nat, total: nat): int {
    if total > 0 then (200 * won + total) / (2 * total) else 0
  }

  function StatsOf(leads: seq<Lead>): Stats {
    var converted := |ByStatus(leads, Won)|;
    Stats(|leads|, converted, Rate(converted, |leads|))
  }

  /** The rate is the percentage rounded to the nearest integer, halves up. */
  lemma RateRounds(won: nat, total: nat)
    requires total > 0
    ensures 2 * total * Rate(won, total) <= 200 * won + total < 2 * total * (Rate(won, total) + 1)
  {
    var d := 2 * total;
    var n := 200 * won + total;
    var q := n / d;
    assert n == d * q + n % d;
    assert 0 <= n % d < d;
  }

  /** The rate lies between 0 and 100, reaching the ends exactly on the rounding thresholds. */
  lemma RateBounds(won: nat, total: nat)
    requires won <= total
    ensures 0 <= Rate(won, total) <= 100
    ensures total > 0 ==> (Rate(won, total) == 100 <==> 200 * won >= 199 * total)
    ensures total > 0 ==> (Rate(won, total) == 0 <==> 200 * won < total)
  {
    if total > 0 {
      RateRounds(won, total);
      var r := Rate(won, total);
      var t := total;
      var n := 200 * won + total;
      MulLessCancel(2 * t, r, 101);
      MulLessCancel(2 * t, -1, r);
      if 200 * won >= 199 * t {
        DivUnique(n, 2 * t, 100);
      }
      if 200 * won < t {
        DivUnique(n, 2 * t, 0);
      }
    }
  }

  lemma MulLessCancel(a: int, b: int, c: int)
    requires a > 0
    ensures a * b < a * c ==> b < c
  {
  }

  /** The quotient is the `k` whose multiples of `d` enclose `n`. */
  lemma DivUnique(n: int, d: int, k: int)
    requires d > 0 && d * k <= n < d * (k + 1)
    ensures n / d == k
  {
    var q := n / d;
    assert n == d * q + n % d;
    MulLessCancel(d, k, q + 1);
    MulLessCancel(d, q, k + 1);
  }

  /**
   * The header figures: all leads, the `WON` ones, and a rate of 100 when
   * every lead is won and of 0 when none is (or there are none).
   */
  lemma StatsFacts(leads: seq<Lead>)
    ensures StatsOf(leads).total == |leads|
    ensures 0 <= StatsOf(leads).converted <= StatsOf(leads).total
    ensures 0 <= StatsOf(leads).rate <= 100
    ensures (forall i :: 0 <= i < |leads| ==> leads[i].status == Won) ==> StatsOf(leads).converted == |leads|
    ensures leads != [] && (forall i :: 0 <= i < |leads| ==> leads[i].status == Won) ==> StatsOf(leads).rate == 100
    ensures (forall i :: 0 <= i < |leads| ==> leads[i].status != Won) ==> StatsOf(leads).rate == 0
  {
    var w := |ByStatus(leads, Won)|;
    RateBounds(w, |leads|);
    if forall i :: 0 <= i < |leads| ==> leads[i].status == Won {
      ByStatusAll(leads, Won);
    }
    if forall i :: 0 <= i < |leads| ==> leads[i].status != Won {
      NoneWon(leads);
    }
  }

  lemma {:induction false} NoneWon(leads: seq<Lead>)
    requires forall i :: 0 <= i < |leads| ==> leads[i].status != Won
    ensures ByStatus(leads, Won) == []
    decreases |leads|
  {
    if leads != [] {
      NoneWon(leads[1..]);
    }
  }

  /**
   * The warning icon on a card in column `col`: the lead's problem is not
   * "other" and the column is not the `WON` column.
   */
  predicate ShowWarning(col: Column, l: Lead) {
    l.problemType != Other && col.id != Won
  }

  /**
   * On the board a card warns exactly when its lead has a named problem and
   * is not won; in particular no card in the `WON` column warns.
   */
  lemma WarningOnBoard(leads: seq<Lead>, col: Column, l: Lead)
    requires l in ColumnLeads(leads, col)
    ensures ShowWarning(col, l) <==> l.problemType != Other && l.status != Won
    ensures col.id == Won ==> !ShowWarning(col, l)
  {
  }
}
