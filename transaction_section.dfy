/**
 * TransactionSection and TransactionGrouper: transactions grouped into one
 * section per calendar day, days newest first and each day's transactions
 * newest first. The calendar's `startOfDay` is a parameter.
 */
module TransactionSections {
  import opened Sequences
  import opened CoreData

  datatype TransactionSection = TransactionSection(date: int, transactions: seq<Transaction>)
  {
    /** `totalAmount` */
    function TotalAmount(): real {
      Sum(transactions)
    }
  }

  /** `reduce(0) { $0 + $1.amount }`: the amounts added from the first to the last. */
  function Sum(ts: seq<Transaction>): real {
    if ts == [] then 0.0 else Sum(ts[..|ts| - 1]) + ts[|ts| - 1].amount
  }

  /** The total of two lists one after the other is the sum of their totals. */
  lemma {:induction false} SumAppend(a: seq<Transaction>, b: seq<Transaction>)
    ensures Sum(a + b) == Sum(a) + Sum(b)
    decreases |b|
  {
    if b == [] {
      assert a + b == a;
    } else {
      assert (a + b)[..|a + b| - 1] == a + b[..|b| - 1];
      SumAppend(a, b[..|b| - 1]);
    }
  }

  /** The latest day on which some transaction of ts falls. */
  function LatestDay(ts: seq<Transaction>, startOfDay: int -> int): (day: int)
    requires ts != []
    ensures exists t :: t in ts && startOfDay(t.date) == day
    ensures forall t :: t in ts ==> startOfDay(t.date) <= day
  {
    if |ts| == 1 then startOfDay(ts[0].date)
    else
      var rest := LatestDay(ts[1..], startOfDay);
      assert forall t :: t in ts ==> t == ts[0] || t in ts[1..];
      if startOfDay(ts[0].date) >= rest then startOfDay(ts[0].date) else rest
  }

  /** The transactions of ts on `day`, and the others. */
  function SplitDay(ts: seq<Transaction>, startOfDay: int -> int, day: int): (r: (seq<Transaction>, seq<Transaction>))
    ensures forall t :: t in r.0 <==> t in ts && startOfDay(t.date) == day
    ensures forall t :: t in r.1 <==> t in ts && startOfDay(t.date) != day
    ensures multiset(r.0) + multiset(r.1) == multiset(ts)
  {
    if ts == [] then ([], [])
    else
      var rest := SplitDay(ts[1..], startOfDay, day);
      assert ts == [ts[0]] + ts[1..];
      if startOfDay(ts[0].date) == day then ([ts[0]] + rest.0, rest.1) else (rest.0, [ts[0]] + rest.1)
  }

  /** All transactions of the sections, section by section. */
  function Flatten(sections: seq<TransactionSection>): seq<Transaction> {
    if sections == [] then [] else sections[0].transactions + Flatten(sections[1..])
  }

  /** Every section is non-empty and newest first. */
  ghost predicate WellFormed(r: seq<TransactionSection>) {
    forall i :: 0 <= i < |r| ==> r[i].transactions != [] && SortedDesc(r[i].transactions, TransactionDate)
  }

  /** Every transaction of a section comes from ts and falls on the section's day. */
  ghost predicate OnTheirDays(r: seq<TransactionSection>, ts: seq<Transaction>, startOfDay: int -> int) {
    forall i, t :: 0 <= i < |r| && t in r[i].transactions ==> t in ts && startOfDay(t.date) == r[i].date
  }

  /** The sections' days strictly decrease: newest day first, no day twice. */
  ghost predicate DaysDescending(r: seq<TransactionSection>) {
    forall i, j :: 0 <= i < j < |r| ==> r[i].date > r[j].date
  }

  /** The shape `groupTransactions` promises of its sections for the input ts. */
  ghost predicate GroupsOf(r: seq<TransactionSection>, ts: seq<Transaction>, startOfDay: int -> int) {
    && multiset(Flatten(r)) == multiset(ts)
    && (r == [] <==> ts == [])
    && WellFormed(r)
    && OnTheirDays(r, ts, startOfDay)
    && DaysDescending(r)
  }

  /** Every section of `rest` is for a day before `day` when all its transactions are. */
  lemma SectionsBefore(day: int, rest: seq<TransactionSection>, others: seq<Transaction>, startOfDay: int -> int)
    requires forall t :: t in others ==> startOfDay(t.date) < day
    requires WellFormed(rest) && OnTheirDays(rest, others, startOfDay)
    ensures forall i :: 0 <= i < |rest| ==> rest[i].date < day
  {
    forall i | 0 <= i < |rest| ensures rest[i].date < day {
      var t := rest[i].transactions[0];
      assert t in rest[i].transactions;
      assert t in others && startOfDay(t.date) == rest[i].date;
    }
  }

  /** Flattening a section in front of others puts its transactions first. */
  lemma FlattenCons(section: TransactionSection, rest: seq<TransactionSection>)
    ensures Flatten([section] + rest) == section.transactions + Flatten(rest)
  {
    assert ([section] + rest)[1..] == rest;
  }

  /** A section in front keeps every section non-empty and sorted. */
  lemma ConsWellFormed(section: TransactionSection, rest: seq<TransactionSection>)
    requires section.transactions != [] && SortedDesc(section.transactions, TransactionDate)
    requires WellFormed(rest)
    ensures WellFormed([section] + rest)
  {
    var r := [section] + rest;
    assert forall i :: 0 < i < |r| ==> r[i] == rest[i - 1];
  }

  /** A section of transactions of ts in front of sections of others, all from ts, keeps every member on its day. */
  lemma ConsOnTheirDays(ts: seq<Transaction>, startOfDay: int -> int, section: TransactionSection, others: seq<Transaction>, rest: seq<TransactionSection>)
    requires forall t :: t in section.transactions ==> t in ts && startOfDay(t.date) == section.date
    requires forall t :: t in others ==> t in ts
    requires OnTheirDays(rest, others, startOfDay)
    ensures OnTheirDays([section] + rest, ts, startOfDay)
  {
    var r := [section] + rest;
    forall i, t | 0 <= i < |r| && t in r[i].transactions ensures t in ts && startOfDay(t.date) == r[i].date {
      if i > 0 {
        assert r[i] == rest[i - 1];
      }
    }
  }

  /** A section for a later day than all of rest's keeps the days descending. */
  lemma ConsDescending(section: TransactionSection, rest: seq<TransactionSection>)
    requires DaysDescending(rest)
    requires forall i :: 0 <= i < |rest| ==> rest[i].date < section.date
    ensures DaysDescending([section] + rest)
  {
    var r := [section] + rest;
    forall i, j | 0 <= i < j < |r| ensures r[i].date > r[j].date {
      if i > 0 {
        assert r[i] == rest[i - 1] && r[j] == rest[j - 1];
      }
    }
  }

  /** The section of `day`, sorted, holds exactly the transactions of that day. */
  lemma DaySection(ts: seq<Transaction>, startOfDay: int -> int, day: int, sameDay: seq<Transaction>) returns (section: TransactionSection)
    requires sameDay != []
    requires forall t :: t in sameDay ==> t in ts && startOfDay(t.date) == day
    ensures section == TransactionSection(day, SortDesc(sameDay, TransactionDate))
    ensures multiset(section.transactions) == multiset(sameDay)
    ensures section.transactions != [] && SortedDesc(section.transactions, TransactionDate)
    ensures forall t :: t in section.transactions ==> t in ts && startOfDay(t.date) == section.date
  {
    section := TransactionSection(day, SortDesc(sameDay, TransactionDate));
    forall t | t in section.transactions ensures t in ts && startOfDay(t.date) == day {
      assert t in multiset(section.transactions);
    }
    assert |section.transactions| == |sameDay|;
  }

  /** The section's transactions and the other sections' together are the input. */
  lemma ConsMultiset(section: TransactionSection, rest: seq<TransactionSection>, sameDay: seq<Transaction>, others: seq<Transaction>, ts: seq<Transaction>)
    requires multiset(section.transactions) == multiset(sameDay)
    requires multiset(Flatten(rest)) == multiset(others)
    requires multiset(sameDay) + multiset(others) == multiset(ts)
    ensures multiset(Flatten([section] + rest)) == multiset(ts)
  {
    FlattenCons(section, rest);
  }

  /**
   * The latest day's section followed by the sections of the other days
   * groups the whole input.
   */
  lemma ConsSection(ts: seq<Transaction>, startOfDay: int -> int, day: int, sameDay: seq<Transaction>, others: seq<Transaction>, rest: seq<TransactionSection>)
    requires sameDay != []
    requires forall t :: t in sameDay ==> t in ts && startOfDay(t.date) == day
    requires forall t :: t in others ==> t in ts && startOfDay(t.date) < day
    requires multiset(sameDay) + multiset(others) == multiset(ts)
    requires GroupsOf(rest, others, startOfDay)
    ensures GroupsOf([TransactionSection(day, SortDesc(sameDay, TransactionDate))] + rest, ts, startOfDay)
  {
    var section := DaySection(ts, startOfDay, day, sameDay);
    ConsMultiset(section, rest, sameDay, others, ts);
    SectionsBefore(day, rest, others, startOfDay);
    ConsWellFormed(section, rest);
    ConsOnTheirDays(ts, startOfDay, section, others, rest);
    ConsDescending(section, rest);
    assert sameDay[0] in ts;
  }

  lemma DayNotEmpty(ts: seq<Transaction>, startOfDay: int -> int, day: int, sameDay: seq<Transaction>, others: seq<Transaction>)
    requires exists t :: t in ts && startOfDay(t.date) == day
    requires forall t :: t in sameDay <==> t in ts && startOfDay(t.date) == day
    requires multiset(sameDay) + multiset(others) == multiset(ts)
    ensures sameDay != [] && |others| < |ts|
  {
    var first :| first in ts && startOfDay(first.date) == day;
    assert first in sameDay;
    assert |multiset(sameDay)| + |multiset(others)| == |multiset(ts)|;
  }

  /**
   * `groupTransactions`: the latest day's transactions form the first
   * section, and the other days are grouped the same way after it.
   */
  function GroupTransactions(ts: seq<Transaction>, startOfDay: int -> int): (r: seq<TransactionSection>)
    ensures GroupsOf(r, ts, startOfDay)
    decreases |ts|
  {
    if ts == [] then []
    else
      var day := LatestDay(ts, startOfDay);
      var split := SplitDay(ts, startOfDay, day);
      DayNotEmpty(ts, startOfDay, day, split.0, split.1);
      var rest := GroupTransactions(split.1, startOfDay);
      assert GroupsOf(rest, split.1, startOfDay);
      assert forall t :: t in split.1 ==> t in ts && startOfDay(t.date) < day;
      ConsSection(ts, startOfDay, day, split.0, split.1, rest);
      [TransactionSection(day, SortDesc(split.0, TransactionDate))] + rest
  }
}
