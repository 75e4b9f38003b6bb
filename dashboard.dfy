/** The retention rules of the dashboard (components/Dashboard.tsx). Every rule is a
    pure function of the salon's clients and appointments and of a `Clock` that
    stands for `new Date()`. */
module Dashboard {
  import opened Types
  import opened Lists
  import opened Text

  // ---------------------------------------------------------------------------
  // Clock and day counts
  // ---------------------------------------------------------------------------

  /** Milliseconds per day, written as the source writes it. */
  const MsPerDay: nat := 1000 * 60 * 60 * 24

  /** What the rules read from the environment: the current instant in milliseconds,
      its local year and 0-based month (`getFullYear`, `getMonth`), and the instant
      of local midnight of a stored date (`new Date(date + "T00:00:00")`). */
  datatype Clock = Clock(nowMs: int, year: int, monthIndex: int, midnightMs: Date -> int)

  function Abs(x: int): nat {
    if x < 0 then -x else x
  }

  /** `Math.ceil(Math.abs(now - then) / MsPerDay)`: the distance in days, rounded up. */
  function DaysBetween(nowMs: int, thenMs: int): (d: nat)
    ensures Abs(nowMs - thenMs) <= d * MsPerDay
    ensures d > 0 ==> (d - 1) * MsPerDay < Abs(nowMs - thenMs)
  {
    (Abs(nowMs - thenMs) + MsPerDay - 1) / MsPerDay
  }

  /** Days since the client's last visit. */
  function DaysSince(c: Client, clock: Clock): nat {
    DaysBetween(clock.nowMs, clock.midnightMs(c.lastVisit))
  }

  // ---------------------------------------------------------------------------
  // calculateStats
  // ---------------------------------------------------------------------------

  datatype Stats = Stats(diffDays: nat, timeLabel: string)

  /** Calendar months between the enrolment date and now: (month + 12 year) of now
      minus the same of `memberSince` (whose `getMonth` is `month - 1`). */
  function MembershipMonths(clock: Clock, since: Date): int {
    (clock.monthIndex + 12 * clock.year) - ((since.month - 1) + 12 * since.year)
  }

  /** The plain difference of the calendar years. */
  function MembershipYears(clock: Clock, since: Date): int {
    clock.year - since.year
  }

  /** Days since the last visit and the membership label: "N meses" below twelve
      calendar months, otherwise "N ano(s)" with the calendar-year difference. */
  function CalculateStats(c: Client, clock: Clock): (s: Stats)
    ensures Abs(clock.nowMs - clock.midnightMs(c.lastVisit)) <= s.diffDays * MsPerDay
    ensures s.diffDays > 0 ==> (s.diffDays - 1) * MsPerDay < Abs(clock.nowMs - clock.midnightMs(c.lastVisit))
    ensures MembershipMonths(clock, c.memberSince) < 12 ==>
              s.timeLabel == IntToString(MembershipMonths(clock, c.memberSince)) + " meses"
    ensures MembershipMonths(clock, c.memberSince) >= 12 ==>
              s.timeLabel == IntToString(MembershipYears(clock, c.memberSince)) + " ano(s)"
  {
    var diffDays := DaysSince(c, clock);
    var diffMonths := MembershipMonths(clock, c.memberSince);
    var timeLabel :=
      if diffMonths >= 12 then IntToString(MembershipYears(clock, c.memberSince)) + " ano(s)"
      else IntToString(diffMonths) + " meses";
    Stats(diffDays, timeLabel)
  }

  /** With month indices in their ranges, the year count of an "ano(s)" label is the
      whole number of years of membership or one more: the label counts calendar
      years, so thirteen months across two year boundaries read "2 ano(s)". */
  lemma MembershipYearsNearMonths(clock: Clock, since: Date)
    requires 0 <= clock.monthIndex < 12 && 1 <= since.month <= 12
    ensures var months := MembershipMonths(clock, since);
            var years := MembershipYears(clock, since);
            months >= 12 ==> 1 <= years && months / 12 <= years <= months / 12 + 1
  {
  }

  /** A label counts years exactly when it ends with ")" (of "ano(s)"); a "meses"
      label ends with "s". */
  lemma {:induction false} TimeLabelUnit(c: Client, clock: Clock)
    ensures var shown := CalculateStats(c, clock).timeLabel;
            |shown| > 0 && (shown[|shown| - 1] == ')' <==> MembershipMonths(clock, c.memberSince) >= 12)
  {
    var shown := CalculateStats(c, clock).timeLabel;
    if MembershipMonths(clock, c.memberSince) >= 12 {
      var n := IntToString(MembershipYears(clock, c.memberSince));
      assert shown == n + " ano(s)";
      assert shown[|shown| - 1] == " ano(s)"[6];
    } else {
      var n := IntToString(MembershipMonths(clock, c.memberSince));
      assert shown == n + " meses";
      assert shown[|shown| - 1] == " meses"[5];
    }
  }

  // ---------------------------------------------------------------------------
  // automaticReminders
  // ---------------------------------------------------------------------------

  datatype Priority = Baixa | Media | Alta

  /** The reminder a day count earns; `None` is the source's `null` reminderType. */
  datatype Reminder = Reminder(reminderType: Option<string>, priority: Priority)

  /** The first-match reminder rules. Days 30, 45 and 60 are high priority with their
      own labels; any other multiple of 15 above 30 is the medium "Recorrência
      Inativa"; everything else has no reminder and keeps the initial "baixa". */
  function ClassifyReminder(diffDays: nat): (r: Reminder)
    ensures r.reminderType.Some? <==> diffDays >= 30 && diffDays % 15 == 0
    ensures r.priority == Alta <==> diffDays == 30 || diffDays == 45 || diffDays == 60
    ensures r.priority == Media <==> diffDays > 60 && diffDays % 15 == 0
    ensures r.priority == Baixa <==> r.reminderType.None?
    ensures diffDays == 30 ==> r.reminderType == Some("Meta 30 dias")
    ensures diffDays == 45 ==> r.reminderType == Some("Meta 45 dias")
    ensures diffDays == 60 ==> r.reminderType == Some("Crítico: 60 dias")
    ensures r.priority == Media ==> r.reminderType == Some("Recorrência Inativa")
  {
    if diffDays == 30 then Reminder(Some("Meta 30 dias"), Alta)
    else if diffDays == 45 then Reminder(Some("Meta 45 dias"), Alta)
    else if diffDays == 60 then Reminder(Some("Crítico: 60 dias"), Alta)
    else if diffDays > 30 && diffDays % 15 == 0 then Reminder(Some("Recorrência Inativa"), Media)
    else Reminder(None, Baixa)
  }

  /** A client annotated with its day count and (non-null) reminder. */
  datatype ReminderEntry = ReminderEntry(client: Client, diffDays: nat, reminderType: string, priority: Priority)

  function ClientsOf(es: seq<ReminderEntry>): (cs: seq<Client>)
    ensures |cs| == |es|
    ensures forall k | 0 <= k < |es| :: cs[k] == es[k].client
  {
    if es == [] then [] else [es[0].client] + ClientsOf(es[1..])
  }

  /** The test the reminder filter applies to a client. */
  function HasReminder(clock: Clock): Client -> bool {
    c => ClassifyReminder(DaysSince(c, clock)).reminderType.Some?
  }

  /** The `map` then `filter` steps: each client with its reminder, those without
      one dropped, in client order. */
  function Flagged(clients: seq<Client>, clock: Clock): (r: seq<ReminderEntry>)
    ensures ClientsOf(r) == Filter(clients, HasReminder(clock))
    ensures forall e | e in r ::
              && e.diffDays == DaysSince(e.client, clock)
              && ClassifyReminder(e.diffDays) == Reminder(Some(e.reminderType), e.priority)
  {
    if clients == [] then []
    else
      var c := clients[0];
      var d := DaysSince(c, clock);
      var rem := ClassifyReminder(d);
      var head := if rem.reminderType.Some? then [ReminderEntry(c, d, rem.reminderType.value, rem.priority)] else [];
      var rest := Flagged(clients[1..], clock);
      assert ClientsOf(head + rest) == ClientsOf(head) + ClientsOf(rest);
      head + rest
  }

  predicate SortedByDaysDesc(es: seq<ReminderEntry>) {
    forall i, j | 0 <= i < j < |es| :: es[i].diffDays >= es[j].diffDays
  }

  /** Inserts `e` in front of the first entry that is not more overdue than it. */
  function InsertByDays(e: ReminderEntry, sorted: seq<ReminderEntry>): (r: seq<ReminderEntry>)
    requires SortedByDaysDesc(sorted)
    ensures SortedByDaysDesc(r)
    ensures multiset(r) == multiset(sorted) + multiset{e}
    ensures forall x | x in r :: x == e || x in sorted
  {
    if sorted == [] || sorted[0].diffDays <= e.diffDays then [e] + sorted
    else
      var rest := InsertByDays(e, sorted[1..]);
      InsertBehindHead(e, sorted, rest);
      [sorted[0]] + rest
  }

  /** Putting back the head of a sorted list in front of `e` inserted into its tail
      keeps the list sorted, and the result holds the list and `e`. */
  lemma InsertBehindHead(e: ReminderEntry, sorted: seq<ReminderEntry>, rest: seq<ReminderEntry>)
    requires SortedByDaysDesc(sorted) && sorted != [] && sorted[0].diffDays > e.diffDays
    requires SortedByDaysDesc(rest)
    requires multiset(rest) == multiset(sorted[1..]) + multiset{e}
    requires forall x | x in rest :: x == e || x in sorted[1..]
    ensures SortedByDaysDesc([sorted[0]] + rest)
    ensures multiset([sorted[0]] + rest) == multiset(sorted) + multiset{e}
    ensures forall x | x in [sorted[0]] + rest :: x == e || x in sorted
  {
    var r := [sorted[0]] + rest;
    assert sorted == [sorted[0]] + sorted[1..];
    forall x | x in rest
      ensures x.diffDays <= sorted[0].diffDays
    {
      if x != e {
        var k :| 0 <= k < |sorted[1..]| && sorted[1..][k] == x;
        assert x == sorted[k + 1];
      }
    }
    forall i, j | 0 <= i < j < |r|
      ensures r[i].diffDays >= r[j].diffDays
    {
      assert r[j] == rest[j - 1] && rest[j - 1] in rest;
      if i > 0 {
        assert r[i] == rest[i - 1];
      }
    }
  }

  /** `sort((a, b) => b.diffDays - a.diffDays)`: most overdue first; the sort is
      stable, as JavaScript's is. */
  function SortByDaysDesc(es: seq<ReminderEntry>): (r: seq<ReminderEntry>)
    ensures SortedByDaysDesc(r)
    ensures multiset(r) == multiset(es)
  {
    if es == [] then []
    else
      assert es == [es[0]] + es[1..];
      InsertByDays(es[0], SortByDaysDesc(es[1..]))
  }

  /** The reminder list of the dashboard. */
  function AutomaticReminders(clients: seq<Client>, clock: Clock): (r: seq<ReminderEntry>)
    ensures SortedByDaysDesc(r)
    ensures multiset(r) == multiset(Flagged(clients, clock))
  {
    SortByDaysDesc(Flagged(clients, clock))
  }

  /** Entries with a given day count, in order. */
  function WithDays(es: seq<ReminderEntry>, d: nat): seq<ReminderEntry> {
    Filter(es, (e: ReminderEntry) => e.diffDays == d)
  }

  lemma {:induction false} InsertWithDays(e: ReminderEntry, sorted: seq<ReminderEntry>, d: nat)
    requires SortedByDaysDesc(sorted)
    ensures WithDays(InsertByDays(e, sorted), d) == (if e.diffDays == d then [e] else []) + WithDays(sorted, d)
  {
    if sorted == [] || sorted[0].diffDays <= e.diffDays {
      assert ([e] + sorted)[1..] == sorted;
    } else {
      var rest := InsertByDays(e, sorted[1..]);
      InsertWithDays(e, sorted[1..], d);
      assert ([sorted[0]] + rest)[1..] == rest;
    }
  }

  /** Sorting keeps clients with the same day count in their original order. */
  lemma {:induction false} SortStable(es: seq<ReminderEntry>, d: nat)
    ensures WithDays(SortByDaysDesc(es), d) == WithDays(es, d)
  {
    if es != [] {
      SortStable(es[1..], d);
      InsertWithDays(es[0], SortByDaysDesc(es[1..]), d);
    }
  }

  /** The reminder list: most overdue first, a permutation of the clients that have a
      reminder (kept in client order among equal day counts), each at 30 days or more
      and on a multiple of 15. */
  lemma AutomaticRemindersSpec(clients: seq<Client>, clock: Clock)
    ensures var r := AutomaticReminders(clients, clock);
            && SortedByDaysDesc(r)
            && multiset(r) == multiset(Flagged(clients, clock))
            && ClientsOf(Flagged(clients, clock)) == Filter(clients, HasReminder(clock))
            && (forall d: nat :: WithDays(r, d) == WithDays(Flagged(clients, clock), d))
            && (forall e | e in r :: e.diffDays >= 30 && e.diffDays % 15 == 0
                                      && e.diffDays == DaysSince(e.client, clock) && e.client in clients)
  {
    var f := Flagged(clients, clock);
    var r := AutomaticReminders(clients, clock);
    forall d: nat ensures WithDays(r, d) == WithDays(f, d) {
      SortStable(f, d);
    }
    forall e | e in r
      ensures e.diffDays >= 30 && e.diffDays % 15 == 0 && e.diffDays == DaysSince(e.client, clock) && e.client in clients
    {
      assert e in multiset(f);
      var k :| 0 <= k < |f| && f[k] == e;
      assert ClientsOf(f)[k] == e.client;
    }
  }

  // ---------------------------------------------------------------------------
  // categorizedClients
  // ---------------------------------------------------------------------------

  datatype Strategy = PosVenda | Ativas | Inativas | Prospeccao

  datatype Categorized = Categorized(cat: Strategy, msg: string)

  predicate IsProspect(c: Client) {
    c.servicesCount == 0 || c.totalSpent == 0.0
  }

  /** The fixed parts of the four message templates; the client's name (and, for
      prospects, the salon's name) goes between them. */
  const ProspectOpening := "Olá "
  const ProspectMiddle := ", tudo bem? Sou da "
  const ProspectClosing := ". Vimos que você ainda não conhece nossos serviços! Que tal um bônus de 10% na primeira visita?"
  const PosVendaOpening := "Oi "
  const PosVendaClosing := "! Faz alguns dias que você esteve aqui. Deu tudo certo com seu serviço? Sua opinião é muito importante!"
  const AtivasOpening := "Olá "
  const AtivasClosing := "! Notamos que está quase na hora da sua manutenção. Vamos garantir seu horário para esta semana?"
  const InativasOpening := "Oi "
  const InativasClosing := ", estamos com saudades! Notamos que faz mais de 30 dias que não nos visita. Temos uma condição especial para sua volta!"

  /** The first-match segmentation with its outreach message. A client without
      services or spend is a prospect however recent the visit; the others are
      split at 7 and 30 days. */
  function Categorize(c: Client, diffDays: nat, salonName: string): (r: Categorized)
    ensures r.cat == Prospeccao <==> IsProspect(c)
    ensures r.cat == PosVenda <==> !IsProspect(c) && diffDays <= 7
    ensures r.cat == Ativas <==> !IsProspect(c) && 7 < diffDays <= 30
    ensures r.cat == Inativas <==> !IsProspect(c) && diffDays > 30
  {
    if IsProspect(c) then
      Categorized(Prospeccao, ProspectOpening + c.name + ProspectMiddle + salonName + ProspectClosing)
    else if diffDays <= 7 then
      Categorized(PosVenda, PosVendaOpening + c.name + PosVendaClosing)
    else if diffDays <= 30 then
      Categorized(Ativas, AtivasOpening + c.name + AtivasClosing)
    else
      Categorized(Inativas, InativasOpening + c.name + InativasClosing)
  }

  /** Every outreach message names its client, and the prospect message also names
      the salon. */
  lemma {:induction false} MessageNamesClient(c: Client, diffDays: nat, salonName: string)
    ensures Contains(Categorize(c, diffDays, salonName).msg, c.name)
    ensures IsProspect(c) ==> Contains(Categorize(c, diffDays, salonName).msg, salonName)
  {
    if IsProspect(c) {
      var msg := Categorize(c, diffDays, salonName).msg;
      assert msg == ProspectOpening + c.name + (ProspectMiddle + salonName + ProspectClosing);
      ContainsInfix(ProspectOpening, c.name, ProspectMiddle + salonName + ProspectClosing);
      assert msg == (ProspectOpening + c.name + ProspectMiddle) + salonName + ProspectClosing;
      ContainsInfix(ProspectOpening + c.name + ProspectMiddle, salonName, ProspectClosing);
    } else if diffDays <= 7 {
      ContainsInfix(PosVendaOpening, c.name, PosVendaClosing);
    } else if diffDays <= 30 {
      ContainsInfix(AtivasOpening, c.name, AtivasClosing);
    } else {
      ContainsInfix(InativasOpening, c.name, InativasClosing);
    }
  }

  /** A client annotated with its day count, segment and message. */
  datatype StrategyEntry = StrategyEntry(client: Client, diffDays: nat, strategyMsg: string, cat: Strategy)

  function StrategyClients(es: seq<StrategyEntry>): (cs: seq<Client>)
    ensures |cs| == |es|
    ensures forall k | 0 <= k < |es| :: cs[k] == es[k].client
  {
    if es == [] then [] else [es[0].client] + StrategyClients(es[1..])
  }

  /** The segment a client falls in now. */
  function SegmentOf(c: Client, clock: Clock, salonName: string): Strategy {
    Categorize(c, DaysSince(c, clock), salonName).cat
  }

  function InSegment(clock: Clock, salonName: string, active: Strategy): Client -> bool {
    c => SegmentOf(c, clock, salonName) == active
  }

  /** The clients of the selected segment, in client order, each with its day count
      and its message. */
  function CategorizedClients(clients: seq<Client>, clock: Clock, salonName: string, active: Strategy)
    : (r: seq<StrategyEntry>)
    ensures StrategyClients(r) == Filter(clients, InSegment(clock, salonName, active))
    ensures forall e | e in r ::
              && e.cat == active
              && e.diffDays == DaysSince(e.client, clock)
              && Categorize(e.client, e.diffDays, salonName) == Categorized(e.cat, e.strategyMsg)
  {
    if clients == [] then []
    else
      var c := clients[0];
      var d := DaysSince(c, clock);
      var k := Categorize(c, d, salonName);
      var head := if k.cat == active then [StrategyEntry(c, d, k.msg, k.cat)] else [];
      var rest := CategorizedClients(clients[1..], clock, salonName, active);
      assert StrategyClients(head + rest) == StrategyClients(head) + StrategyClients(rest);
      head + rest
  }

  /** The four segment lists partition the clients: a client is listed under a
      segment exactly when that segment is its own. */
  lemma SegmentsPartition(clients: seq<Client>, clock: Clock, salonName: string, c: Client, s: Strategy)
    requires c in clients
    ensures c in StrategyClients(CategorizedClients(clients, clock, salonName, s)) <==> s == SegmentOf(c, clock, salonName)
  {
  }

  /** The scenario of a client last seen 60 days ago who has bought before: the
      critical reminder, and independently the win-back segment with a message
      that names the client. */
  lemma SixtyDaysScenario(c: Client, clock: Clock, salonName: string)
    requires DaysSince(c, clock) == 60
    requires c.servicesCount > 0 && c.totalSpent > 0.0
    ensures ClassifyReminder(DaysSince(c, clock)) == Reminder(Some("Crítico: 60 dias"), Alta)
    ensures SegmentOf(c, clock, salonName) == Inativas
    ensures Contains(Categorize(c, DaysSince(c, clock), salonName).msg, c.name)
  {
    MessageNamesClient(c, 60, salonName);
  }

  // ---------------------------------------------------------------------------
  // monthsData
  // ---------------------------------------------------------------------------

  const AllMonths: seq<string> :=
    ["Janeiro", "Fevereiro", "Março", "Abril", "Maio", "Junho",
     "Julho", "Agosto", "Setembro", "Outubro", "Novembro", "Dezembro"]

  lemma AllMonthsDistinct()
    ensures |AllMonths| == 12
    ensures forall i, j | 0 <= i < j < 12 :: AllMonths[i] != AllMonths[j]
  {
  }

  datatype MonthEntry = MonthEntry(name: string, total: nat, clients: seq<string>, birthdays: seq<Client>, isCurrentMonth: bool)

  function MonthIs(m: string): Appointment -> bool {
    (a: Appointment) => a.month == m
  }

  /** The appointments whose stored month name is exactly `m`. */
  function AppointmentsIn(appts: seq<Appointment>, m: string): seq<Appointment> {
    Filter(appts, MonthIs(m))
  }

  function NamesOf(appts: seq<Appointment>): (names: seq<string>)
    ensures |names| == |appts|
    ensures forall k | 0 <= k < |appts| :: names[k] == appts[k].clientName
  {
    if appts == [] then [] else [appts[0].clientName] + NamesOf(appts[1..])
  }

  predicate NoDuplicates(s: seq<string>) {
    forall i, j | 0 <= i < j < |s| :: s[i] != s[j]
  }

  /** `Array.from(new Set(s))`: each value once, at its first occurrence. */
  function Dedup(s: seq<string>): (r: seq<string>)
    ensures NoDuplicates(r)
    ensures forall x | x in r :: x in s
    ensures forall x | x in s :: x in r
    ensures |r| <= |s|
  {
    if s == [] then []
    else
      var init := s[..|s| - 1];
      assert s == init + [s[|s| - 1]];
      var r := Dedup(init);
      if s[|s| - 1] in r then r else r + [s[|s| - 1]]
  }

  /** The month number of a "YYYY-MM-DD" birthday: `parseInt(birthday.split('-')[1])`,
      `None` (NaN) when there is no second field or it has no digits. */
  function BirthMonth(birthday: string): (r: Option<int>)
    ensures r.Some? ==> '-' in birthday
  {
    var parts := Split(birthday, '-');
    if |parts| < 2 then None
    else
      assert '-' in birthday by {
        if '-' !in birthday {
          SplitNoSeparator(birthday, '-');
        }
      }
      ParseInt(parts[1])
  }

  /** A birthday written "YYYY-MM-DD" in digits has the month its middle field reads
      as, leading zero and all: "1985-01-12" is in month 1. */
  lemma BirthMonthOfDate(y: string, mm: string, dd: string)
    requires AllDigits(y) && AllDigits(mm) && AllDigits(dd) && mm != []
    ensures BirthMonth(y + "-" + mm + "-" + dd) == Some(DigitsValue(mm))
  {
    assert '-' !in y && '-' !in mm && '-' !in dd by {
      assert !IsDigit('-');
    }
    SplitDate(y, mm, dd);
    ParseIntOfDigits(mm, []);
    assert mm + [] == mm;
  }

  /** A date with no other dash splits into its three fields. */
  lemma SplitDate(y: string, mm: string, dd: string)
    requires '-' !in y && '-' !in mm && '-' !in dd
    ensures Split(y + "-" + mm + "-" + dd, '-') == [y, mm, dd]
  {
    var tail := mm + ['-'] + dd;
    assert y + "-" + mm + "-" + dd == y + ['-'] + tail;
    SplitAtFirst(y, '-', tail);
    SplitAtFirst(mm, '-', dd);
    SplitNoSeparator(dd, '-');
  }

  function BornIn(month: int): Client -> bool {
    (c: Client) => BirthMonth(c.birthday) == Some(month)
  }

  /** The full-year grid: for each of the twelve months, in order, the number of its
      appointments, their distinct client names, the clients born in it, and whether
      it is the current month. */
  function MonthsData(appts: seq<Appointment>, clients: seq<Client>, clock: Clock): (r: seq<MonthEntry>)
    ensures |r| == 12
    ensures forall i | 0 <= i < 12 ::
              && r[i].name == AllMonths[i]
              && r[i].total == |AppointmentsIn(appts, AllMonths[i])|
              && NoDuplicates(r[i].clients)
              && (forall n :: n in r[i].clients <==> n in NamesOf(AppointmentsIn(appts, AllMonths[i])))
              && r[i].birthdays == Filter(clients, BornIn(i + 1))
              && (r[i].isCurrentMonth <==> i == clock.monthIndex)
  {
    seq(12, i requires 0 <= i < 12 => MonthOf(appts, clients, clock, i))
  }

  /** One month of the grid. */
  function MonthOf(appts: seq<Appointment>, clients: seq<Client>, clock: Clock, i: nat): (e: MonthEntry)
    requires i < 12
    ensures e.name == AllMonths[i]
    ensures e.total == |AppointmentsIn(appts, AllMonths[i])|
    ensures NoDuplicates(e.clients)
    ensures forall n :: n in e.clients <==> n in NamesOf(AppointmentsIn(appts, AllMonths[i]))
    ensures e.birthdays == Filter(clients, BornIn(i + 1))
    ensures e.isCurrentMonth <==> i == clock.monthIndex
  {
    var inMonth := AppointmentsIn(appts, AllMonths[i]);
    MonthEntry(AllMonths[i], |inMonth|, Dedup(NamesOf(inMonth)), Filter(clients, BornIn(i + 1)), clock.monthIndex == i)
  }

  /** A client whose birthday month reads as 1 to 12 is listed in that month and in
      no other. */
  lemma BirthdayInOneMonth(appts: seq<Appointment>, clients: seq<Client>, clock: Clock, c: Client, i: nat)
    requires c in clients && i < 12
    requires BirthMonth(c.birthday).Some? && 1 <= BirthMonth(c.birthday).value <= 12
    ensures c in MonthsData(appts, clients, clock)[i].birthdays <==> BirthMonth(c.birthday) == Some(i + 1)
  {
  }

  function InMonths(names: seq<string>): Appointment -> bool {
    (a: Appointment) => a.month in names
  }

  /** The sum of the grid's totals. */
  function TotalOf(months: seq<MonthEntry>): nat {
    if months == [] then 0 else TotalOf(months[..|months| - 1]) + months[|months| - 1].total
  }

  /** The month names are twelve distinct strings. */
  lemma MonthNotBefore(k: nat)
    requires k < 12
    ensures AllMonths[k] !in AllMonths[..k]
  {
    AllMonthsDistinct();
  }

  lemma {:induction false} TotalOfPrefix(months: seq<MonthEntry>, appts: seq<Appointment>, k: nat)
    requires |months| == 12 && k <= 12
    requires forall i | 0 <= i < 12 :: months[i].total == |Filter(appts, MonthIs(AllMonths[i]))|
    ensures TotalOf(months[..k]) == |Filter(appts, InMonths(AllMonths[..k]))|
  {
    if k == 0 {
      FilterNone(appts, InMonths(AllMonths[..0]));
    } else {
      TotalOfPrefix(months, appts, k - 1);
      PrefixSnoc(months, k);
      var before := AllMonths[..k - 1];
      var m := AllMonths[k - 1];
      MonthNotBefore(k - 1);
      PrefixSnoc(AllMonths, k);
      FilterDisjointCount(appts, InMonths(before), MonthIs(m), InMonths(AllMonths[..k]));
    }
  }

  /** The totals add up to the number of appointments whose month string is one of
      the twelve names; other month strings (such as the lower-case names the chat
      stores) are counted nowhere. */
  lemma MonthTotalsSum(appts: seq<Appointment>, clients: seq<Client>, clock: Clock)
    ensures TotalOf(MonthsData(appts, clients, clock)) == |Filter(appts, InMonths(AllMonths))|
    ensures (forall a | a in appts :: a.month in AllMonths) ==>
              TotalOf(MonthsData(appts, clients, clock)) == |appts|
  {
    var r := MonthsData(appts, clients, clock);
    TotalOfPrefix(r, appts, 12);
    assert r[..12] == r;
    assert AllMonths[..12] == AllMonths;
    if forall a | a in appts :: a.month in AllMonths {
      FilterAll(appts, InMonths(AllMonths));
    }
  }

  // ---------------------------------------------------------------------------
  // filteredClients and clientAppointments
  // ---------------------------------------------------------------------------

  datatype ClientStatus = Todos | Ativos | Inativos

  /** The status test: "inativos" keeps more than 30 days, "ativos" 30 or fewer. */
  function StatusTest(clock: Clock, status: ClientStatus): Client -> bool {
    c => if status == Inativos then DaysSince(c, clock) > 30 else DaysSince(c, clock) <= 30
  }

  function NamedIn(names: seq<string>): Client -> bool {
    (c: Client) => c.name in names
  }

  /** The report list: the clients, narrowed by status unless it is "todos", then by
      month unless it is "todos" to those named in that month's appointments. */
  function FilteredClients(clients: seq<Client>, appts: seq<Appointment>, clock: Clock,
                           filterMonth: string, filterStatus: ClientStatus): (r: seq<Client>)
    ensures |r| <= |clients|
    ensures forall c | c in r :: c in clients
    ensures filterStatus == Todos && filterMonth == "todos" ==> r == clients
  {
    var list := if filterStatus != Todos then Filter(clients, StatusTest(clock, filterStatus)) else clients;
    if filterMonth != "todos" then Filter(list, NamedIn(NamesOf(AppointmentsIn(appts, filterMonth)))) else list
  }

  /** Whether a client passes both report filters. */
  predicate KeepsInReport(c: Client, appts: seq<Appointment>, clock: Clock, filterMonth: string, filterStatus: ClientStatus) {
    && (filterStatus == Todos || StatusTest(clock, filterStatus)(c))
    && (filterMonth == "todos" || c.name in NamesOf(AppointmentsIn(appts, filterMonth)))
  }

  function ReportTest(appts: seq<Appointment>, clock: Clock, filterMonth: string, filterStatus: ClientStatus): Client -> bool {
    c => KeepsInReport(c, appts, clock, filterMonth, filterStatus)
  }

  /** The report is the order-preserving sublist of the clients that pass both
      filters. */
  lemma FilteredClientsSublist(clients: seq<Client>, appts: seq<Appointment>, clock: Clock,
                               filterMonth: string, filterStatus: ClientStatus)
    ensures FilteredClients(clients, appts, clock, filterMonth, filterStatus)
            == Filter(clients, ReportTest(appts, clock, filterMonth, filterStatus))
  {
    var keep := ReportTest(appts, clock, filterMonth, filterStatus);
    var status := StatusTest(clock, filterStatus);
    var named := NamedIn(NamesOf(AppointmentsIn(appts, filterMonth)));
    if filterStatus == Todos && filterMonth == "todos" {
      FilterAll(clients, keep);
    } else if filterStatus == Todos {
      FilterCongruent(clients, named, keep);
    } else if filterMonth == "todos" {
      FilterCongruent(clients, status, keep);
    } else {
      FilterFilter(clients, status, named, keep);
    }
  }

  /** The status filter alone: "todos" keeps every client, "inativos" those more than
      30 days away, "ativos" the others; the two split the clients between them. */
  lemma StatusFilters(clients: seq<Client>, appts: seq<Appointment>, clock: Clock, c: Client)
    requires c in clients
    ensures FilteredClients(clients, appts, clock, "todos", Todos) == clients
    ensures c in FilteredClients(clients, appts, clock, "todos", Inativos) <==> DaysSince(c, clock) > 30
    ensures c in FilteredClients(clients, appts, clock, "todos", Ativos) <==> DaysSince(c, clock) <= 30
  {
  }

  function BelongsTo(selected: Client): Appointment -> bool {
    (a: Appointment) => a.clientId == selected.id || a.clientName == selected.name
  }

  /** The history of the selected client: appointments with its id or its name; none
      when no client is selected. */
  function ClientAppointments(selected: Option<Client>, appts: seq<Appointment>): (r: seq<Appointment>)
    ensures selected.None? ==> r == []
    ensures selected.Some? ==>
              forall a :: a in r <==> a in appts && (a.clientId == selected.value.id || a.clientName == selected.value.name)
  {
    if selected.None? then [] else Filter(appts, BelongsTo(selected.value))
  }

  // ---------------------------------------------------------------------------
  // addLog
  // ---------------------------------------------------------------------------

  /** `[...prev.slice(-3), "[time] msg"]`: the connection log keeps at most four
      lines, the newest last after the three before it. */
  function AddLog(logs: seq<string>, msg: string, time: string): (r: seq<string>)
    ensures 1 <= |r| <= 4
    ensures r[|r| - 1] == "[" + time + "] " + msg
    ensures |r| - 1 == if |logs| < 3 then |logs| else 3
    ensures forall k | 0 <= k < |r| - 1 :: r[k] == logs[|logs| - (|r| - 1) + k]
  {
    LastN(logs, 3) + ["[" + time + "] " + msg]
  }
}
