/** The chat controller of the salon assistant (App.tsx): the state the screen keeps,
    the handling of a typed message and the import of a client list. */
module App {
  import opened Types
  import opened Lists
  import opened Text
  import opened Dashboard
  import opened Gemini
  import Seed

  datatype Tab = ChatTab | DashboardTab

  /** What the remote assistant call gives back: its reply text, or a thrown error. */
  datatype Reply = Answered(text: string) | Failed

  /** One history entry passed to the assistant. */
  datatype Turn = Turn(role: Role, content: string)

  /** What one event reads from its surroundings: `Date.now()`, `toISOString()`,
      `toLocaleDateString('pt-BR')`, the month name `Intl.DateTimeFormat('pt-BR',
      { month: 'long' })` gives, and the date part of `toISOString()`. */
  datatype Env = Env(nowMs: nat, isoNow: string, today: string, monthName: string, isoDay: Date)

  // ---------------------------------------------------------------------------
  // Messages
  // ---------------------------------------------------------------------------

  const GreetingText :=
    "Olá! Sou a Clara. 👋 Vi que você ainda não "
    + "conectou seu WhatsApp. Para eu poder enviar "
    + "mensagens automáticas de retorno para suas "
    + "clientes, preciso que você conecte seu aparelho.\n\nQuer "
    + "que eu te ensine como fazer?"
  const HowToReply :=
    "É bem simples! Siga estes passos:\n\n1️⃣ "
    + "No menu à esquerda, clique em **\"Painel "
    + "& Conexão\"**.\n2️⃣ Clique no botão verde "
    + "**\"GERAR NOVA CONEXÃO\"**.\n3️⃣ No seu "
    + "celular, abra o WhatsApp > Configurações "
    + "> Aparelhos Conectados.\n4️⃣ Toque em \"Conectar "
    + "um Aparelho\" e aponte a câmera para o código "
    + "que aparecerá aqui na tela.\n\nEstou te "
    + "esperando na aba de conexão!"
  const ConnectReply :=
    "Certo! Te trouxe para a aba de conexão. "
    + "Clique no botão abaixo para gerar o QR Code."
  const RegisteredReply :=
    "✅ Atendimento registrado! Agora, se você "
    + "conectar o WhatsApp, eu poderei avisar a "
    + "cliente automaticamente no dia da manutenção. "
    + "Vamos conectar?"
  const NotConnectedReply :=
    "Eu adoraria! Mas ainda não estamos conectados. "
    + "Clique em **\"Painel & Conexão\"** para "
    + "gerar seu código de acesso."
  const SentReply := "Com prazer! Enviando mensagem agora... ✅ Prontinho!"
  const ErrorReply := "Ops, tive um erro. Pode repetir?"
  const FileNoticePrefix := "📎 Arquivo: "
  const SummaryTail :=
    " clientes! Vamos conectar seu WhatsApp para "
    + "que eu possa dar as boas-vindas a eles?"

  /** `Date.now()` as a string: the suffix of every id an event creates. */
  function Stamp(env: Env): string {
    NatToString(env.nowMs)
  }

  function UserMessage(content: string, env: Env): Message {
    Message(Stamp(env), User, content, env.nowMs)
  }

  function AssistantMessage(content: string, env: Env): Message {
    Message("resp_" + Stamp(env), Assistant, content, env.nowMs)
  }

  function ErrorMessage(env: Env): Message {
    Message("err_" + Stamp(env), Assistant, ErrorReply, env.nowMs)
  }

  /** The role and content of each message, in order. */
  function Turns(ms: seq<Message>): (ts: seq<Turn>)
    ensures |ts| == |ms|
    ensures forall k | 0 <= k < |ms| :: ts[k] == Turn(ms[k].role, ms[k].content)
  {
    seq(|ms|, k requires 0 <= k < |ms| => Turn(ms[k].role, ms[k].content))
  }

  /** The context sent with a question: the last six messages of the list. */
  function History(ms: seq<Message>): seq<Turn> {
    Turns(LastN(ms, 6))
  }

  /** The history holds the role and content of the last six messages, in order, or
      of all of them when there are fewer. */
  lemma HistoryIsLastSix(ms: seq<Message>)
    ensures |History(ms)| == if |ms| < 6 then |ms| else 6
    ensures forall k | 0 <= k < |History(ms)| ::
              History(ms)[k] == Turn(ms[|ms| - |History(ms)| + k].role, ms[|ms| - |History(ms)| + k].content)
  {
    TurnsOfSuffix(ms, LastN(ms, 6));
  }

  lemma TurnsOfSuffix(ms: seq<Message>, last: seq<Message>)
    requires |last| <= |ms|
    requires forall k | 0 <= k < |last| :: last[k] == ms[|ms| - |last| + k]
    ensures forall k | 0 <= k < |last| ::
              Turns(last)[k] == Turn(ms[|ms| - |last| + k].role, ms[|ms| - |last| + k].content)
  {
  }

  // ---------------------------------------------------------------------------
  // Routing a typed message
  // ---------------------------------------------------------------------------

  /** A question about how to connect. */
  predicate AsksHowTo(lower: string) {
    Contains(lower, "como") && (Contains(lower, "conectar") || Contains(lower, "fazer") || Contains(lower, "sei"))
  }

  /** A request to open the connection screen. */
  predicate AsksToConnect(lower: string) {
    Contains(lower, "conectar") || Contains(lower, "qr code") || Contains(lower, "vincular")
  }

  /** An affirmative answer to a pending appointment. */
  predicate IsAffirmative(lower: string) {
    Contains(lower, "sim") || Contains(lower, "confirmo") || Contains(lower, "pode") || Contains(lower, "ok")
  }

  /** A request that the assistant send a WhatsApp message itself. */
  predicate AsksToSend(lower: string) {
    Contains(lower, "você envia") || Contains(lower, "pode enviar") || Contains(lower, "envia você")
  }

  /** The branch of the message handler that answers a message. */
  datatype Route = HowTo | OpenConnection | ConfirmPending | SendRequest | AskAssistant

  /** The handler's tests in their order: the first that holds decides. */
  function RouteOf(lower: string, hasPending: bool): (r: Route)
    ensures r == HowTo <==> AsksHowTo(lower)
    ensures r == OpenConnection <==> !AsksHowTo(lower) && AsksToConnect(lower)
    ensures r == ConfirmPending <==> !AsksHowTo(lower) && !AsksToConnect(lower) && hasPending && IsAffirmative(lower)
    ensures r == SendRequest <==>
              !AsksHowTo(lower) && !AsksToConnect(lower) && !(hasPending && IsAffirmative(lower)) && AsksToSend(lower)
  {
    if AsksHowTo(lower) then HowTo
    else if AsksToConnect(lower) then OpenConnection
    else if hasPending && IsAffirmative(lower) then ConfirmPending
    else if AsksToSend(lower) then SendRequest
    else AskAssistant
  }

  /** The message that answers a routed message; `answer` is read only when the
      message goes to the assistant. */
  function ReplyFor(route: Route, connected: bool, answer: Reply, env: Env): (m: Message)
    ensures m.role == Assistant && m.timestamp == env.nowMs
    ensures m.content == ErrorReply <==> (route == AskAssistant && (answer.Failed? || answer.text == ErrorReply))
    ensures route == AskAssistant && answer.Answered? ==> m == AssistantMessage(answer.text, env)
    ensures m.id == (if route == AskAssistant && answer.Failed? then "err_" else "resp_") + Stamp(env)
  {
    match route
    case HowTo => AssistantMessage(HowToReply, env)
    case OpenConnection => AssistantMessage(ConnectReply, env)
    case ConfirmPending => AssistantMessage(RegisteredReply, env)
    case SendRequest => AssistantMessage(if connected then SentReply else NotConnectedReply, env)
    case AskAssistant =>
      match answer
      case Answered(t) => AssistantMessage(t, env)
      case Failed => ErrorMessage(env)
  }

  /** The pending candidate after a routed message: dropped once confirmed, replaced
      by a candidate found in the assistant's reply, kept otherwise. */
  function NextPending(route: Route, pending: Option<Extracted>, answer: Reply, today: string): (r: Option<Extracted>)
    ensures route == ConfirmPending ==> r == None
    ensures route != ConfirmPending && r != pending ==>
              route == AskAssistant && answer.Answered? && r == ParseAppointmentFromText(answer.text, today) && r.Some?
    ensures route == AskAssistant && answer.Answered? && ParseAppointmentFromText(answer.text, today).None? ==> r == pending
  {
    if route == ConfirmPending then None
    else if route == AskAssistant && answer.Answered? && ParseAppointmentFromText(answer.text, today).Some? then
      ParseAppointmentFromText(answer.text, today)
    else pending
  }

  // ---------------------------------------------------------------------------
  // The appointment a confirmation records
  // ---------------------------------------------------------------------------

  const DefaultClientName := "Cliente Novo"
  const DefaultService := "Serviço"

  /** `s || fallback` on a string: the empty string is falsy. */
  function OrElse(s: string, fallback: string): (r: string)
    ensures s != "" ==> r == s
    ensures s == "" ==> r == fallback
  {
    if s == "" then fallback else s
  }

  /** `value || 0` on a number: NaN and zero are falsy. */
  function AmountOrZero(n: Number): (v: real)
    ensures n.Finite? ==> v == n.v
    ensures n.NaN? ==> v == 0.0
  {
    match n
    case NaN => 0.0
    case Finite(x) => x
  }

  /** The appointment a confirmed candidate becomes: its fields, with the source's
      fallbacks for the falsy ones, confirmed, stamped with this event's clock. */
  function Materialize(p: Extracted, env: Env): (a: Appointment)
    ensures a.confirmed && a.month == env.monthName
    ensures a.id == "a" + Stamp(env) && a.clientId == "temp_" + Stamp(env)
    ensures a.clientName != "" && a.service != ""
    ensures env.isoNow != "" ==> a.date != ""
    ensures p.clientName != "" ==> a.clientName == p.clientName
    ensures p.service != "" ==> a.service == p.service
    ensures a.phone == p.phone
    ensures p.date != "" ==> a.date == p.date
    ensures p.value.Finite? ==> a.value == p.value.v
    ensures p.clientName == "" ==> a.clientName == DefaultClientName
    ensures p.service == "" ==> a.service == DefaultService
    ensures p.date == "" ==> a.date == env.isoNow
    ensures p.value.NaN? ==> a.value == 0.0
  {
    Appointment(
      "a" + Stamp(env),
      "temp_" + Stamp(env),
      OrElse(p.clientName, DefaultClientName),
      OrElse(p.phone, ""),
      OrElse(p.date, env.isoNow),
      OrElse(p.service, DefaultService),
      AmountOrZero(p.value),
      env.monthName,
      true)
  }

  /** The confirmation reply the assistant is told to write is recorded, once
      confirmed, with its client, service and amount, no phone, and the localized
      date of the day it was read. */
  lemma ConfirmationRecorded(name: string, service: string, amount: nat, env: Env)
    requires PlainField(name) && PlainField(service) && env.today != ""
    ensures ParseAppointmentFromText(Confirmation(name, service, amount), env.today).Some?
    ensures Materialize(ParseAppointmentFromText(Confirmation(name, service, amount), env.today).value, env)
            == Appointment("a" + Stamp(env), "temp_" + Stamp(env), name, "", env.today, service,
                           amount as real, env.monthName, true)
  {
    ConfirmationRoundTrip(name, service, amount, env.today);
  }

  // ---------------------------------------------------------------------------
  // The client list import
  // ---------------------------------------------------------------------------

  const PlaceholderBirthday := "1900-01-01"

  /** `line.trim() !== ''`. */
  function IsNonBlank(): string -> bool {
    (line: string) => Trim(line) != ""
  }

  /** `content.split('\n')` without the blank lines. */
  function NonBlankLines(content: string): seq<string> {
    Filter(Split(content, '\n'), IsNonBlank())
  }

  /** Each kept line is one non-blank line of the content. */
  lemma NonBlankLinesAreLines(content: string)
    ensures forall l | l in NonBlankLines(content) :: '\n' !in l && Trim(l) != ""
  {
  }

  /** The lines after the first, which is the header. */
  function DataRows(lines: seq<string>): seq<string> {
    if lines == [] then [] else lines[1..]
  }

  /** `line.split(',').map(p => p.trim())`. */
  function Fields(line: string): seq<string> {
    var raw := Split(line, ',');
    seq(|raw|, k requires 0 <= k < |raw| => Trim(raw[k]))
  }

  /** The fields are the comma-separated pieces, trimmed; none holds a comma. */
  lemma FieldsTrimmed(line: string)
    ensures |Fields(line)| == |Split(line, ',')|
    ensures forall k | 0 <= k < |Fields(line)| ::
              Fields(line)[k] == Trim(Split(line, ',')[k]) && IsTrimmed(Fields(line)[k]) && ',' !in Fields(line)[k]
  {
  }

  /** A row with at least two fields describes a client. */
  function IsClientRow(): string -> bool {
    (line: string) => |Fields(line)| >= 2
  }

  /** A client read from a list: name and phone given, the import day as last visit
      and enrolment, a placeholder birthday, no history, category Cabelo. */
  function NewClient(id: string, name: string, phone: string, today: Date): Client {
    Client(id, name, phone, today, PlaceholderBirthday, today, 0, 0.0, Cabelo)
  }

  predicate IsImported(c: Client, today: Date) {
    && c.lastVisit == today && c.memberSince == today && c.birthday == PlaceholderBirthday
    && c.servicesCount == 0 && c.totalSpent == 0.0 && c.category == Cabelo
    && IsTrimmed(c.name) && IsTrimmed(c.phone) && ',' !in c.name && ',' !in c.phone
  }

  /** The clients the rows describe, in row order; the `k`-th gets `freshId(k)`. */
  function ImportedClients(rows: seq<string>, freshId: nat -> string, today: Date): (r: seq<Client>)
    ensures |r| <= |rows|
  {
    if rows == [] then []
    else
      var init := ImportedClients(rows[..|rows| - 1], freshId, today);
      var last := Fields(rows[|rows| - 1]);
      if |last| >= 2 then init + [NewClient(freshId(|init|), last[0], last[1], today)] else init
  }

  /** The import loop: every line after the header with at least two fields becomes
      a client. */
  method ParseClientRows(lines: seq<string>, freshId: nat -> string, today: Date) returns (newClients: seq<Client>)
    ensures newClients == ImportedClients(DataRows(lines), freshId, today)
  {
    newClients := [];
    if lines == [] {
      return;
    }
    var i := 1;
    while i < |lines|
      invariant 1 <= i <= |lines|
      invariant newClients == ImportedClients(lines[1..i], freshId, today)
    {
      var parts := Fields(lines[i]);
      ImportStep(lines, i, freshId, today);
      if |parts| >= 2 {
        newClients := newClients + [NewClient(freshId(|newClients|), parts[0], parts[1], today)];
      }
      i := i + 1;
    }
    assert lines[1..i] == DataRows(lines);
  }

  /** Reading one more row adds at most the client it describes. */
  lemma ImportStep(lines: seq<string>, i: nat, freshId: nat -> string, today: Date)
    requires 1 <= i < |lines|
    ensures var init := ImportedClients(lines[1..i], freshId, today);
            var parts := Fields(lines[i]);
            ImportedClients(lines[1..i + 1], freshId, today)
            == if |parts| >= 2 then init + [NewClient(freshId(|init|), parts[0], parts[1], today)] else init
  {
    var rows := lines[1..i + 1];
    assert rows[..|rows| - 1] == lines[1..i];
    assert rows[|rows| - 1] == lines[i];
  }

  /** At most one client per row; the `k`-th has id `freshId(k)`, the import
      defaults, and a trimmed, comma-free name and phone. */
  lemma {:induction false} ImportedClientsShape(rows: seq<string>, freshId: nat -> string, today: Date)
    ensures var r := ImportedClients(rows, freshId, today);
            |r| <= |rows| && forall k | 0 <= k < |r| :: r[k].id == freshId(k) && IsImported(r[k], today)
  {
    if rows != [] {
      var n := |rows| - 1;
      ImportedClientsShape(rows[..n], freshId, today);
      var init := ImportedClients(rows[..n], freshId, today);
      var last := Fields(rows[n]);
      var r := ImportedClients(rows, freshId, today);
      if |last| >= 2 {
        var c := NewClient(freshId(|init|), last[0], last[1], today);
        RowClientImported(rows[n], freshId(|init|), today);
        assert r == init + [c];
        forall k | 0 <= k < |r| ensures r[k].id == freshId(k) && IsImported(r[k], today) {
          if k < |init| {
            assert r[k] == init[k];
          } else {
            assert r[k] == c;
          }
        }
      } else {
        assert r == init;
      }
    }
  }

  /** The client a row of at least two fields describes has the import defaults. */
  lemma RowClientImported(line: string, id: string, today: Date)
    requires |Fields(line)| >= 2
    ensures IsImported(NewClient(id, Fields(line)[0], Fields(line)[1], today), today)
  {
    FieldsTrimmed(line);
  }

  /** One client per row with at least two fields. */
  lemma {:induction false} ImportCount(rows: seq<string>, freshId: nat -> string, today: Date)
    ensures |ImportedClients(rows, freshId, today)| == |Filter(rows, IsClientRow())|
  {
    if rows != [] {
      var init := rows[..|rows| - 1];
      ImportCount(init, freshId, today);
      assert rows == init + [rows[|rows| - 1]];
      FilterAppend(init, [rows[|rows| - 1]], IsClientRow());
    }
  }

  /** A cell that survives a comma-separated line unchanged. */
  predicate PlainCell(s: string) {
    IsTrimmed(s) && ',' !in s && '\n' !in s
  }

  /** The data lines of a two-column list: "name,phone" per client. */
  function CsvRows(names: seq<string>, phones: seq<string>): (rows: seq<string>)
    requires |names| == |phones|
    ensures |rows| == |names|
    ensures forall k | 0 <= k < |rows| :: rows[k] == names[k] + "," + phones[k]
  {
    seq(|names|, k requires 0 <= k < |names| => names[k] + "," + phones[k])
  }

  lemma RowFields(name: string, phone: string)
    requires PlainCell(name) && PlainCell(phone)
    ensures Fields(name + "," + phone) == [name, phone]
  {
    var line := name + "," + phone;
    assert line == name + [','] + phone;
    SplitAtFirst(name, ',', phone);
    SplitNoSeparator(phone, ',');
    var raw := Split(line, ',');
    assert raw == [name, phone];
    TrimTrimmed(name);
    TrimTrimmed(phone);
    var f := Fields(line);
    assert |f| == 2 && f[0] == Trim(raw[0]) && f[1] == Trim(raw[1]);
  }

  lemma {:induction false} ImportRows(names: seq<string>, phones: seq<string>, freshId: nat -> string, today: Date)
    requires |names| == |phones|
    requires forall k | 0 <= k < |names| :: PlainCell(names[k]) && PlainCell(phones[k])
    ensures var r := ImportedClients(CsvRows(names, phones), freshId, today);
            |r| == |names| &&
            forall k | 0 <= k < |r| :: r[k] == NewClient(freshId(k), names[k], phones[k], today)
  {
    var rows := CsvRows(names, phones);
    if rows != [] {
      var n := |names| - 1;
      ImportRows(names[..n], phones[..n], freshId, today);
      assert rows[..n] == CsvRows(names[..n], phones[..n]);
      RowFields(names[n], phones[n]);
      var init := ImportedClients(rows[..n], freshId, today);
      var r := ImportedClients(rows, freshId, today);
      assert r == init + [NewClient(freshId(n), names[n], phones[n], today)];
      forall k | 0 <= k < |r|
        ensures r[k] == NewClient(freshId(k), names[k], phones[k], today)
      {
        if k < n {
          assert r[k] == init[k];
          assert names[..n][k] == names[k] && phones[..n][k] == phones[k];
        }
      }
    }
  }

  /** Writing a header and one "name,phone" line per client, then importing the
      text, gives those clients back in order with fresh ids. */
  lemma ImportCsvFile(header: string, names: seq<string>, phones: seq<string>, freshId: nat -> string, today: Date)
    requires Trim(header) != "" && '\n' !in header
    requires |names| == |phones|
    requires forall k | 0 <= k < |names| :: PlainCell(names[k]) && PlainCell(phones[k])
    ensures var r := ImportedClients(DataRows(NonBlankLines(Join([header] + CsvRows(names, phones), '\n'))), freshId, today);
            |r| == |names| &&
            forall k | 0 <= k < |r| :: r[k] == NewClient(freshId(k), names[k], phones[k], today)
  {
    var rows := CsvRows(names, phones);
    var lines := [header] + rows;
    forall l | l in lines
      ensures '\n' !in l && Trim(l) != ""
    {
      if l != header {
        var k :| 0 <= k < |rows| && rows[k] == l;
        assert l[|names[k]|] == ',';
        TrimEmptyIffBlank(l);
      }
    }
    SplitJoin(lines, '\n');
    FilterAll(lines, IsNonBlank());
    assert DataRows(lines) == rows;
    ImportRows(names, phones, freshId, today);
  }

  // ---------------------------------------------------------------------------
  // Chat appointments and the month grid
  // ---------------------------------------------------------------------------

  lemma MonthNamesCapitalized()
    ensures forall j | 0 <= j < 12 :: |AllMonths[j]| > 0 && 'A' <= AllMonths[j][0] <= 'Z'
  {
  }

  /** A lower-case month name, as `Intl.DateTimeFormat('pt-BR')` writes it, is none
      of the capitalized names the month grid looks for. */
  lemma LowerMonthNotInGrid(k: nat)
    requires k < 12
    ensures ToLower(AllMonths[k]) !in AllMonths
  {
    MonthNamesCapitalized();
    var m := ToLower(AllMonths[k]);
    assert 'a' <= m[0] <= 'z';
  }

  /** Adding an appointment whose month is not one of the grid's names changes no
      entry of the grid. */
  lemma AppointmentOutsideGrid(appts: seq<Appointment>, clients: seq<Client>, clock: Clock, a: Appointment)
    requires a.month !in AllMonths
    ensures MonthsData(appts + [a], clients, clock) == MonthsData(appts, clients, clock)
  {
    forall i | 0 <= i < 12
      ensures AppointmentsIn(appts + [a], AllMonths[i]) == AppointmentsIn(appts, AllMonths[i])
    {
      FilterAppend(appts, [a], MonthIs(AllMonths[i]));
      assert Filter([a], MonthIs(AllMonths[i])) == [];
    }
  }

  /** An appointment confirmed in the chat carries the lower-case month name, so the
      dashboard's month grid does not count it. */
  lemma ConfirmedAppointmentNotInGrid(appts: seq<Appointment>, clients: seq<Client>, clock: Clock,
                                      p: Extracted, env: Env, k: nat)
    requires k < 12 && env.monthName == ToLower(AllMonths[k])
    ensures MonthsData(appts + [Materialize(p, env)], clients, clock) == MonthsData(appts, clients, clock)
  {
    LowerMonthNotInGrid(k);
    AppointmentOutsideGrid(appts, clients, clock, Materialize(p, env));
  }

  // ---------------------------------------------------------------------------
  // Routing properties
  // ---------------------------------------------------------------------------

  lemma {:induction false} ContainsWithin(s: string, mid: string, sub: string)
    requires Contains(s, mid) && Contains(mid, sub)
    ensures Contains(s, sub)
  {
    var i :| 0 <= i <= |s| - |mid| && mid <= s[i..];
    var j :| 0 <= j <= |mid| - |sub| && sub <= mid[j..];
    assert sub <= s[i + j..] by {
      forall k | 0 <= k < |sub|
        ensures sub[k] == s[i + j + k]
      {
        assert sub[k] == mid[j + k];
        assert mid[j + k] == s[i..][j + k];
      }
    }
  }

  /** Matching is case-insensitive: an occurrence in the typed text is an occurrence
      in its lower-case form. */
  lemma ContainsLowered(s: string, sub: string)
    requires Contains(s, sub)
    ensures Contains(ToLower(s), ToLower(sub))
  {
    var i :| 0 <= i <= |s| - |sub| && sub <= s[i..];
    var ls := ToLower(s);
    var lsub := ToLower(sub);
    assert lsub <= ls[i..] by {
      forall k | 0 <= k < |lsub|
        ensures lsub[k] == ls[i + k]
      {
        assert sub[k] == s[i..][k];
      }
    }
  }

  /** While a candidate is pending, "pode enviar" reads as a confirmation, because
      it contains "pode"; with none pending it is a send request. */
  lemma SendRequestConfirmsPending(lower: string)
    requires Contains(lower, "pode enviar") && !AsksHowTo(lower) && !AsksToConnect(lower)
    ensures RouteOf(lower, true) == ConfirmPending
    ensures RouteOf(lower, false) == SendRequest
  {
    assert "pode" <= "pode enviar"[0..];
    ContainsWithin(lower, "pode enviar", "pode");
  }

  /** A pending candidate changes the route only of an affirmative message. */
  lemma PendingAffectsOnlyAffirmative(lower: string)
    ensures RouteOf(lower, true) != RouteOf(lower, false) <==>
            (!AsksHowTo(lower) && !AsksToConnect(lower) && IsAffirmative(lower))
  {
  }

  /** A typed "SIM" confirms a pending candidate. */
  lemma UpperCaseYesConfirms(text: string)
    requires Contains(text, "SIM") && !AsksHowTo(ToLower(text)) && !AsksToConnect(ToLower(text))
    ensures RouteOf(ToLower(text), true) == ConfirmPending
  {
    ContainsLowered(text, "SIM");
    SimLowered();
    assert IsAffirmative(ToLower(text));
  }

  lemma SimLowered()
    ensures ToLower("SIM") == "sim"
  {
    var lowered := ToLower("SIM");
    assert lowered[0] == 's' && lowered[1] == 'i' && lowered[2] == 'm';
  }

  // ---------------------------------------------------------------------------
  // The application state
  // ---------------------------------------------------------------------------

  /** What the chat screen holds between two events. */
  datatype Screen = Screen(salon: SalonState, messages: seq<Message>, pending: Option<Extracted>,
                           tab: Tab, connected: bool)

  /** The screen after `text` is sent from `s`: a blank text changes nothing; any
      other text is added with the reply its route gives. The assistant is asked only
      on the last route, with the last six messages from before this one and the
      salon as it was. */
  function AfterMessage(s: Screen, text: string, env: Env, assistant: (string, seq<Turn>, SalonState) -> Reply): (r: Screen)
    ensures r.connected == s.connected && r.salon.clients == s.salon.clients
  {
    if Trim(text) == "" then s
    else
      var route := RouteOf(ToLower(text), s.pending.Some?);
      var answer := if route == AskAssistant then assistant(text, History(s.messages), s.salon) else Failed;
      Screen(if route == ConfirmPending
             then s.salon.(appointments := s.salon.appointments + [Materialize(s.pending.value, env)])
             else s.salon,
             s.messages + [UserMessage(text, env), ReplyFor(route, s.connected, answer, env)],
             NextPending(route, s.pending, answer, env.today),
             if route == OpenConnection then DashboardTab else s.tab,
             s.connected)
  }

  /** A blank text leaves the screen as it was. */
  lemma BlankMessageIgnored(s: Screen, text: string, env: Env, assistant: (string, seq<Turn>, SalonState) -> Reply)
    requires Trim(text) == ""
    ensures AfterMessage(s, text, env, assistant) == s
  {
  }

  /** Any other text only adds to the conversation: the earlier messages stay, the
      user's message and one reply from the assistant follow. The client list and
      the connection are untouched, an appointment is added only when an affirmative
      answer meets a pending candidate, and the only tab a message opens is the
      dashboard. */
  lemma MessageAddsTwo(s: Screen, text: string, env: Env, assistant: (string, seq<Turn>, SalonState) -> Reply)
    requires Trim(text) != ""
    ensures var t := AfterMessage(s, text, env, assistant);
            && |t.messages| == |s.messages| + 2
            && t.messages[..|s.messages|] == s.messages
            && t.messages[|s.messages|] == UserMessage(text, env)
            && t.messages[|s.messages| + 1].role == Assistant
            && t.salon.clients == s.salon.clients
            && t.connected == s.connected
            && (t.tab == s.tab || t.tab == DashboardTab)
            && (t.salon.appointments == s.salon.appointments
                || (s.pending.Some? && IsAffirmative(ToLower(text))
                    && t.salon.appointments == s.salon.appointments + [Materialize(s.pending.value, env)]))
  {
    var t := AfterMessage(s, text, env, assistant);
    var route := RouteOf(ToLower(text), s.pending.Some?);
    var answer := if route == AskAssistant then assistant(text, History(s.messages), s.salon) else Failed;
    var reply := ReplyFor(route, s.connected, answer, env);
    assert t.messages == s.messages + [UserMessage(text, env), reply];
    assert t.messages[..|s.messages|] == s.messages;
  }

  /** A confirmation appends exactly the candidate, materialized, to the
      appointments, clears the candidate and answers with the registration notice;
      the clients and the tab stay. */
  lemma ConfirmationEffects(s: Screen, text: string, env: Env, assistant: (string, seq<Turn>, SalonState) -> Reply)
    requires Trim(text) != "" && RouteOf(ToLower(text), s.pending.Some?) == ConfirmPending
    ensures var t := AfterMessage(s, text, env, assistant);
            && s.pending.Some?
            && t.salon == s.salon.(appointments := s.salon.appointments + [Materialize(s.pending.value, env)])
            && t.pending == None && t.tab == s.tab
            && t.messages == s.messages + [UserMessage(text, env), AssistantMessage(RegisteredReply, env)]
  {
  }

  /** The three routes answered without the assistant change only the messages
      (and, for a connection request, the tab); a send request is answered by
      whether WhatsApp is connected. */
  lemma LocalReplyEffects(s: Screen, text: string, env: Env, assistant: (string, seq<Turn>, SalonState) -> Reply)
    requires Trim(text) != ""
    requires RouteOf(ToLower(text), s.pending.Some?) in {HowTo, OpenConnection, SendRequest}
    ensures var route := RouteOf(ToLower(text), s.pending.Some?);
            var t := AfterMessage(s, text, env, assistant);
            && t.salon == s.salon && t.pending == s.pending
            && t.tab == (if route == OpenConnection then DashboardTab else s.tab)
            && t.messages == s.messages + [UserMessage(text, env), AssistantMessage(
                 match route
                 case HowTo => HowToReply
                 case OpenConnection => ConnectReply
                 case _ => if s.connected then SentReply else NotConnectedReply, env)]
  {
  }

  /** Any other message goes to the assistant with the history from before it. A
      failure is answered with the error notice and keeps the candidate; a reply is
      shown as it came, and it becomes the candidate when the extractor finds one
      in it. Salon and tab stay. */
  lemma AssistantEffects(s: Screen, text: string, env: Env, assistant: (string, seq<Turn>, SalonState) -> Reply)
    requires Trim(text) != "" && RouteOf(ToLower(text), s.pending.Some?) == AskAssistant
    ensures var t := AfterMessage(s, text, env, assistant);
            && t.salon == s.salon && t.tab == s.tab
            && match assistant(text, History(s.messages), s.salon)
               case Failed =>
                 t.messages == s.messages + [UserMessage(text, env), ErrorMessage(env)] && t.pending == s.pending
               case Answered(reply) =>
                 && t.messages == s.messages + [UserMessage(text, env), AssistantMessage(reply, env)]
                 && t.pending == (if ParseAppointmentFromText(reply, env.today).Some?
                                  then ParseAppointmentFromText(reply, env.today) else s.pending)
  {
  }

  /** The state `App` holds, one field per `useState`, with one method per handler. */
  class SalonApp {
    var salon: SalonState
    var whatsappConnected: bool
    var activeTab: Tab
    var isLoading: bool
    var pendingAppointment: Option<Extracted>
    var messages: seq<Message>

    /** The seeded salon, disconnected, on the chat tab, with the greeting. */
    constructor (env: Env)
      ensures salon == Seed.InitialSalon
      ensures !whatsappConnected && activeTab == ChatTab && !isLoading && pendingAppointment == None
      ensures messages == [Message("m1", Assistant, GreetingText, env.nowMs)]
    {
      salon := Seed.InitialSalon;
      whatsappConnected := false;
      activeTab := ChatTab;
      isLoading := false;
      pendingAppointment := None;
      messages := [Message("m1", Assistant, GreetingText, env.nowMs)];
    }

    /** The fields `handleSendMessage` and `handleFileUpload` update. */
    function Snapshot(): Screen
      reads this
    {
      Screen(salon, messages, pendingAppointment, activeTab, whatsappConnected)
    }

    /** `handleSendMessage`: the screen becomes `AfterMessage` of the one it found,
        and a non-blank message leaves the loading flag off again. */
    method SendMessage(text: string, env: Env, assistant: (string, seq<Turn>, SalonState) -> Reply)
      modifies this
      ensures Snapshot() == AfterMessage(old(Snapshot()), text, env, assistant)
      ensures isLoading == (if Trim(text) == "" then old(isLoading) else false)
    {
      var found := Snapshot();
      if Trim(text) == "" {
        BlankMessageIgnored(found, text, env, assistant);
        return;
      }
      isLoading := true;
      var next := Respond(found, text, env, assistant);
      Commit(next);
    }

    /** The state updates that end the handler: the new salon, conversation,
        pending candidate and tab, and the loading flag off. */
    method Commit(next: Screen)
      modifies this
      requires next.connected == whatsappConnected
      ensures Snapshot() == next && !isLoading
    {
      salon, messages, pendingAppointment, activeTab := next.salon, next.messages, next.pending, next.tab;
      isLoading := false;
    }

    /** `handleFileUpload` once the file is read: a notice naming the file, the
        imported clients appended to the salon, and a summary with their number. */
    method UploadFile(fileName: string, content: string, env: Env, freshId: nat -> string)
      modifies this
      ensures var imported := ImportedClients(DataRows(NonBlankLines(content)), freshId, env.isoDay);
              && salon == old(salon).(clients := old(salon).clients + imported)
              && messages == old(messages) + [UserMessage(FileNoticePrefix + fileName, env),
                                              AssistantMessage(ImportSummary(|imported|), env)]
      ensures !isLoading
      ensures activeTab == old(activeTab) && pendingAppointment == old(pendingAppointment)
      ensures whatsappConnected == old(whatsappConnected)
    {
      isLoading := true;
      salon, messages := Upload(salon, messages, fileName, content, env, freshId);
      isLoading := false;
    }
  }

  /** The body of `handleSendMessage` past its blank-text test, on the values its
      state updates receive. */
  method Respond(s: Screen, text: string, env: Env, assistant: (string, seq<Turn>, SalonState) -> Reply)
    returns (t: Screen)
    requires Trim(text) != ""
    ensures t == AfterMessage(s, text, env, assistant)
    ensures t.connected == s.connected
  {
    var userMsg := UserMessage(text, env);
    var route := RouteOf(ToLower(text), s.pending.Some?);
    var salon', pending', tab' := s.salon, s.pending, s.tab;
    var reply;
    if route == HowTo {
      reply := AssistantMessage(HowToReply, env);
    } else if route == OpenConnection {
      tab' := DashboardTab;
      reply := AssistantMessage(ConnectReply, env);
    } else if route == ConfirmPending {
      var newAppointment := Materialize(s.pending.value, env);
      salon' := s.salon.(appointments := s.salon.appointments + [newAppointment]);
      reply := AssistantMessage(RegisteredReply, env);
      pending' := None;
    } else if route == SendRequest {
      if !s.connected {
        reply := AssistantMessage(NotConnectedReply, env);
      } else {
        reply := AssistantMessage(SentReply, env);
      }
    } else {
      // the history is the list as the handler found it, without `userMsg`
      var response := assistant(text, History(s.messages), s.salon);
      match response {
        case Failed =>
          reply := ErrorMessage(env);
        case Answered(answer) =>
          var extracted := ParseAppointmentFromText(answer, env.today);
          if extracted.Some? {
            pending' := extracted;
          }
          reply := AssistantMessage(answer, env);
      }
    }
    t := Screen(salon', s.messages + [userMsg, reply], pending', tab', s.connected);
  }

  /** `handleFileUpload` once the file is read, on the values its state updates
      receive: the imported clients appended to the salon, a notice naming the file
      and a summary with their number appended to the messages. */
  method Upload(salon: SalonState, messages: seq<Message>, fileName: string, content: string, env: Env,
                freshId: nat -> string)
    returns (salon': SalonState, messages': seq<Message>)
    ensures var imported := ImportedClients(DataRows(NonBlankLines(content)), freshId, env.isoDay);
            && salon' == salon.(clients := salon.clients + imported)
            && messages' == messages + [UserMessage(FileNoticePrefix + fileName, env),
                                        AssistantMessage(ImportSummary(|imported|), env)]
  {
    var notice := UserMessage(FileNoticePrefix + fileName, env);
    var lines := NonBlankLines(content);
    var newClients := ParseClientRows(lines, freshId, env.isoDay);
    salon' := salon.(clients := salon.clients + newClients);
    messages' := messages + [notice, AssistantMessage(ImportSummary(|newClients|), env)];
  }

  /** The summary after an import of `n` clients. */
  function ImportSummary(n: nat): string {
    "📊 Importei " + NatToString(n) + SummaryTail
  }

  /** Asking the assistant, getting a confirmation reply, then answering yes records
      exactly the confirmed appointment and clears the candidate. */
  method ConfirmThroughChat(app: SalonApp, request: string, yes: string, name: string, service: string,
                            amount: nat, ask: Env, confirm: Env)
    requires app.pendingAppointment == None
    requires Trim(request) != "" && RouteOf(ToLower(request), false) == AskAssistant
    requires Trim(yes) != "" && RouteOf(ToLower(yes), true) == ConfirmPending
    requires PlainField(name) && PlainField(service) && ask.today != ""
    modifies app
    ensures app.salon.appointments == old(app.salon.appointments)
              + [Appointment("a" + Stamp(confirm), "temp_" + Stamp(confirm), name, "", ask.today, service,
                             amount as real, confirm.monthName, true)]
    ensures app.salon.clients == old(app.salon.clients)
    ensures app.pendingAppointment == None
    ensures |app.messages| == |old(app.messages)| + 4
  {
    var reply := Confirmation(name, service, amount);
    ConfirmationRoundTrip(name, service, amount, ask.today);
    app.SendMessage(request, ask, (t: string, h: seq<Turn>, s: SalonState) => Answered(reply));
    assert app.pendingAppointment == ParseAppointmentFromText(reply, ask.today);
    app.SendMessage(yes, confirm, (t: string, h: seq<Turn>, s: SalonState) => Failed);
  }
}
