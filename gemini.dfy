/** The deterministic parts of the assistant service (services/gemini.ts): the list
    of clients at a 30/45/60-day milestone that goes into the assistant's
    instructions, and the label-driven extraction of an appointment from the
    assistant's reply. The remote model call itself is not part of this model. */
module Gemini {
  import opened Types
  import opened Lists
  import opened Text
  import opened Dashboard

  // ---------------------------------------------------------------------------
  // dailyReminders
  // ---------------------------------------------------------------------------

  function AtMilestone(clock: Clock): Client -> bool {
    (c: Client) => var d := DaysSince(c, clock); d == 30 || d == 45 || d == 60
  }

  function ClientNames(cs: seq<Client>): (names: seq<string>)
    ensures |names| == |cs|
    ensures forall k | 0 <= k < |cs| :: names[k] == cs[k].name
  {
    if cs == [] then [] else [cs[0].name] + ClientNames(cs[1..])
  }

  /** The names of the clients exactly 30, 45 or 60 days from their last visit, in
      client order. A name is on the list exactly when the dashboard's reminder list
      has an entry of priority "alta" for a client of that name. */
  function DailyReminders(clients: seq<Client>, clock: Clock): (names: seq<string>)
    ensures |names| <= |clients|
    ensures forall name ::
              name in names <==> exists e | e in AutomaticReminders(clients, clock) :: e.client.name == name && e.priority == Alta
  {
    var names := ClientNames(Filter(clients, AtMilestone(clock)));
    assert forall name ::
             name in names <==> exists e | e in AutomaticReminders(clients, clock) :: e.client.name == name && e.priority == Alta
    by {
      forall name
        ensures name in names <==> exists e | e in AutomaticReminders(clients, clock) :: e.client.name == name && e.priority == Alta
      {
        MilestoneNamesAreAltaNames(clients, clock, name);
      }
    }
    names
  }

  /** The milestone clients of the assistant are exactly the clients the dashboard's
      reminder list carries with priority "alta". */
  lemma DailyRemindersAreHighPriority(clients: seq<Client>, clock: Clock, c: Client)
    requires c in clients
    ensures c in Filter(clients, AtMilestone(clock))
            <==> exists e | e in AutomaticReminders(clients, clock) :: e.client == c && e.priority == Alta
  {
    var flagged := Flagged(clients, clock);
    var r := AutomaticReminders(clients, clock);
    assert multiset(r) == multiset(flagged);
    if c in Filter(clients, AtMilestone(clock)) {
      var e := MilestoneEntry(clients, clock, c);
      assert e in multiset(flagged);
      assert e in r;
    }
    if exists e | e in r :: e.client == c && e.priority == Alta {
      var e :| e in r && e.client == c && e.priority == Alta;
      assert e in multiset(r);
      assert e in flagged;
      assert DaysSince(c, clock) == e.diffDays;
    }
  }

  /** A name is among the milestone clients' names exactly when the dashboard's
      reminder list has an entry of priority "alta" for a client of that name. */
  lemma MilestoneNamesAreAltaNames(clients: seq<Client>, clock: Clock, name: string)
    ensures name in ClientNames(Filter(clients, AtMilestone(clock)))
            <==> exists e | e in AutomaticReminders(clients, clock) :: e.client.name == name && e.priority == Alta
  {
    var f := Filter(clients, AtMilestone(clock));
    var names := ClientNames(f);
    var r := AutomaticReminders(clients, clock);
    if name in names {
      var k :| 0 <= k < |names| && names[k] == name;
      assert f[k] in f;
      DailyRemindersAreHighPriority(clients, clock, f[k]);
    }
    if exists e | e in r :: e.client.name == name && e.priority == Alta {
      var e :| e in r && e.client.name == name && e.priority == Alta;
      AutomaticRemindersSpec(clients, clock);
      DailyRemindersAreHighPriority(clients, clock, e.client);
      var k :| 0 <= k < |f| && f[k] == e.client;
      assert names[k] == name;
    }
  }

  /** A client at a milestone has an entry of priority "alta" among the flagged ones. */
  lemma MilestoneEntry(clients: seq<Client>, clock: Clock, c: Client) returns (e: ReminderEntry)
    requires c in clients && AtMilestone(clock)(c)
    ensures e in Flagged(clients, clock) && e.client == c && e.priority == Alta
  {
    var flagged := Flagged(clients, clock);
    assert HasReminder(clock)(c);
    assert c in Filter(clients, HasReminder(clock));
    assert c in ClientsOf(flagged);
    var k :| 0 <= k < |flagged| && ClientsOf(flagged)[k] == c;
    e := flagged[k];
    assert e in flagged;
  }

  // ---------------------------------------------------------------------------
  // Case-insensitive labels
  // ---------------------------------------------------------------------------

  /** `lbl` occurs in `text` at position `i` under the `i` flag. The labels are
      written in lower case, and a text character matches a label character when it
      lowers to it. */
  predicate LabelAt(text: string, i: nat, lbl: string) {
    i + |lbl| <= |text| && forall k | 0 <= k < |lbl| :: LowerChar(text[i + k]) == lbl[k]
  }

  /** `lbl` occurs nowhere in `s`. */
  predicate LabelFree(s: string, lbl: string) {
    forall j | 0 <= j <= |s| :: !LabelAt(s, j, lbl)
  }

  /** No line terminator in `s`: what `.` can match in full. */
  predicate OneLine(s: string) {
    forall k | 0 <= k < |s| :: !IsLineTerminator(s[k])
  }

  /** The first position at or after `from` where `lbl` occurs: the leftmost match
      of a regular expression that starts with the label. */
  function FirstLabel(text: string, lbl: string, from: nat): (r: Option<nat>)
    ensures r.Some? ==> from <= r.value && LabelAt(text, r.value, lbl) && r.value + |lbl| <= |text|
    ensures r.Some? ==> forall j | from <= j < r.value :: !LabelAt(text, j, lbl)
    ensures r.None? ==> forall j | from <= j :: !LabelAt(text, j, lbl)
    decreases |text| - from
  {
    if from > |text| then None
    else if LabelAt(text, from, lbl) then Some(from)
    else FirstLabel(text, lbl, from + 1)
  }

  /** Index of the first non-white-space character at or after `j` (`\s*`). */
  function SkipSpaces(text: string, j: nat): (k: nat)
    requires j <= |text|
    ensures j <= k <= |text|
    ensures forall m | j <= m < k :: IsSpace(text[m])
    ensures k < |text| ==> !IsSpace(text[k])
  {
    j + LeadingSpaces(text[j..])
  }

  /** The longest prefix without a line terminator (`.*`). */
  function RestOfLine(s: string): (r: string)
    ensures r <= s
    ensures forall k | 0 <= k < |r| :: !IsLineTerminator(r[k])
    ensures |r| < |s| ==> IsLineTerminator(s[|r|])
  {
    if s == [] || IsLineTerminator(s[0]) then [] else [s[0]] + RestOfLine(s[1..])
  }

  /** The group `(.*)` of `/Label:\s*(.*)/` matched at a position where the label
      ends at `j`. */
  function Capture(text: string, j: nat): string
    requires j <= |text|
  {
    RestOfLine(text[SkipSpaces(text, j)..])
  }

  /** `text.match(/Label:\s*(.*)/i)?.[1]`: the rest of the line after the first
      occurrence of the label and any white space. */
  function MatchLabel(text: string, lbl: string): (r: Option<string>)
    ensures r.Some? <==> exists j: nat :: LabelAt(text, j, lbl)
    ensures r.Some? ==> OneLine(r.value)
  {
    match FirstLabel(text, lbl, 0)
    case None => None
    case Some(i) => Some(Capture(text, i + |lbl|))
  }

  // ---------------------------------------------------------------------------
  // The amount after "Valor: R$"
  // ---------------------------------------------------------------------------

  /** The class `[\d,.]`. */
  predicate IsAmountChar(c: char) {
    IsDigit(c) || c == ',' || c == '.'
  }

  /** The longest prefix of amount characters (`[\d,.]*`). */
  function AmountRun(s: string): (r: string)
    ensures r <= s
    ensures forall k | 0 <= k < |r| :: IsAmountChar(r[k])
    ensures |r| < |s| ==> !IsAmountChar(s[|r|])
  {
    if s == [] || !IsAmountChar(s[0]) then [] else [s[0]] + AmountRun(s[1..])
  }

  const ValorLabel := "valor:"

  /** `/Valor:\s*R\$\s*([\d,.]+)/i` tried at position `i`: the label, white space,
      "R$" (the R in either case), white space, then one or more amount
      characters, of which it takes as many as there are. */
  function ValorAt(text: string, i: nat): (r: Option<string>)
    ensures r.Some? ==> LabelAt(text, i, ValorLabel) && |r.value| >= 1
  {
    if !LabelAt(text, i, ValorLabel) then None
    else
      var j := SkipSpaces(text, i + |ValorLabel|);
      if j + 2 <= |text| && LowerChar(text[j]) == 'r' && text[j + 1] == '$' then
        var run := AmountRun(text[SkipSpaces(text, j + 2)..]);
        if run == [] then None else Some(run)
      else None
  }

  /** When the value pattern matches at `i`, and what it captures: the label, white
      space, "R" or "r" and "$", white space, then the longest run of amount
      characters, which must not be empty. */
  lemma ValorAtMatches(text: string, i: nat)
    ensures ValorAt(text, i).Some? <==>
              && LabelAt(text, i, ValorLabel)
              && var j := SkipSpaces(text, i + |ValorLabel|);
                 && j + 2 <= |text| && LowerChar(text[j]) == 'r' && text[j + 1] == '$'
                 && AmountRun(text[SkipSpaces(text, j + 2)..]) != []
    ensures ValorAt(text, i).Some? ==>
              ValorAt(text, i).value == AmountRun(text[SkipSpaces(text, SkipSpaces(text, i + |ValorLabel|) + 2)..])
  {
  }

  /** The amount group of the leftmost position where the whole pattern matches. */
  function FirstValor(text: string, from: nat): (r: Option<string>)
    ensures r.Some? ==> exists j | from <= j :: ValorAt(text, j) == r && NoValorBetween(text, from, j)
    ensures r.None? ==> forall j | from <= j :: ValorAt(text, j).None?
    decreases |text| - from
  {
    if from > |text| then
      assert forall j | from <= j :: !LabelAt(text, j, ValorLabel);
      None
    else if ValorAt(text, from).Some? then
      assert NoValorBetween(text, from, from);
      ValorAt(text, from)
    else
      var r := FirstValor(text, from + 1);
      NoValorStep(text, from, r);
      r
  }

  /** A failed position before the first match extends the run of failures. */
  lemma NoValorStep(text: string, from: nat, r: Option<string>)
    requires ValorAt(text, from).None?
    requires r.Some? ==> exists j | from + 1 <= j :: ValorAt(text, j) == r && NoValorBetween(text, from + 1, j)
    ensures r.Some? ==> exists j | from <= j :: ValorAt(text, j) == r && NoValorBetween(text, from, j)
  {
    if r.Some? {
      var j :| from + 1 <= j && ValorAt(text, j) == r && NoValorBetween(text, from + 1, j);
      assert NoValorBetween(text, from, j);
    }
  }

  /** The value pattern matches at no position from `from` up to `j`. */
  predicate NoValorBetween(text: string, from: nat, j: nat) {
    forall k | from <= k < j :: ValorAt(text, k).None?
  }

  /** `s.replace(',', '.')`: only the first comma becomes a dot. */
  function ReplaceFirstComma(s: string): (r: string)
    ensures |r| == |s|
    ensures ',' !in s ==> r == s
    ensures forall k | 0 <= k < |s| && s[k] != ',' :: r[k] == s[k]
  {
    if s == [] then []
    else if s[0] == ',' then ['.'] + s[1..]
    else [s[0]] + ReplaceFirstComma(s[1..])
  }

  function Pow10(n: nat): (p: nat)
    ensures p >= 1
  {
    if n == 0 then 1 else 10 * Pow10(n - 1)
  }

  /** The value of the digits after a decimal point. */
  function FractionValue(frac: string): (v: real)
    requires AllDigits(frac)
    ensures v >= 0.0
  {
    DigitsValue(frac) as real / Pow10(|frac|) as real
  }

  /** The digits after the dot that follows the whole part, if a dot follows it. */
  function FractionDigits(rest: string): (frac: string)
    ensures AllDigits(frac)
  {
    if rest != [] && rest[0] == '.' then LeadingDigits(rest[1..]) else []
  }

  /** `parseFloat` on a text of digits, commas and dots: the longest prefix of the
      form digits[.digits] or .digits; NaN when there is none. */
  function ParseDecimal(s: string): (n: Number)
    ensures n.NaN? <==> LeadingDigits(s) == [] && !(|s| >= 2 && s[0] == '.' && IsDigit(s[1]))
    ensures n.Finite? ==> n.v >= 0.0
  {
    var whole := LeadingDigits(s);
    var frac := FractionDigits(s[|whole|..]);
    if whole == [] && frac == [] then NaN
    else Finite(DigitsValue(whole) as real + FractionValue(frac))
  }

  /** The amount as the source reads it: `parseFloat(run.replace(',', '.'))`. */
  function ParseAmount(run: string): (n: Number)
    ensures n.Finite? ==> n.v >= 0.0
    ensures run != [] && IsDigit(run[0]) ==> n.Finite?
  {
    ParseDecimal(ReplaceFirstComma(run))
  }

  lemma {:induction false} ZerosValue(z: string)
    requires forall k | 0 <= k < |z| :: z[k] == '0'
    ensures AllDigits(z) && DigitsValue(z) == 0
  {
    if z != [] {
      ZerosValue(z[..|z| - 1]);
    }
  }

  /** A whole amount written with a decimal comma and zero cents, such as "50,00",
      reads as the whole number. */
  lemma AmountWithZeroCents(n: nat, z: string)
    requires forall k | 0 <= k < |z| :: z[k] == '0'
    ensures ParseAmount(NatToString(n) + "," + z) == Finite(n as real)
  {
    var w := NatToString(n);
    ReplaceAfterDigits(w, z);
    ZeroFraction(z);
    DecimalParts(w, z, []);
    assert w + "." + z + [] == w + "." + z;
    DigitsValueOfNatToString(n);
  }

  /** Zeros after the decimal point add nothing. */
  lemma ZeroFraction(z: string)
    requires forall k | 0 <= k < |z| :: z[k] == '0'
    ensures AllDigits(z) && FractionValue(z) == 0.0
  {
    ZerosValue(z);
    var p := Pow10(|z|) as real;
    assert FractionValue(z) == 0.0 / p;
  }

  /** A numeral with a dot reads as its whole part plus its fraction, either of which
      may be empty ("5." and ".5"); `parseFloat` stops at the first character after
      the fraction's digits. */
  lemma DecimalParts(w: string, z: string, t: string)
    requires AllDigits(w) && AllDigits(z) && (w != [] || z != [])
    requires t == [] || !IsDigit(t[0])
    ensures ParseDecimal(w + "." + z + t) == Finite(DigitsValue(w) as real + FractionValue(z))
  {
    DecimalSplit(w, z, t);
    ParseDecimalOf(w + "." + z + t, w, z);
  }

  /** Where `parseFloat` cuts "w.zt": the whole part is `w` and the fraction `z`. */
  lemma DecimalSplit(w: string, z: string, t: string)
    requires AllDigits(w) && AllDigits(z)
    requires t == [] || !IsDigit(t[0])
    ensures var s := w + "." + z + t;
            LeadingDigits(s) == w && FractionDigits(s[|w|..]) == z
  {
    var zt := z + t;
    var rest := ['.'] + zt;
    var s := w + "." + z + t;
    assert s == w + rest;
    LeadingDigitsStop(w, rest);
    assert s[|w|..] == rest;
    assert rest[1..] == zt;
    LeadingDigitsStop(z, t);
  }

  /** A numeral with no dot after its digits reads as a whole number; what follows
      is ignored. */
  lemma WholeNumber(w: string, t: string)
    requires w != [] && AllDigits(w)
    requires t == [] || (!IsDigit(t[0]) && t[0] != '.')
    ensures ParseDecimal(w + t) == Finite(DigitsValue(w) as real)
  {
    var s := w + t;
    LeadingDigitsStop(w, t);
    assert s[|w|..] == t;
    ParseDecimalOf(s, w, []);
    NoFraction();
  }

  lemma NoFraction()
    ensures FractionValue([]) == 0.0
  {
    assert Pow10(0) == 1;
  }

  /** `parseFloat` of a text whose whole and fraction parts are known. */
  lemma ParseDecimalOf(s: string, whole: string, frac: string)
    requires LeadingDigits(s) == whole && FractionDigits(s[|whole|..]) == frac
    requires whole != [] || frac != []
    ensures ParseDecimal(s) == Finite(DigitsValue(whole) as real + FractionValue(frac))
  {
  }

  /** An amount written with a dot for thousands, such as "1.234,56", reads as the
      digits before the dot plus the digits after it as a fraction, 1.234: the comma
      becomes a second dot and `parseFloat` stops there. */
  lemma ThousandsDotReadsAsFraction(a: string, b: string, c: string)
    requires a != [] && AllDigits(a) && AllDigits(b) && AllDigits(c)
    ensures ParseAmount(a + "." + b + "," + c) == Finite(DigitsValue(a) as real + FractionValue(b))
  {
    var w := a + "." + b;
    assert ',' !in w by {
      assert forall k | 0 <= k < |w| :: w[k] == '.' || IsDigit(w[k]);
    }
    ReplaceAfterDigits(w, c);
    assert w + "." + c == a + "." + b + ("." + c);
    DecimalParts(a, b, "." + c);
  }

  lemma {:induction false} ReplaceAfterDigits(w: string, z: string)
    requires ',' !in w
    ensures ReplaceFirstComma(w + "," + z) == w + "." + z
  {
    if w == [] {
      assert w + "," + z == "," + z;
    } else {
      assert (w + "," + z)[1..] == w[1..] + "," + z;
      ReplaceAfterDigits(w[1..], z);
      assert [w[0]] + (w[1..] + "." + z) == w + "." + z;
    }
  }

  // ---------------------------------------------------------------------------
  // parseAppointmentFromText
  // ---------------------------------------------------------------------------

  const ClienteLabel := "cliente:"
  const TelefoneLabel := "telefone:"
  const DataLabel := "data:"
  const ServicoLabel := "serviço:"

  /** The appointment candidate in an assistant reply: present exactly when both a
      "Cliente:" and a "Serviço:" line are; phone, date and value fall back to "",
      the localized `today` and 0. */
  function ParseAppointmentFromText(text: string, today: string): (r: Option<Extracted>)
    ensures r.Some? <==> MatchLabel(text, ClienteLabel).Some? && MatchLabel(text, ServicoLabel).Some?
    ensures r.Some? ==> (r.value.clientName == Trim(MatchLabel(text, ClienteLabel).value)
                         && r.value.service == Trim(MatchLabel(text, ServicoLabel).value))
    ensures r.Some? ==> r.value.phone == (match MatchLabel(text, TelefoneLabel)
                                          case None => "" case Some(p) => Trim(p))
    ensures r.Some? ==> r.value.date == (match MatchLabel(text, DataLabel)
                                         case None => today case Some(d) => Trim(d))
    ensures r.Some? ==> r.value.value == (match FirstValor(text, 0)
                                          case None => Finite(0.0) case Some(v) => ParseAmount(v))
  {
    var cliente := MatchLabel(text, ClienteLabel);
    var telefone := MatchLabel(text, TelefoneLabel);
    var data := MatchLabel(text, DataLabel);
    var servico := MatchLabel(text, ServicoLabel);
    var valor := FirstValor(text, 0);
    if cliente.Some? && servico.Some? then
      Some(Extracted(
        Trim(cliente.value),
        if telefone.Some? then Trim(telefone.value) else "",
        if data.Some? then Trim(data.value) else today,
        Trim(servico.value),
        if valor.Some? then ParseAmount(valor.value) else Finite(0.0)))
    else None
  }

  /** Without a "Cliente:" label or without a "Serviço:" label anywhere there is no
      candidate, whatever phone, date or value lines the text has. */
  lemma NoCandidateWithoutClientAndService(text: string, today: string)
    requires (forall j: nat :: !LabelAt(text, j, ClienteLabel)) || (forall j: nat :: !LabelAt(text, j, ServicoLabel))
    ensures ParseAppointmentFromText(text, today).None?
  {
    if forall j: nat :: !LabelAt(text, j, ClienteLabel) {
      assert FirstLabel(text, ClienteLabel, 0).None?;
    } else {
      assert FirstLabel(text, ServicoLabel, 0).None?;
    }
  }

  /** A field read from a labelled line is trimmed and lies on one line. */
  lemma {:induction false} CapturedFieldIsOneTrimmedLine(text: string, lbl: string)
    requires MatchLabel(text, lbl).Some?
    ensures var f := Trim(MatchLabel(text, lbl).value);
            IsTrimmed(f) && forall k | 0 <= k < |f| :: !IsLineTerminator(f[k])
  {
    var raw := MatchLabel(text, lbl).value;
    var f := Trim(raw);
    forall k | 0 <= k < |f| ensures !IsLineTerminator(f[k]) {
      assert f[k] in f;
      var m :| 0 <= m < |raw| && raw[m] == f[k];
    }
  }

  /** The client is read from the first "Cliente:" label: the trimmed rest of that
      line, or of the next non-blank line when the label ends its line. */
  lemma FirstClientLabelWins(text: string, today: string, i: nat)
    requires LabelAt(text, i, ClienteLabel)
    requires forall j | 0 <= j < i :: !LabelAt(text, j, ClienteLabel)
    requires MatchLabel(text, ServicoLabel).Some?
    ensures i + |ClienteLabel| <= |text|
    ensures ParseAppointmentFromText(text, today).Some?
    ensures ParseAppointmentFromText(text, today).value.clientName == Trim(Capture(text, i + |ClienteLabel|))
  {
    var r := FirstLabel(text, ClienteLabel, 0);
    assert r.Some?;
    assert r.value == i;
  }

  /** Optional lines that are missing give the defaults. */
  lemma MissingOptionalFields(text: string, today: string)
    requires ParseAppointmentFromText(text, today).Some?
    ensures (forall j: nat :: !LabelAt(text, j, TelefoneLabel)) ==> ParseAppointmentFromText(text, today).value.phone == ""
    ensures (forall j: nat :: !LabelAt(text, j, DataLabel)) ==> ParseAppointmentFromText(text, today).value.date == today
    ensures (forall j: nat :: ValorAt(text, j).None?) ==> ParseAppointmentFromText(text, today).value.value == Finite(0.0)
  {
    if forall j: nat :: !LabelAt(text, j, TelefoneLabel) {
      assert FirstLabel(text, TelefoneLabel, 0).None?;
    }
    if forall j: nat :: !LabelAt(text, j, DataLabel) {
      assert FirstLabel(text, DataLabel, 0).None?;
    }
    if forall j: nat :: ValorAt(text, j).None? {
      FirstValorNone(text, 0);
    }
  }

  // ---------------------------------------------------------------------------
  // Round trip: a confirmation in the expected layout reads back its fields
  // ---------------------------------------------------------------------------

  const ClientLine := "Cliente: "
  const ServiceLine := "\nServiço: "
  const ValueLine := "\nValor: R$ "
  const ZeroCents := ",00"

  /** A confirmation laid out as the extractor expects: client, service and value on
      lines of their own, the value in reais with a decimal comma and zero cents. */
  function Confirmation(name: string, service: string, amount: nat): string {
    ClientLine + name + ServiceLine + service + ValueLine + NatToString(amount) + ZeroCents
  }

  /** A field that can stand on a line of its own: non-empty, trimmed, on one line,
      and without any label the extractor looks for after the client's. */
  predicate PlainField(s: string) {
    && s != [] && IsTrimmed(s) && OneLine(s)
    && LabelFree(s, ServicoLabel) && LabelFree(s, TelefoneLabel)
    && LabelFree(s, DataLabel) && LabelFree(s, ValorLabel)
  }

  /** `t` is laid out as a confirmation: the client line, `name`, the service line,
      `service`, the value line and then `tail`, the amount. */
  predicate Layout(t: string, name: string, service: string, tail: string) {
    var b := 9 + |name|;
    var d := b + 10 + |service|;
    && |t| == d + 11 + |tail|
    && t[..9] == ClientLine && t[9..b] == name
    && t[b..b + 10] == ServiceLine && t[b + 10..d] == service
    && t[d..d + 11] == ValueLine && t[d + 11..] == tail
  }

  /** Where each piece of a confirmation sits. */
  lemma ConfirmationLayout(name: string, service: string, amount: nat)
    ensures |ClientLine| == 9 && |ServiceLine| == 10 && |ValueLine| == 11
    ensures Layout(Confirmation(name, service, amount), name, service, NatToString(amount) + ZeroCents)
  {
    var t := Confirmation(name, service, amount);
    assert t == ClientLine + name + ServiceLine + service + ValueLine + (NatToString(amount) + ZeroCents);
  }

  /** `.*` stops at the first line terminator. */
  lemma {:induction false} RestOfLineStop(a: string, b: string)
    requires OneLine(a)
    requires b == [] || IsLineTerminator(b[0])
    ensures RestOfLine(a + b) == a
  {
    if a == [] {
      assert a + b == b;
    } else {
      assert (a + b)[1..] == a[1..] + b;
      RestOfLineStop(a[1..], b);
    }
  }

  /** `\s*` after a label takes a single space when a visible character follows it. */
  lemma SkipOneSpace(text: string, j: nat)
    requires j + 1 < |text| && text[j] == ' ' && !IsSpace(text[j + 1])
    ensures SkipSpaces(text, j) == j + 1
  {
    assert IsSpace(text[j]);
  }

  /** The capture after a label ending at `j`, when a single space and then a field
      on a line of its own follow, is that field. */
  lemma CaptureField(text: string, j: nat, field: string)
    requires j < |text| && text[j] == ' '
    requires field != [] && IsTrimmed(field) && OneLine(field)
    requires j + 1 + |field| <= |text| && text[j + 1..j + 1 + |field|] == field
    requires j + 1 + |field| == |text| || IsLineTerminator(text[j + 1 + |field|])
    ensures Capture(text, j) == field
  {
    assert text[j + 1] == field[0];
    SkipOneSpace(text, j);
    var rest := text[j + 1 + |field|..];
    assert text[j + 1..] == field + rest;
    RestOfLineStop(field, rest);
  }

  /** No character of `seg` lowers to `c`. */
  predicate Avoids(seg: string, c: char) {
    forall i | 0 <= i < |seg| :: LowerChar(seg[i]) != c
  }

  // The fixed parts of a confirmation hold no first character of a later label,
  // apart from the "t" of "Cliente" and the "v" of "Serviço".

  lemma FixedPartsAvoidS()
    ensures Avoids(ClientLine, 's')
  {
  }

  lemma FixedPartsAvoidT()
    ensures Avoids(ClientLine[..5], 't') && Avoids(ClientLine[6..], 't')
    ensures Avoids(ServiceLine, 't') && Avoids(ValueLine, 't')
  {
  }

  lemma FixedPartsAvoidD()
    ensures Avoids(ClientLine, 'd') && Avoids(ServiceLine, 'd') && Avoids(ValueLine, 'd')
  {
  }

  lemma FixedPartsAvoidV()
    ensures Avoids(ClientLine, 'v') && Avoids(ServiceLine[..4], 'v') && Avoids(ServiceLine[5..], 'v')
  {
  }

  /** Digits and commas lower to themselves, so they start no label. */
  lemma AmountAvoids(s: string, c: char)
    requires forall i | 0 <= i < |s| :: IsAmountChar(s[i])
    requires !IsAmountChar(c)
    ensures Avoids(s, c)
  {
  }

  /** No label starts inside a stretch of text none of whose characters lowers to the
      label's first character. */
  lemma NoLabelInFixed(text: string, lo: nat, seg: string, lbl: string)
    requires lbl != [] && lo + |seg| <= |text| && text[lo..lo + |seg|] == seg
    requires Avoids(seg, lbl[0])
    ensures forall j | lo <= j < lo + |seg| :: !LabelAt(text, j, lbl)
  {
    forall j | lo <= j < lo + |seg|
      ensures !LabelAt(text, j, lbl)
    {
      assert text[j + 0] == seg[j - lo];
    }
  }

  /** No label starts in the tail of a text none of whose characters lowers to the
      label's first character. */
  lemma NoLabelInTail(text: string, lo: nat, lbl: string)
    requires lbl != [] && lo <= |text|
    requires Avoids(text[lo..], lbl[0])
    ensures forall j | lo <= j :: !LabelAt(text, j, lbl)
  {
    forall j | lo <= j
      ensures !LabelAt(text, j, lbl)
    {
      if j < |text| {
        assert text[j + 0] == text[lo..][j - lo];
      }
    }
  }

  /** No label starts on a line whose text is free of it, nor at the line terminator
      that ends it: a label has no line terminator, so it cannot run past one. */
  lemma NoLabelInLine(text: string, lbl: string, lo: nat, seg: string)
    requires lbl != [] && OneLine(lbl)
    requires lo + |seg| < |text| && IsLineTerminator(text[lo + |seg|])
    requires text[lo..lo + |seg|] == seg
    requires LabelFree(seg, lbl)
    ensures forall j | lo <= j <= lo + |seg| :: !LabelAt(text, j, lbl)
  {
    var p := lo + |seg|;
    forall j | lo <= j <= p
      ensures !LabelAt(text, j, lbl)
    {
      if j + |lbl| > p {
        if j + |lbl| <= |text| {
          assert LowerChar(text[j + (p - j)]) != lbl[p - j];
        }
      } else {
        assert !LabelAt(seg, j - lo, lbl);
        var k :| 0 <= k < |lbl| && LowerChar(seg[j - lo + k]) != lbl[k];
        assert text[j + k] == seg[j - lo + k];
      }
    }
  }

  /** The leftmost occurrence of a label is the one `FirstLabel` finds. */
  lemma FirstLabelAt(text: string, lbl: string, j: nat)
    requires LabelAt(text, j, lbl)
    requires forall i | 0 <= i < j :: !LabelAt(text, i, lbl)
    ensures FirstLabel(text, lbl, 0) == Some(j)
  {
    assert FirstLabel(text, lbl, 0).Some?;
  }

  /** Where the value pattern matches nowhere, there is no value. */
  lemma {:induction false} FirstValorNone(text: string, from: nat)
    requires forall j | from <= j :: ValorAt(text, j).None?
    ensures FirstValor(text, from).None?
    decreases |text| - from
  {
    if from <= |text| {
      assert ValorAt(text, from).None?;
      FirstValorNone(text, from + 1);
    }
  }

  /** The value search from `from` gives the value at `j` when the pattern fails at
      every position in between: the leftmost match is unique. */
  lemma FirstValorAt(text: string, from: nat, j: nat)
    requires from <= j && ValorAt(text, j).Some? && NoValorBetween(text, from, j)
    ensures FirstValor(text, from) == ValorAt(text, j)
  {
    var r := FirstValor(text, from);
    assert r.Some?;
    var j1 :| from <= j1 && ValorAt(text, j1) == r && NoValorBetween(text, from, j1);
    assert j1 == j;
  }

  /** Positions without a "Valor:" label are positions where the pattern fails. */
  lemma UnlabelledNoValor(text: string, from: nat, j: nat)
    requires forall i | from <= i < j :: !LabelAt(text, i, ValorLabel)
    ensures NoValorBetween(text, from, j)
  {
  }

  /** `[\d,.]+` takes all of a text made of amount characters. */
  lemma {:induction false} AmountRunAll(s: string)
    requires forall k | 0 <= k < |s| :: IsAmountChar(s[k])
    ensures AmountRun(s) == s
  {
    if s != [] {
      AmountRunAll(s[1..]);
    }
  }

  lemma LabelsAreOneLine()
    ensures OneLine(ServicoLabel) && OneLine(TelefoneLabel) && OneLine(DataLabel) && OneLine(ValorLabel)
  {
  }

  /** The amount text of a confirmation. */
  lemma AmountChars(amount: nat)
    ensures forall i | 0 <= i < |NatToString(amount) + ZeroCents| :: IsAmountChar((NatToString(amount) + ZeroCents)[i])
  {
    var s := NatToString(amount) + ZeroCents;
    forall i | 0 <= i < |s| ensures IsAmountChar(s[i]) {
      if i < |NatToString(amount)| {
        assert IsDigit(NatToString(amount)[i]);
      }
    }
  }

  lemma ClientFound(t: string, name: string, service: string, tail: string)
    requires Layout(t, name, service, tail) && PlainField(name)
    ensures MatchLabel(t, ClienteLabel) == Some(name)
  {
    assert LabelAt(t, 0, ClienteLabel) by {
      forall k | 0 <= k < |ClienteLabel|
        ensures LowerChar(t[0 + k]) == ClienteLabel[k]
      {
        assert t[k] == ClientLine[k];
      }
    }
    assert FirstLabel(t, ClienteLabel, 0) == Some(0);
    assert t[8] == ClientLine[8];
    assert t[9 + |name|] == ServiceLine[0];
    CaptureField(t, 8, name);
  }

  lemma ServiceLabelFirst(t: string, name: string, service: string, tail: string)
    requires Layout(t, name, service, tail) && PlainField(name)
    ensures var b := 9 + |name|;
            && LabelAt(t, b + 1, ServicoLabel)
            && forall j | 0 <= j <= b :: !LabelAt(t, j, ServicoLabel)
  {
    LabelsAreOneLine();
    FixedPartsAvoidS();
    var b := 9 + |name|;
    NoLabelInFixed(t, 0, ClientLine, ServicoLabel);
    assert t[b] == ServiceLine[0];
    NoLabelInLine(t, ServicoLabel, 9, name);
    assert LabelAt(t, b + 1, ServicoLabel) by {
      forall k | 0 <= k < |ServicoLabel|
        ensures LowerChar(t[b + 1 + k]) == ServicoLabel[k]
      {
        assert t[b + 1 + k] == ServiceLine[1 + k];
      }
    }
  }

  lemma ServiceFound(t: string, name: string, service: string, tail: string)
    requires Layout(t, name, service, tail) && PlainField(name) && PlainField(service)
    ensures MatchLabel(t, ServicoLabel) == Some(service)
  {
    var b := 9 + |name|;
    ServiceLabelFirst(t, name, service, tail);
    FirstLabelAt(t, ServicoLabel, b + 1);
    ServiceLineEnd(t, name, service, tail);
    MatchField(t, ServicoLabel, b + 1, service);
  }

  lemma ServiceLineEnd(t: string, name: string, service: string, tail: string)
    requires Layout(t, name, service, tail)
    ensures var j := 9 + |name| + 1 + |ServicoLabel|;
            && j + 1 + |service| < |t|
            && t[j] == ' '
            && t[j + 1..j + 1 + |service|] == service
            && IsLineTerminator(t[j + 1 + |service|])
  {
    var b := 9 + |name|;
    assert t[b + 9] == ServiceLine[9];
    assert t[b + 10 + |service|] == ValueLine[0];
  }

  /** The field after the first occurrence of a label, when one space and then the
      field on a line of its own follow the label. */
  lemma MatchField(text: string, lbl: string, i: nat, field: string)
    requires FirstLabel(text, lbl, 0) == Some(i)
    requires field != [] && IsTrimmed(field) && OneLine(field)
    requires var j := i + |lbl|;
             && j + 1 + |field| <= |text| && text[j] == ' '
             && text[j + 1..j + 1 + |field|] == field
             && (j + 1 + |field| == |text| || IsLineTerminator(text[j + 1 + |field|]))
    ensures MatchLabel(text, lbl) == Some(field)
  {
    CaptureField(text, i + |lbl|, field);
    MatchLabelAt(text, lbl, i);
  }

  /** The capture is taken where the first occurrence of the label ends. */
  lemma MatchLabelAt(text: string, lbl: string, i: nat)
    requires FirstLabel(text, lbl, 0) == Some(i)
    ensures i + |lbl| <= |text|
    ensures MatchLabel(text, lbl) == Some(Capture(text, i + |lbl|))
  {
  }

  lemma PhoneAbsent(t: string, name: string, service: string, tail: string)
    requires Layout(t, name, service, tail) && PlainField(name) && PlainField(service)
    requires forall i | 0 <= i < |tail| :: IsAmountChar(tail[i])
    ensures MatchLabel(t, TelefoneLabel) == None
  {
    LabelsAreOneLine();
    FixedPartsAvoidT();
    var b := 9 + |name|;
    var d := b + 10 + |service|;
    NoLabelInFixed(t, 0, ClientLine[..5], TelefoneLabel);
    assert LowerChar(t[5 + 2]) != TelefoneLabel[2];
    NoLabelInFixed(t, 6, ClientLine[6..], TelefoneLabel);
    assert t[b] == ServiceLine[0];
    NoLabelInLine(t, TelefoneLabel, 9, name);
    NoLabelInFixed(t, b, ServiceLine, TelefoneLabel);
    assert t[d] == ValueLine[0];
    NoLabelInLine(t, TelefoneLabel, b + 10, service);
    NoLabelInFixed(t, d, ValueLine, TelefoneLabel);
    AmountAvoids(tail, 't');
    NoLabelInTail(t, d + 11, TelefoneLabel);
    LabelAbsent(t, TelefoneLabel);
  }

  lemma DateAbsent(t: string, name: string, service: string, tail: string)
    requires Layout(t, name, service, tail) && PlainField(name) && PlainField(service)
    requires forall i | 0 <= i < |tail| :: IsAmountChar(tail[i])
    ensures MatchLabel(t, DataLabel) == None
  {
    LabelsAreOneLine();
    FixedPartsAvoidD();
    var b := 9 + |name|;
    var d := b + 10 + |service|;
    NoLabelInFixed(t, 0, ClientLine, DataLabel);
    assert t[b] == ServiceLine[0];
    NoLabelInLine(t, DataLabel, 9, name);
    NoLabelInFixed(t, b, ServiceLine, DataLabel);
    assert t[d] == ValueLine[0];
    NoLabelInLine(t, DataLabel, b + 10, service);
    NoLabelInFixed(t, d, ValueLine, DataLabel);
    AmountAvoids(tail, 'd');
    NoLabelInTail(t, d + 11, DataLabel);
    LabelAbsent(t, DataLabel);
  }

  lemma ValueLabelFirst(t: string, name: string, service: string, tail: string)
    requires Layout(t, name, service, tail) && PlainField(name) && PlainField(service)
    ensures var d := 9 + |name| + 10 + |service|;
            && LabelAt(t, d + 1, ValorLabel)
            && forall j | 0 <= j <= d :: !LabelAt(t, j, ValorLabel)
  {
    LabelsAreOneLine();
    FixedPartsAvoidV();
    var b := 9 + |name|;
    var d := b + 10 + |service|;
    NoLabelInFixed(t, 0, ClientLine, ValorLabel);
    assert t[b] == ServiceLine[0];
    NoLabelInLine(t, ValorLabel, 9, name);
    NoLabelInFixed(t, b, ServiceLine[..4], ValorLabel);
    assert LowerChar(t[b + 4 + 1]) != ValorLabel[1];
    NoLabelInFixed(t, b + 5, ServiceLine[5..], ValorLabel);
    assert t[d] == ValueLine[0];
    NoLabelInLine(t, ValorLabel, b + 10, service);
    assert LabelAt(t, d + 1, ValorLabel) by {
      forall k | 0 <= k < |ValorLabel|
        ensures LowerChar(t[d + 1 + k]) == ValorLabel[k]
      {
        assert t[d + 1 + k] == ValueLine[1 + k];
      }
    }
  }

  lemma ValueFound(t: string, name: string, service: string, tail: string)
    requires Layout(t, name, service, tail) && PlainField(name) && PlainField(service)
    requires tail != [] && forall i | 0 <= i < |tail| :: IsAmountChar(tail[i])
    ensures FirstValor(t, 0) == Some(tail)
  {
    ValueLabelFirst(t, name, service, tail);
    ValueLineEnd(t, name, service, tail);
    ValueAfterFirstLabel(t, 9 + |name| + 10 + |service|, tail);
  }

  /** A text whose first "Valor:" label is followed by " R$ " and an amount running
      to its end gives that amount. */
  lemma ValueAfterFirstLabel(t: string, d: nat, amountText: string)
    requires LabelAt(t, d + 1, ValorLabel) && forall j | 0 <= j <= d :: !LabelAt(t, j, ValorLabel)
    requires d + 11 <= |t|
    requires t[d + 7] == ' ' && t[d + 8] == 'R' && t[d + 9] == '$' && t[d + 10] == ' '
    requires t[d + 11..] == amountText && amountText != []
    requires forall k | 0 <= k < |amountText| :: IsAmountChar(amountText[k])
    ensures FirstValor(t, 0) == Some(amountText)
  {
    ValorMatch(t, d + 1, amountText);
    UnlabelledNoValor(t, 0, d + 1);
    FirstValorAt(t, 0, d + 1);
  }

  lemma ValueLineEnd(t: string, name: string, service: string, tail: string)
    requires Layout(t, name, service, tail)
    ensures var i := 9 + |name| + 10 + |service| + 1;
            && i + 10 <= |t|
            && t[i + 6] == ' ' && t[i + 7] == 'R' && t[i + 8] == '$' && t[i + 9] == ' '
            && t[i + 10..] == tail
  {
    var d := 9 + |name| + 10 + |service|;
    assert t[d + 7] == ValueLine[7] && t[d + 8] == ValueLine[8];
    assert t[d + 9] == ValueLine[9] && t[d + 10] == ValueLine[10];
  }

  /** The value pattern at a label followed by " R$ " and an amount that runs to the
      end of the text captures the amount. */
  lemma ValorMatch(text: string, i: nat, amountText: string)
    requires LabelAt(text, i, ValorLabel)
    requires i + 10 <= |text|
    requires text[i + 6] == ' ' && text[i + 7] == 'R' && text[i + 8] == '$' && text[i + 9] == ' '
    requires text[i + 10..] == amountText && amountText != []
    requires forall k | 0 <= k < |amountText| :: IsAmountChar(amountText[k])
    ensures ValorAt(text, i) == Some(amountText)
  {
    assert text[i + 10] == amountText[0];
    SkipOneSpace(text, i + 6);
    SkipOneSpace(text, i + 9);
    AmountRunAll(amountText);
  }

  /** Extraction reads back the client, service and value a confirmation was built
      from; with no phone or date line the phone is empty and the date is today. */
  lemma ConfirmationRoundTrip(name: string, service: string, amount: nat, today: string)
    requires PlainField(name) && PlainField(service)
    ensures ParseAppointmentFromText(Confirmation(name, service, amount), today)
            == Some(Extracted(name, "", today, service, Finite(amount as real)))
  {
    var t := Confirmation(name, service, amount);
    var tail := NatToString(amount) + ZeroCents;
    ConfirmationLayout(name, service, amount);
    AmountChars(amount);
    ClientFound(t, name, service, tail);
    ServiceFound(t, name, service, tail);
    PhoneAbsent(t, name, service, tail);
    DateAbsent(t, name, service, tail);
    ValueFound(t, name, service, tail);
    ConfirmationAmount(amount);
    ParseFromParts(t, today, name, service, tail, Finite(amount as real));
  }

  lemma LabelAbsent(text: string, lbl: string)
    requires forall j: nat :: !LabelAt(text, j, lbl)
    ensures MatchLabel(text, lbl) == None
  {
    assert FirstLabel(text, lbl, 0).None?;
  }

  /** The extracted record in terms of what the five patterns find, for a text with
      no phone and no date line. */
  lemma ParseFromParts(text: string, today: string, client: string, service: string,
                       amountText: string, value: Number)
    requires IsTrimmed(client) && IsTrimmed(service)
    requires MatchLabel(text, ClienteLabel) == Some(client)
    requires MatchLabel(text, ServicoLabel) == Some(service)
    requires MatchLabel(text, TelefoneLabel) == None
    requires MatchLabel(text, DataLabel) == None
    requires FirstValor(text, 0) == Some(amountText) && ParseAmount(amountText) == value
    ensures ParseAppointmentFromText(text, today) == Some(Extracted(client, "", today, service, value))
  {
    TrimTrimmed(client);
    TrimTrimmed(service);
  }

  /** The amount text of a confirmation reads as the amount. */
  lemma ConfirmationAmount(amount: nat)
    ensures ParseAmount(NatToString(amount) + ZeroCents) == Finite(amount as real)
  {
    AmountWithZeroCents(amount, "00");
    assert NatToString(amount) + "," + "00" == NatToString(amount) + ZeroCents;
  }

  const SampleText := "Cliente: Ana\nServiço: Corte\nValor: R$ 50,00"

  /** The reply "Cliente: Ana", "Serviço: Corte", "Valor: R$ 50,00" (one per line)
      gives Ana, Corte and 50, with no phone and today's date. */
  lemma SampleReply(today: string)
    ensures ParseAppointmentFromText(SampleText, today)
            == Some(Extracted("Ana", "", today, "Corte", Finite(50.0)))
  {
    SampleIsConfirmation();
    SampleFieldsArePlain();
    ConfirmationRoundTrip("Ana", "Corte", 50, today);
  }

  lemma SampleIsConfirmation()
    ensures Confirmation("Ana", "Corte", 50) == SampleText
  {
    assert NatToString(50) == "50" by {
      assert NatToString(5) == "5";
    }
    SampleLayout();
  }

  /** The sample reply is the three confirmation lines with the sample's fields. */
  lemma SampleLayout()
    ensures ClientLine + "Ana" + ServiceLine + "Corte" + ValueLine + "50" + ZeroCents == SampleText
  {
    assert ClientLine + "Ana" + ServiceLine == "Cliente: Ana\nServiço: ";
    assert "Cliente: Ana\nServiço: " + "Corte" + ValueLine == "Cliente: Ana\nServiço: Corte\nValor: R$ ";
  }

  lemma SampleFieldsArePlain()
    ensures PlainField("Ana") && PlainField("Corte")
  {
    assert LowerChar("Corte"[0]) != DataLabel[0];
    assert !LabelAt("Corte", 0, DataLabel);
  }
}
