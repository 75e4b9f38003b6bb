# Salon assistant: the retention rules, the reply extractor and the chat controller

The salon assistant is a single-page React application. It keeps a salon's clients and
appointments in memory. A chat assistant ("Clara") answers the owner's messages, and a
dashboard shows who should be contacted and when. This project models three parts of it
in Dafny and proves what they do.

* **The dashboard's derived lists** (`components/Dashboard.tsx`), in module `Dashboard`. These are pure functions of the salon, a clock and the selected filters:
  * the days since a visit and the membership label (`calculateStats`);
  * the reminder list, by first-match rules on the day count, sorted most overdue first (`automaticReminders`);
  * the four outreach segments with their messages (`categorizedClients`);
  * the twelve-month grid of appointments and birthdays (`monthsData`);
  * the report filters (`filteredClients`);
  * the history of a selected client (`clientAppointments`);
  * the four-entry connection log (`addLog`).
* **The deterministic part of the assistant service** (`services/gemini.ts`), in module `Gemini`:
  * the milestone list sent with every question (`dailyReminders`);
  * the extractor that reads an appointment candidate out of a reply (`parseAppointmentFromText`).

  The extractor's five regular expressions are modelled as leftmost-match searches: the `i` flag, `\s*`, `.*` and `[\d,.]+`. They are followed by JavaScript's `trim`, `replace(',', '.')` and `parseFloat`.
* **The chat controller** (`App.tsx`), in module `App`. Class `SalonApp` holds the state the component keeps: the salon, the connection flag, the active tab, the loading flag, the pending candidate and the message list. It has one method per handler:
  * `SendMessage` is `handleSendMessage`. Its dispatch tests run in the source's order: how-to question, connection shortcut, confirmation of a pending candidate, send request, and otherwise the remote assistant.
  * `UploadFile` is `handleFileUpload` once the file has been read. It imports every line after the header that has at least two comma-separated fields.

  The handler's effect is specified by the function `AfterMessage` on a `Screen` value. Lemmas state what each route does to that screen. The remote assistant is a parameter (a function from message, history and salon to a reply or a failure), and so are the clock and locale readings of an event (`Env`) and the random id generator (`freshId`).

JavaScript's string built-ins are modelled in module `Text`: `trim`, `toLowerCase`, `includes`, `split`, `join`, `String(n)` and `parseInt`. `Array.prototype.filter` and `slice(-n)` are in module `Lists`. The records of `types.ts` are in `Types`, and the demonstration data of `constants.ts` is in `Seed`.

Some behaviours of the program follow from the model and are proved as lemmas:

* The assistant's milestone list (30, 45 or 60 days since the last visit) holds exactly the clients that the dashboard's reminder list marks "alta".
* An amount written with a thousands dot, "R$ 1.234,56", is read as 1.234: only the first comma becomes a dot, and `parseFloat` stops at the second dot.
* While a candidate is pending, "pode enviar" confirms it instead of reaching the send branch, because it contains "pode".
* An appointment confirmed in the chat stores the lower-case month name that `Intl.DateTimeFormat('pt-BR', { month: 'long' })` writes. The month grid compares with capitalised names, so such an appointment is never counted in it.

## Model

| member | source | states |
|---|---|---|
| Lists.Filter | components/Dashboard.tsx:35 | The result keeps only elements of the input that pass the test, and every element that passes is kept; it is never longer than the input. |
| Lists.LastN | App.tsx:126 | `slice(-n)` gives the last n elements of the input, in order, or all of them when there are fewer. Since `-0` is 0, `slice(-0)` gives the whole input. |
| Text.Trim | App.tsx:33 | The trimmed text is a slice of the input with white space only before and after it, and none at its own ends. |
| Text.TrimEmptyIffBlank | App.tsx:33 | Trimming gives the empty string exactly when every character is white space (the blank-message test). |
| Text.TrimTrimmed | services/gemini.ts:62 | Trimming text that is already trimmed leaves it unchanged. |
| Text.ContainsInfix | App.tsx:49 | `includes` (`Contains`) holds for any text built around the substring. |
| Text.ToLower | App.tsx:46 | Lower-casing keeps the length and maps each character by the one-character rule. |
| Text.LowerChar | App.tsx:46 | ASCII capitals and the Latin-1 capitals À to Þ (except ×) move down by 32. Every other character is unchanged. |
| Text.Split | App.tsx:162 | A split gives at least one piece, and no piece holds the separator. |
| Text.JoinSplit | App.tsx:162 | Joining the pieces of a split with the separator gives the text back. |
| Text.SplitJoin | App.tsx:165 | Splitting a join of separator-free pieces gives the pieces back. |
| Text.NatToString | App.tsx:36 | `String(n)` is a non-empty run of digits without a leading zero. |
| Text.DigitsValueOfNatToString | App.tsx:36 | Reading the decimal numeral of `n` gives `n`. |
| Text.IntToString | components/Dashboard.tsx:60 | `String(i)` is non-empty and starts with '-' exactly when `i` is negative. |
| Text.ParseInt | components/Dashboard.tsx:39 | `parseInt` gives a number exactly when, after leading white space and an optional sign, a digit follows. |
| Text.ParseIntOfDigits | components/Dashboard.tsx:39 | A run of digits, leading zeros allowed, followed by a non-digit or nothing reads as its decimal value, so "01" reads as 1. |
| Text.ParseIntOfIntToString | components/Dashboard.tsx:39 | `parseInt(String(i)) == i` for every integer. |
| Dashboard.DaysBetween | components/Dashboard.tsx:56 | The day count is the distance in days rounded up: d days cover the distance and d - 1 days do not. |
| Dashboard.CalculateStats | components/Dashboard.tsx:51-66 | The day count is the rounded-up distance to the last visit. The label is "N meses" below twelve calendar months and "N ano(s)" with the calendar-year difference otherwise. The month count is `MembershipMonths` (month plus twelve times year, now minus enrolment); the year count is `MembershipYears` (the difference of the years). |
| Dashboard.MembershipYearsNearMonths | components/Dashboard.tsx:57-63 | When the label counts years, the year count is at least 1 and is the month count divided by 12, or one more. |
| Dashboard.TimeLabelUnit | components/Dashboard.tsx:60-63 | The label ends with ")" exactly when the membership is twelve calendar months or more. |
| Dashboard.ClassifyReminder | components/Dashboard.tsx:71-77 | A reminder exists exactly for multiples of 15 from 30. Priority is "alta" exactly at 30, 45 and 60, with their labels, and "media" exactly at the other multiples above 60 ("Recorrência Inativa"). Otherwise it stays "baixa" without a reminder. |
| Dashboard.Flagged | components/Dashboard.tsx:69-80 | The clients carried are those with a reminder, in client order, each with its own day count and reminder. |
| Dashboard.InsertByDays | components/Dashboard.tsx:80 | Inserting into a list sorted by descending day count keeps it sorted and adds exactly the new entry. |
| Dashboard.SortByDaysDesc | components/Dashboard.tsx:80 | The result is sorted most overdue first and is a permutation of the input. |
| Dashboard.SortStable | components/Dashboard.tsx:80 | Entries with the same day count keep their relative order, as the stable `Array.prototype.sort` does. |
| Dashboard.AutomaticRemindersSpec | components/Dashboard.tsx:68-81 | The reminder list is sorted, a stable permutation of the flagged clients, and contains only clients of the salon whose day count is a multiple of 15 from 30. |
| Dashboard.AutomaticReminders | components/Dashboard.tsx:68-81 | The reminder list is sorted most overdue first and has exactly the flagged entries, as a multiset. |
| Dashboard.Categorize | components/Dashboard.tsx:107-122 | The four segments, tested in order: prospect exactly when `IsProspect` holds, that is, no services or no spend; otherwise "posvenda" up to 7 days, "ativas" from 8 to 30, "inativas" beyond 30. |
| Dashboard.MessageNamesClient | components/Dashboard.tsx:110-122 | Every outreach message contains the client's name, and the prospect message also contains the salon's name. |
| Dashboard.CategorizedClients | components/Dashboard.tsx:104-126 | The list holds the clients of the selected segment, in client order, each with its day count and its segment's message. |
| Dashboard.SegmentsPartition | components/Dashboard.tsx:104-126 | A client appears in a segment's list exactly when that is its segment, so the four lists partition the clients. |
| Dashboard.SixtyDaysScenario | components/Dashboard.tsx:76 | A paying client 60 days away gets the "Crítico: 60 dias" reminder with priority "alta", falls in "inativas", and their message names them. |
| Dashboard.AllMonthsDistinct | components/Dashboard.tsx:26 | The grid has twelve pairwise distinct month names. |
| Dashboard.MonthNotBefore | components/Dashboard.tsx:26 | No month name occurs among the names before it. |
| Dashboard.Dedup | components/Dashboard.tsx:44 | `Array.from(new Set(s))` has no duplicates, the same members as `s`, and no more elements. |
| Dashboard.NamesOf | components/Dashboard.tsx:44 | The names are the appointments' client names, position by position. |
| Dashboard.MonthsData | components/Dashboard.tsx:33-49 | Twelve entries in calendar order. Each has the number of appointments stored with that month's name, their distinct client names, the clients born that month, and whether it is the current month. |
| Dashboard.MonthOf | components/Dashboard.tsx:34-47 | One month of the grid, with the same five facts for month `i`. |
| Dashboard.BirthdayInOneMonth | components/Dashboard.tsx:36-40 | A client whose birthday month reads as 1 to 12 is listed under month `i` exactly when that is their month. |
| Dashboard.BirthMonth | components/Dashboard.tsx:38-39 | The month of a birthday is read only when the text has a dash. |
| Dashboard.BirthMonthOfDate | components/Dashboard.tsx:38-39 | A "YYYY-MM-DD" birthday reads as the value of its MM field, zero-padded or not. |
| Dashboard.TotalOfPrefix | components/Dashboard.tsx:43 | The totals of the first k months add up to the appointments whose month is one of those k names. |
| Dashboard.MonthTotalsSum | components/Dashboard.tsx:43 | The grid's totals add up to the appointments whose month is one of the twelve names, which is all of them when every stored month is such a name. |
| Dashboard.FilteredClientsSublist | components/Dashboard.tsx:83-97 | The report is the order-preserving sublist of the clients that pass the status filter (unless "todos") and the month filter (unless "todos"). |
| Dashboard.FilteredClients | components/Dashboard.tsx:83-97 | The report holds only clients of the salon and is no longer than the list; with both filters on "todos" it is the whole list. |
| Dashboard.StatusFilters | components/Dashboard.tsx:85-91 | "todos" keeps all clients. Under `StatusTest`, "inativos" keeps exactly those more than 30 days away and "ativos" those 30 or fewer. |
| Dashboard.ClientAppointments | components/Dashboard.tsx:99-102 | There is no history without a selection. With one, the history holds exactly the appointments with the client's id or name. |
| Dashboard.AddLog | components/Dashboard.tsx:28-30 | The log keeps the last three earlier entries, in order, followed by the new "[time] msg" entry. |
| Gemini.ClientNames | services/gemini.ts:20 | The names are the clients' names, position by position. |
| Gemini.DailyReminders | services/gemini.ts:15-20 | The milestone list has at most one name per client. A name is on it exactly when the dashboard's reminder list carries a client of that name with priority "alta". |
| Gemini.MilestoneNamesAreAltaNames | services/gemini.ts:15-20 | The names of the clients at a milestone are exactly the names of the "alta" entries of the reminder list. |
| Gemini.DailyRemindersAreHighPriority | services/gemini.ts:16-20 | A client passes the milestone test `AtMilestone` (exactly 30, 45 or 60 days) exactly when the dashboard's reminder list carries them with priority "alta". |
| Gemini.MilestoneEntry | services/gemini.ts:19 | A client at 30, 45 or 60 days has a flagged entry of priority "alta". |
| Gemini.FirstLabel | services/gemini.ts:54 | The found position holds the label, case-insensitively, and no earlier position does. With no result, no position does. |
| Gemini.SkipSpaces | services/gemini.ts:54 | `\s*` takes white space and stops at the first other character. |
| Gemini.RestOfLine | services/gemini.ts:54 | `.*` takes the longest prefix without a line terminator. |
| Gemini.MatchLabel | services/gemini.ts:54-57 | `match` succeeds exactly when the label occurs somewhere, case-insensitively, and the group it gives is on one line. |
| Gemini.AmountRun | services/gemini.ts:58 | `[\d,.]*` takes the longest prefix of digits, commas and dots. |
| Gemini.ValorAt | services/gemini.ts:58 | The value pattern matches only where the "Valor:" label is, and then captures at least one character. |
| Gemini.ValorAtMatches | services/gemini.ts:58 | The value pattern matches at a position exactly when the label, white space, "R$" (R in either case), white space and at least one amount character follow in turn. It then captures the longest run of amount characters. |
| Gemini.FirstValor | services/gemini.ts:58 | The value found is the capture at some position where the pattern matches and fails at every earlier one. With no value, the pattern matches nowhere. |
| Gemini.FirstValorAt | services/gemini.ts:58 | A position where the pattern matches, with failures at every earlier one, gives the value found: the leftmost match is unique. |
| Gemini.ReplaceFirstComma | services/gemini.ts:66 | `replace(',', '.')` keeps the length and changes nothing without a comma. |
| Gemini.ParseDecimal | services/gemini.ts:66 | `parseFloat` gives NaN exactly when the text starts neither with a digit nor with a dot and a digit. Otherwise the value is non-negative; DecimalParts and WholeNumber give it. |
| Gemini.DecimalParts | services/gemini.ts:66 | "w.z" followed by a non-digit or nothing reads as the whole part plus the fraction. This covers ".5" (empty whole part) and "5." (empty fraction). |
| Gemini.WholeNumber | services/gemini.ts:66 | A digit run followed by neither a digit nor a dot reads as its value. |
| Gemini.ReplaceAfterDigits | services/gemini.ts:66 | The first comma after comma-free digits becomes the decimal dot. |
| Gemini.AmountWithZeroCents | services/gemini.ts:66 | "n,00" (any number of zeros) reads as n. |
| Gemini.ParseAmount | services/gemini.ts:66 | The amount is never negative, and an amount text that starts with a digit always reads as a number. |
| Gemini.ThousandsDotReadsAsFraction | services/gemini.ts:66 | "a.b,c" reads as a.b: the comma becomes a second dot, where `parseFloat` stops, so "1.234,56" reads as 1.234. |
| Gemini.ParseAppointmentFromText | services/gemini.ts:52-70 | There is a candidate exactly when both a "Cliente:" and a "Serviço:" label occur. Its name and service are the trimmed text from the first non-space character after the first label to the end of that line; `\s*` also passes line breaks, so "Cliente:\nAna" gives "Ana". Phone, date and value default to "", today and 0 when their patterns do not match. |
| Gemini.NoCandidateWithoutClientAndService | services/gemini.ts:60-69 | Without a "Cliente:" or without a "Serviço:" label the result is null. |
| Gemini.CapturedFieldIsOneTrimmedLine | services/gemini.ts:54-65 | An extracted field is trimmed and contains no line terminator. |
| Gemini.FirstClientLabelWins | services/gemini.ts:54 | The client name comes from the first "Cliente:" label in the text. |
| Gemini.MissingOptionalFields | services/gemini.ts:63-66 | No phone label gives "", no date label gives today, and no value match gives 0. |
| Gemini.ConfirmationRoundTrip | services/gemini.ts:52-70 | A confirmation laid out as "Cliente: name", "Serviço: service", "Valor: R$ n,00" on three lines reads back as exactly that name, service and amount, with no phone and today's date. |
| Gemini.ConfirmationAmount | services/gemini.ts:66 | The amount text "n,00" of a confirmation reads as n. |
| Gemini.ParseFromParts | services/gemini.ts:60-67 | When the five patterns find the given captures, the candidate is built from them. |
| Gemini.SampleReply | services/gemini.ts:52-70 | The three-line reply for Ana, Corte and R$ 50,00 gives Ana, Corte and 50. |
| App.Turns | App.tsx:126 | Each history entry holds the role and content of its message. |
| App.HistoryIsLastSix | App.tsx:126 | The assistant's history (`History`) is the role and content of the last six messages, in order, or of all of them when there are fewer. |
| App.RouteOf | App.tsx:49-106 | The routes are tried in order: how-to (`AsksHowTo`: "como" with "conectar", "fazer" or "sei"), connection (`AsksToConnect`: "conectar", "qr code" or "vincular"), confirmation (a pending candidate and `IsAffirmative`: "sim", "confirmo", "pode" or "ok"), send request (`AsksToSend`: "você envia", "pode enviar" or "envia você"), and otherwise the assistant. Each route is taken exactly when its test holds and every earlier one fails. |
| App.ReplyFor | App.tsx:50-149 | Every reply is an assistant message stamped with the event's time. The error text appears exactly on an assistant failure (or when the assistant itself said it). Only a failure gets an "err_" id. |
| App.NextPending | App.tsx:100-139 | A confirmation clears the candidate. Only an assistant reply that yields a candidate replaces it, and one that yields none keeps it. |
| App.OrElse | App.tsx:79-82 | The string fallback keeps a non-empty string and otherwise gives the fallback; the empty string is falsy. |
| App.AmountOrZero | App.tsx:83 | The numeric fallback gives the number, with NaN read as 0. |
| App.Materialize | App.tsx:76-86 | The recorded appointment is confirmed and stamped with the event's ids and month name. It keeps the candidate's non-empty fields and phone. An empty name, service or date becomes "Cliente Novo", "Serviço" or the ISO time of the event, and a NaN value becomes 0. |
| App.ConfirmationRecorded | App.tsx:73-91 | Confirming the candidate of a confirmation reply records exactly its name, service and amount, with today's date and no phone. |
| App.NonBlankLinesAreLines | App.tsx:162 | Every line `NonBlankLines` keeps is one line of the file and is not blank under `IsNonBlank`. |
| App.FieldsTrimmed | App.tsx:165 | The fields (`Fields`) are the comma-separated pieces, each trimmed and without a comma. |
| App.ParseClientRows | App.tsx:162-180 | The import loop produces exactly the clients the rows after the header describe. |
| App.ImportedClients | App.tsx:164-180 | The import gives at most one client per row. |
| App.ImportStep | App.tsx:165-179 | One more row adds exactly the client it describes, or nothing if it has fewer than two fields. |
| App.ImportedClientsShape | App.tsx:166-178 | At most one client per row. The k-th gets the k-th fresh id, the import date as last visit and enrolment, the placeholder birthday, no history and category Cabelo. |
| App.RowClientImported | App.tsx:168-177 | The client `NewClient` builds from a row of at least two fields gets the import defaults. |
| App.ImportCount | App.tsx:164-180 | The number imported is the number of rows with at least two fields. |
| App.CsvRows | App.tsx:165 | The data lines of an import file laid out as "name,phone" are one per client, in order. |
| App.RowFields | App.tsx:165 | A "name,phone" line splits back into the name and the phone. |
| App.ImportRows | App.tsx:164-180 | Importing "name,phone" rows gives one client per row with that name and phone. |
| App.ImportCsvFile | App.tsx:162-181 | Importing a file made of a header and one "name,phone" line per client gives those clients, in order. |
| App.MonthNamesCapitalized | components/Dashboard.tsx:26 | Every grid month name starts with a capital letter. |
| App.LowerMonthNotInGrid | App.tsx:84 | A lower-cased month name is none of the grid's names. |
| App.AppointmentOutsideGrid | components/Dashboard.tsx:35 | Adding an appointment whose month is not a grid name leaves the month grid unchanged. |
| App.ConfirmedAppointmentNotInGrid | App.tsx:84 | An appointment confirmed in the chat, stored with the lower-case month name, leaves the month grid unchanged. |
| App.ContainsLowered | App.tsx:46 | An occurrence in the typed text is an occurrence in its lower-cased form. |
| App.ContainsWithin | App.tsx:74-106 | `includes` is transitive: a text that contains "pode enviar" contains "pode". |
| App.SendRequestConfirmsPending | App.tsx:74-106 | "pode enviar" confirms a pending candidate, and reaches the send branch only when none is pending. |
| App.PendingAffectsOnlyAffirmative | App.tsx:73-104 | A pending candidate changes the route exactly for an affirmative message that is neither a how-to nor a connection request. |
| App.UpperCaseYesConfirms | App.tsx:46-74 | A typed "SIM" confirms a pending candidate. |
| App.BlankMessageIgnored | App.tsx:33 | A blank message changes nothing. |
| App.MessageAddsTwo | App.tsx:32-153 | Any other message appends exactly the user's message and one assistant reply, and keeps the earlier messages, the clients and the connection. It switches only to the dashboard tab, and adds an appointment only by confirming a pending candidate. |
| App.ConfirmationEffects | App.tsx:73-103 | A confirmation appends exactly the materialized candidate, clears it, keeps the tab, and answers with the registration text. |
| App.LocalReplyEffects | App.tsx:49-124 | The how-to, connection and send routes keep the salon and the candidate, and answer with their fixed texts. The send text depends on the connection, and only the connection route switches to the dashboard. |
| App.AssistantEffects | App.tsx:126-149 | Other messages get the assistant's reply, or the error message on failure. The candidate is replaced only when the reply yields one. |
| App.Respond | App.tsx:45-149 | The dispatch after the blank test, on the state the handler found, produces the screen `AfterMessage` specifies. |
| App.AfterMessage | App.tsx:32-153 | A message never changes the connection flag or the client list. |
| App.SalonApp.constructor | App.tsx:11-30 | The app opens with the seeded salon, disconnected, on the chat tab, not loading, with no candidate and the greeting. |
| App.SalonApp.SendMessage | App.tsx:32-153 | The state becomes `AfterMessage` of the state before the event, and loading ends for every non-blank message. |
| App.SalonApp.Commit | App.tsx:88-151 | The handler's final state updates install the new salon, messages, candidate and tab, and clear the loading flag. |
| App.SalonApp.UploadFile | App.tsx:158-185 | The imported clients are appended to the salon, followed by the file notice and the summary `ImportSummary` with their number. Nothing else changes, and loading ends. |
| App.Upload | App.tsx:159-182 | The same import, on the values the state updates receive. |
| App.ConfirmThroughChat | App.tsx:73-141 | A question answered with a confirmation, then "yes", records exactly the confirmed appointment, keeps the clients, clears the candidate and adds four messages. |

## Left out

- `toLowerCase` and the `i` flag are modelled for ASCII and the Latin-1 capitals only. Other scripts' case mappings are not modelled.
- `parseInt` without a radix also reads a "0x" prefix as hexadecimal. The model reads only decimal digits, and "0x" parses as 0.
- `parseFloat` is modelled for the texts the value pattern can capture (digits, commas and dots), as exact reals. Signs, exponents and double-precision rounding are not modelled.
- Dates are instants in milliseconds. Local midnight of a stored date, the local year and month, `toLocaleDateString`, `toISOString` and the pt-BR month name are read from the `Clock` and `Env` parameters, not computed.
- Each event reads the clock once. The source calls `Date.now()` and `new Date()` several times per event.
- The remote assistant call is a parameter, and so is what it returns (its reply or a failure). The prompt it sends is not modelled, and neither is the fallback text it substitutes for an empty reply.
- The import's `Math.random()` ids are the `freshId` parameter.
- Asynchronous interleaving is not modelled. Each handler runs as one atomic step, and the intermediate `isLoading` value is only set and cleared within it.
- The file reader and the import's error branch ("Erro ao ler arquivo.") are left out, because the modelled operations cannot throw.
- `Message.pendingAppointment` is left out, because the controller never sets it.
- `handleClientClick`, the connection simulation, the sidebar, the chat window and all rendering are left out. They only present data.
- App.ParseClientRows returns at once when no lines are given. The source's loop then does not run, so the result is the same.
- The canned reply texts are constants copied from the handler.
