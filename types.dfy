/** The records of the salon assistant (types.ts), as values. */
module Types {

  datatype Option<+T> = None | Some(value: T)

  /** A JavaScript number as the parsers produce it: a finite value or NaN. */
  datatype Number = Finite(v: real) | NaN

  /** A calendar date as stored in "YYYY-MM-DD" form; month and day are 1-based. */
  datatype Date = Date(year: int, month: int, day: int)

  datatype Category = Cabelo | Estetica | Unhas | Misto

  /** A client of the salon. `birthday` keeps its "YYYY-MM-DD" text, because the
      dashboard reads its month by splitting that text. */
  datatype Client = Client(
    id: string,
    name: string,
    phone: string,
    lastVisit: Date,
    birthday: string,
    memberSince: Date,
    servicesCount: int,
    totalSpent: real,
    category: Category)

  /** A recorded visit. `month` is the month name stored with it at creation time. */
  datatype Appointment = Appointment(
    id: string,
    clientId: string,
    clientName: string,
    phone: string,
    date: string,
    service: string,
    value: real,
    month: string,
    confirmed: bool)

  datatype Role = User | Assistant

  /** A chat turn; `timestamp` is the creation instant in milliseconds. */
  datatype Message = Message(id: string, role: Role, content: string, timestamp: int)

  /** The in-memory aggregate of one session. */
  datatype SalonState = SalonState(
    id: string,
    name: string,
    clients: seq<Client>,
    appointments: seq<Appointment>)

  /** The partial appointment the extractor returns and the chat holds until the
      user confirms it. */
  datatype Extracted = Extracted(
    clientName: string,
    phone: string,
    date: string,
    service: string,
    value: Number)
}
