/** The records of src/types/meeting.ts.  Ids are strings, amounts are
    mathematical integers (the source's `number` is only ever an integer
    amount of won here), and a meeting's date is an integer day key
    (yyyymmdd), which orders the same way as the ISO `YYYY-MM-DD` strings
    the source stores and as the time stamps `new Date(...)` parses them to. */
module MeetingTypes {
  import opened Wrappers

  type Id = string

  /** A calendar day as yyyymmdd, e.g. 20240315 for "2024-03-15". */
  type DayKey = int

  datatype Participant = Participant(id: Id, name: string, fee: int)

  datatype Expense = Expense(id: Id, description: string, amount: int, category: Option<string>)

  datatype Donation = Donation(id: Id, donorName: string, amount: int, note: Option<string>)

  /** `isThumbnail?: boolean`: None is the absent flag. */
  datatype Photo = Photo(id: Id, url: string, caption: Option<string>, isThumbnail: Option<bool>)

  /** `createdAt` is a time stamp in milliseconds. */
  datatype Comment = Comment(id: Id, authorName: string, content: string, createdAt: int)

  datatype Meeting = Meeting(
    id: Id,
    title: string,
    date: DayKey,
    location: string,
    participants: seq<Participant>,
    expenses: seq<Expense>,
    donations: seq<Donation>,
    photos: seq<Photo>,
    comments: seq<Comment>,
    createdAt: int,
    updatedAt: int)

  /** `MeetingSummary`: the four figures every page derives from a meeting. */
  datatype Summary = Summary(totalFees: int, totalExpenses: int, totalDonations: int, balance: int)

  /** Field projections, passed by name to the generic list operations. */
  function ParticipantId(p: Participant): Id { p.id }
  function ExpenseId(e: Expense): Id { e.id }
  function DonationId(d: Donation): Id { d.id }

  function Fee(p: Participant): int { p.fee }
  function ExpenseAmount(e: Expense): int { e.amount }
  function DonationAmount(d: Donation): int { d.amount }
}
