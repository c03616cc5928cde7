/** src/pages/MeetingEdit.tsx: the edit buffer of one meeting, its row-list
    handlers, its totals and the save gate.  The page keeps the buffer in a
    single state variable that every handler replaces, so the session is a
    class with that one field; the list edits themselves are pure functions
    over the rows, as the page builds them with spread, `map` and `filter`. */
module MeetingEdit {
  import opened Wrappers
  import opened MeetingTypes
  import opened Accounting
  import opened RowLists

  /** The buffer, `Partial<Meeting>` as the page fills it: the page sets every
      one of these fields from the start and never clears one, so the
      fallbacks for a missing list (`?.`, `|| []`, `|| 0`) never apply. The
      date is the form's `YYYY-MM-DD` text. */
  datatype Draft = Draft(
    title: string,
    date: string,
    location: string,
    participants: seq<Participant>,
    expenses: seq<Expense>,
    donations: seq<Donation>)

  /** What the form keeps true of the buffer: at least one participant row and
      one expense row, and ids that are unique within each list. */
  ghost predicate WellFormed(d: Draft)
  {
    && |d.participants| >= 1
    && |d.expenses| >= 1
    && DistinctIds(d.participants, ParticipantId)
    && DistinctIds(d.expenses, ExpenseId)
    && DistinctIds(d.donations, DonationId)
  }

  /** `!id || id === "new"`: the route names no existing meeting. */
  function IsNew(routeId: Option<string>): (r: bool)
    ensures r <==> routeId in {None, Some(""), Some("new")}
  {
    match routeId
    case None => true
    case Some(id) => id == "" || id == "new"
  }

  /** The initial buffer; `today` is the date part of `new Date().toISOString()`. */
  function InitialDraft(today: string): (d: Draft)
    ensures WellFormed(d)
    ensures |d.participants| == 1 && |d.expenses| == 1 && d.donations == []
    ensures d.title == "" && d.location == "" && d.date == today
    ensures Summarize(d.participants, d.expenses, d.donations) == Summary(0, 0, 0, 0)
  {
    Draft("", today, "", [Participant("1", "", 0)], [Expense("1", "", 0, None)], [])
  }

  /** The three text fields the form writes through `updateMeeting`. */
  datatype InfoField = SetTitle(title: string) | SetDate(date: string) | SetLocation(location: string)

  function UpdateInfo(d: Draft, f: InfoField): (r: Draft)
    ensures r.participants == d.participants && r.expenses == d.expenses && r.donations == d.donations
    ensures r.title == (if f.SetTitle? then f.title else d.title)
    ensures r.date == (if f.SetDate? then f.date else d.date)
    ensures r.location == (if f.SetLocation? then f.location else d.location)
  {
    match f
    case SetTitle(t) => d.(title := t)
    case SetDate(t) => d.(date := t)
    case SetLocation(t) => d.(location := t)
  }

  /** `parseInt(e.target.value) || 0`: `parsed` is what parseInt found, None
      for NaN; an input that does not parse is stored as 0. */
  function ParsedAmount(parsed: Option<int>): (r: int)
    ensures parsed == None ==> r == 0
    ensures parsed.Some? ==> r == parsed.value
  {
    match parsed
    case None => 0
    case Some(n) => if n != 0 then n else 0
  }

  // ---------------------------------------------------------------- fields

  /** The fields a participant row's inputs write (`keyof MeetingParticipant`). */
  datatype ParticipantField = SetName(name: string) | SetFee(fee: int)

  /** The fields an expense row writes; the form writes description and amount. */
  datatype ExpenseField = SetDescription(description: string) | SetExpenseAmount(amount: int) | SetCategory(category: string)

  /** The fields a donation row's inputs write. */
  datatype DonationField = SetDonorName(donorName: string) | SetDonationAmount(amount: int) | SetNote(note: string)

  /** `{ ...p, [field]: value }`: the row with one field replaced. */
  function WithParticipantField(p: Participant, f: ParticipantField): (r: Participant)
    ensures r.id == p.id
    ensures r.name == (if f.SetName? then f.name else p.name)
    ensures r.fee == (if f.SetFee? then f.fee else p.fee)
  {
    match f
    case SetName(n) => p.(name := n)
    case SetFee(v) => p.(fee := v)
  }

  function WithExpenseField(e: Expense, f: ExpenseField): (r: Expense)
    ensures r.id == e.id
    ensures r.description == (if f.SetDescription? then f.description else e.description)
    ensures r.amount == (if f.SetExpenseAmount? then f.amount else e.amount)
    ensures r.category == (if f.SetCategory? then Some(f.category) else e.category)
  {
    match f
    case SetDescription(t) => e.(description := t)
    case SetExpenseAmount(v) => e.(amount := v)
    case SetCategory(c) => e.(category := Some(c))
  }

  function WithDonationField(d: Donation, f: DonationField): (r: Donation)
    ensures r.id == d.id
    ensures r.donorName == (if f.SetDonorName? then f.donorName else d.donorName)
    ensures r.amount == (if f.SetDonationAmount? then f.amount else d.amount)
    ensures r.note == (if f.SetNote? then Some(f.note) else d.note)
  {
    match f
    case SetDonorName(t) => d.(donorName := t)
    case SetDonationAmount(v) => d.(amount := v)
    case SetNote(t) => d.(note := Some(t))
  }

  // ---------------------------------------------------------- participants

  /** `addParticipant`: one fresh, empty row at the end; totals do not move. */
  function AddParticipantRow(ps: seq<Participant>, freshId: Id): (r: seq<Participant>)
    ensures |r| == |ps| + 1 && r[..|ps|] == ps
    ensures r[|ps|] == Participant(freshId, "", 0)
    ensures TotalFees(r) == TotalFees(ps)
    ensures DistinctIds(ps, ParticipantId) && freshId !in Ids(ps, ParticipantId) ==> DistinctIds(r, ParticipantId)
  {
    var row := Participant(freshId, "", 0);
    SumAppend(ps, [row], Fee);
    assert Sum([row], Fee) == 0 + Sum([], Fee);
    assert DistinctIds(ps, ParticipantId) && freshId !in Ids(ps, ParticipantId) ==> DistinctIds(ps + [row], ParticipantId) by {
      if DistinctIds(ps, ParticipantId) && freshId !in Ids(ps, ParticipantId) {
        AppendKeepsDistinct(ps, ParticipantId, row);
      }
    }
    ps + [row]
  }

  /** `updateParticipant(id, field, value)`: same length, order and ids; rows
      with another id are untouched and matching rows change only `f`'s field. */
  function UpdateParticipants(ps: seq<Participant>, id: Id, f: ParticipantField): (r: seq<Participant>)
    ensures |r| == |ps| && Ids(r, ParticipantId) == Ids(ps, ParticipantId)
    ensures forall i :: 0 <= i < |ps| && ps[i].id != id ==> r[i] == ps[i]
    ensures forall i :: 0 <= i < |ps| && ps[i].id == id ==> r[i] == WithParticipantField(ps[i], f)
    ensures (forall i :: 0 <= i < |ps| ==> ps[i].id != id) ==> r == ps
  {
    UpdateKeepsIds(ps, ParticipantId, id, WithParticipantField, f);
    assert (forall i :: 0 <= i < |ps| ==> ps[i].id != id) ==> UpdateById(ps, ParticipantId, id, WithParticipantField, f) == ps by {
      if forall i :: 0 <= i < |ps| ==> ps[i].id != id {
        UpdateAbsentId(ps, ParticipantId, id, WithParticipantField, f);
      }
    }
    UpdateById(ps, ParticipantId, id, WithParticipantField, f)
  }

  /** `removeParticipant(id)`: exactly the rows with another id, in order. */
  function RemoveParticipants(ps: seq<Participant>, id: Id): (r: seq<Participant>)
    ensures IsSubsequence(r, ps)
    ensures forall x :: x in r <==> x in ps && x.id != id
    ensures (forall i :: 0 <= i < |ps| ==> ps[i].id != id) ==> r == ps
    ensures DistinctIds(ps, ParticipantId) ==> DistinctIds(r, ParticipantId)
  {
    RemoveIsSubsequence(ps, ParticipantId, id);
    RemoveMembers(ps, ParticipantId, id);
    assert (forall i :: 0 <= i < |ps| ==> ps[i].id != id) ==> RemoveById(ps, ParticipantId, id) == ps by {
      if forall i :: 0 <= i < |ps| ==> ps[i].id != id {
        RemoveAbsentId(ps, ParticipantId, id);
      }
    }
    assert DistinctIds(ps, ParticipantId) ==> DistinctIds(RemoveById(ps, ParticipantId, id), ParticipantId) by {
      if DistinctIds(ps, ParticipantId) {
        RemoveKeepsDistinct(ps, ParticipantId, id);
      }
    }
    RemoveById(ps, ParticipantId, id)
  }

  // -------------------------------------------------------------- expenses

  /** `addExpense`: one fresh, empty row at the end; totals do not move. */
  function AddExpenseRow(es: seq<Expense>, freshId: Id): (r: seq<Expense>)
    ensures |r| == |es| + 1 && r[..|es|] == es
    ensures r[|es|] == Expense(freshId, "", 0, None)
    ensures TotalExpenses(r) == TotalExpenses(es)
    ensures DistinctIds(es, ExpenseId) && freshId !in Ids(es, ExpenseId) ==> DistinctIds(r, ExpenseId)
  {
    var row := Expense(freshId, "", 0, None);
    SumAppend(es, [row], ExpenseAmount);
    assert Sum([row], ExpenseAmount) == 0 + Sum([], ExpenseAmount);
    assert DistinctIds(es, ExpenseId) && freshId !in Ids(es, ExpenseId) ==> DistinctIds(es + [row], ExpenseId) by {
      if DistinctIds(es, ExpenseId) && freshId !in Ids(es, ExpenseId) {
        AppendKeepsDistinct(es, ExpenseId, row);
      }
    }
    es + [row]
  }

  /** `updateExpense(id, field, value)`. */
  function UpdateExpenses(es: seq<Expense>, id: Id, f: ExpenseField): (r: seq<Expense>)
    ensures |r| == |es| && Ids(r, ExpenseId) == Ids(es, ExpenseId)
    ensures forall i :: 0 <= i < |es| && es[i].id != id ==> r[i] == es[i]
    ensures forall i :: 0 <= i < |es| && es[i].id == id ==> r[i] == WithExpenseField(es[i], f)
    ensures (forall i :: 0 <= i < |es| ==> es[i].id != id) ==> r == es
  {
    UpdateKeepsIds(es, ExpenseId, id, WithExpenseField, f);
    assert (forall i :: 0 <= i < |es| ==> es[i].id != id) ==> UpdateById(es, ExpenseId, id, WithExpenseField, f) == es by {
      if forall i :: 0 <= i < |es| ==> es[i].id != id {
        UpdateAbsentId(es, ExpenseId, id, WithExpenseField, f);
      }
    }
    UpdateById(es, ExpenseId, id, WithExpenseField, f)
  }

  /** `removeExpense(id)`. */
  function RemoveExpenses(es: seq<Expense>, id: Id): (r: seq<Expense>)
    ensures IsSubsequence(r, es)
    ensures forall x :: x in r <==> x in es && x.id != id
    ensures (forall i :: 0 <= i < |es| ==> es[i].id != id) ==> r == es
    ensures DistinctIds(es, ExpenseId) ==> DistinctIds(r, ExpenseId)
  {
    RemoveIsSubsequence(es, ExpenseId, id);
    RemoveMembers(es, ExpenseId, id);
    assert (forall i :: 0 <= i < |es| ==> es[i].id != id) ==> RemoveById(es, ExpenseId, id) == es by {
      if forall i :: 0 <= i < |es| ==> es[i].id != id {
        RemoveAbsentId(es, ExpenseId, id);
      }
    }
    assert DistinctIds(es, ExpenseId) ==> DistinctIds(RemoveById(es, ExpenseId, id), ExpenseId) by {
      if DistinctIds(es, ExpenseId) {
        RemoveKeepsDistinct(es, ExpenseId, id);
      }
    }
    RemoveById(es, ExpenseId, id)
  }

  // ------------------------------------------------------------- donations

  /** `addDonation`: one fresh, empty row at the end, with an empty note. */
  function AddDonationRow(ds: seq<Donation>, freshId: Id): (r: seq<Donation>)
    ensures |r| == |ds| + 1 && r[..|ds|] == ds
    ensures r[|ds|] == Donation(freshId, "", 0, Some(""))
    ensures TotalDonations(r) == TotalDonations(ds)
    ensures DistinctIds(ds, DonationId) && freshId !in Ids(ds, DonationId) ==> DistinctIds(r, DonationId)
  {
    var row := Donation(freshId, "", 0, Some(""));
    SumAppend(ds, [row], DonationAmount);
    assert Sum([row], DonationAmount) == 0 + Sum([], DonationAmount);
    assert DistinctIds(ds, DonationId) && freshId !in Ids(ds, DonationId) ==> DistinctIds(ds + [row], DonationId) by {
      if DistinctIds(ds, DonationId) && freshId !in Ids(ds, DonationId) {
        AppendKeepsDistinct(ds, DonationId, row);
      }
    }
    ds + [row]
  }

  /** `updateDonation(id, field, value)`. */
  function UpdateDonations(ds: seq<Donation>, id: Id, f: DonationField): (r: seq<Donation>)
    ensures |r| == |ds| && Ids(r, DonationId) == Ids(ds, DonationId)
    ensures forall i :: 0 <= i < |ds| && ds[i].id != id ==> r[i] == ds[i]
    ensures forall i :: 0 <= i < |ds| && ds[i].id == id ==> r[i] == WithDonationField(ds[i], f)
    ensures (forall i :: 0 <= i < |ds| ==> ds[i].id != id) ==> r == ds
  {
    UpdateKeepsIds(ds, DonationId, id, WithDonationField, f);
    assert (forall i :: 0 <= i < |ds| ==> ds[i].id != id) ==> UpdateById(ds, DonationId, id, WithDonationField, f) == ds by {
      if forall i :: 0 <= i < |ds| ==> ds[i].id != id {
        UpdateAbsentId(ds, DonationId, id, WithDonationField, f);
      }
    }
    UpdateById(ds, DonationId, id, WithDonationField, f)
  }

  /** `removeDonation(id)`. */
  function RemoveDonations(ds: seq<Donation>, id: Id): (r: seq<Donation>)
    ensures IsSubsequence(r, ds)
    ensures forall x :: x in r <==> x in ds && x.id != id
    ensures (forall i :: 0 <= i < |ds| ==> ds[i].id != id) ==> r == ds
    ensures DistinctIds(ds, DonationId) ==> DistinctIds(r, DonationId)
  {
    RemoveIsSubsequence(ds, DonationId, id);
    RemoveMembers(ds, DonationId, id);
    assert (forall i :: 0 <= i < |ds| ==> ds[i].id != id) ==> RemoveById(ds, DonationId, id) == ds by {
      if forall i :: 0 <= i < |ds| ==> ds[i].id != id {
        RemoveAbsentId(ds, DonationId, id);
      }
    }
    assert DistinctIds(ds, DonationId) ==> DistinctIds(RemoveById(ds, DonationId, id), DonationId) by {
      if DistinctIds(ds, DonationId) {
        RemoveKeepsDistinct(ds, DonationId, id);
      }
    }
    RemoveById(ds, DonationId, id)
  }

  // ---------------------------------------------------- edits and the totals

  /** With unique ids, removing row `k`'s id deletes exactly that row, the list
      shrinks by one and its total drops by that row's amount. */
  lemma RemoveRowAndTotal<T>(s: seq<T>, idOf: T -> Id, amount: T -> int, k: nat)
    requires DistinctIds(s, idOf) && k < |s|
    ensures RemoveById(s, idOf, idOf(s[k])) == s[..k] + s[k + 1..]
    ensures |RemoveById(s, idOf, idOf(s[k]))| == |s| - 1
    ensures Sum(RemoveById(s, idOf, idOf(s[k])), amount) == Sum(s, amount) - amount(s[k])
  {
    RemoveDistinctDeletesOne(s, idOf, k);
    SumDelete(s, k, amount);
  }

  /** With unique ids, updating row `k`'s id changes only row `k`, and the
      total moves by the change in that row's amount. */
  lemma UpdateRowAndTotal<T, F>(s: seq<T>, idOf: T -> Id, amount: T -> int, setField: (T, F) -> T, v: F, k: nat)
    requires DistinctIds(s, idOf) && k < |s|
    ensures UpdateById(s, idOf, idOf(s[k]), setField, v) == s[k := setField(s[k], v)]
    ensures Sum(UpdateById(s, idOf, idOf(s[k]), setField, v), amount)
            == Sum(s, amount) - amount(s[k]) + amount(setField(s[k], v))
  {
    UpdateDistinctChangesOne(s, idOf, setField, v, k);
    SumReplace(s, k, setField(s[k], v), amount);
  }

  /** The trash button of a participant or expense row is rendered only while
      the list has more than one row; under that guard, with unique ids, the
      list keeps at least one row and its ids stay unique. */
  lemma GuardedRemoveKeepsARow<T>(s: seq<T>, idOf: T -> Id, id: Id)
    requires DistinctIds(s, idOf) && |s| > 1
    ensures |RemoveById(s, idOf, id)| >= 1
    ensures DistinctIds(RemoveById(s, idOf, id), idOf)
  {
    RemoveKeepsDistinct(s, idOf, id);
    if k :| 0 <= k < |s| && idOf(s[k]) == id {
      RemoveDistinctDeletesOne(s, idOf, k);
    } else {
      RemoveAbsentId(s, idOf, id);
    }
  }

  /** An amount box whose input does not parse writes 0 into every row with
      the edited id, in each of the three lists. */
  lemma UnparsedAmountStoresZero(ps: seq<Participant>, es: seq<Expense>, ds: seq<Donation>, id: Id)
    ensures forall i :: 0 <= i < |ps| && ps[i].id == id ==> UpdateParticipants(ps, id, SetFee(ParsedAmount(None)))[i].fee == 0
    ensures forall i :: 0 <= i < |es| && es[i].id == id ==> UpdateExpenses(es, id, SetExpenseAmount(ParsedAmount(None)))[i].amount == 0
    ensures forall i :: 0 <= i < |ds| && ds[i].id == id ==> UpdateDonations(ds, id, SetDonationAmount(ParsedAmount(None)))[i].amount == 0
  {
  }

  /** Donations have no such guard: removing the only donation empties the list. */
  lemma DonationsMayBecomeEmpty(d: Donation)
    ensures RemoveDonations([d], d.id) == []
  {
    assert [d][1..] == [];
  }

  /** `calculateTotals`: each total is a left fold of its list from 0, as the
      page's `reduce` calls compute it; they agree with the one summary. */
  function CalculateTotals(d: Draft): (s: Summary)
    ensures s == Summarize(d.participants, d.expenses, d.donations)
  {
    var totalFees := Reduce(d.participants, 0, Fee);
    var totalExpenses := Reduce(d.expenses, 0, ExpenseAmount);
    var totalDonations := Reduce(d.donations, 0, DonationAmount);
    Summary(totalFees, totalExpenses, totalDonations, totalFees + totalDonations - totalExpenses)
  }

  // ------------------------------------------------------------------ saving

  /** The toast a save attempt shows: refused, created or updated. */
  datatype SaveOutcome = Refused | Created | Updated

  /** `handleSave`'s gate: title, date and location must all be non-empty
      (not trimmed: a title of spaces passes). */
  function SaveResult(isNew: bool, d: Draft): (o: SaveOutcome)
    ensures o == Refused <==> d.title == "" || d.date == "" || d.location == ""
    ensures o != Refused ==> (o == Created <==> isNew)
  {
    if d.title == "" || d.date == "" || d.location == "" then Refused
    else if isNew then Created
    else Updated
  }

  /** Saving with an empty title is refused whatever the date and place. */
  lemma EmptyTitleRefused(isNew: bool, d: Draft)
    requires d.title == "" && d.date != "" && d.location != ""
    ensures SaveResult(isNew, d) == Refused
  {
  }

  /** The edit page's state: the buffer and where the router was sent. */
  class EditSession {
    const isNew: bool
    var meeting: Draft
    var navigatedTo: Option<string>

    ghost predicate Valid()
      reads this
    {
      WellFormed(meeting)
    }

    constructor (routeId: Option<string>, today: string)
      ensures isNew == IsNew(routeId) && meeting == InitialDraft(today) && navigatedTo == None
      ensures Valid()
    {
      isNew := IsNew(routeId);
      meeting := InitialDraft(today);
      navigatedTo := None;
    }

    /** `updateMeeting("title" | "date" | "location", value)`. */
    method UpdateMeeting(f: InfoField)
      requires Valid()
      modifies this`meeting
      ensures meeting == UpdateInfo(old(meeting), f)
      ensures Valid()
    {
      meeting := UpdateInfo(meeting, f);
    }

    /** `addParticipant`; `freshId` stands for `Date.now().toString()`. */
    method AddParticipant(freshId: Id)
      requires Valid() && freshId !in Ids(meeting.participants, ParticipantId)
      modifies this`meeting
      ensures meeting == old(meeting).(participants := AddParticipantRow(old(meeting.participants), freshId))
      ensures Valid()
    {
      meeting := meeting.(participants := AddParticipantRow(meeting.participants, freshId));
    }

    method UpdateParticipant(id: Id, f: ParticipantField)
      requires Valid()
      modifies this`meeting
      ensures meeting == old(meeting).(participants := UpdateParticipants(old(meeting.participants), id, f))
      ensures Valid()
    {
      var updated := UpdateParticipants(meeting.participants, id, f);
      assert forall i, j :: 0 <= i < j < |updated| ==>
        Ids(updated, ParticipantId)[i] == updated[i].id && Ids(updated, ParticipantId)[j] == updated[j].id;
      assert forall i :: 0 <= i < |updated| ==> Ids(meeting.participants, ParticipantId)[i] == meeting.participants[i].id;
      meeting := meeting.(participants := updated);
    }

    /** `removeParticipant`, reachable only through a trash button, which is
        rendered only while there is more than one participant row. */
    method RemoveParticipant(id: Id)
      requires Valid() && |meeting.participants| > 1
      modifies this`meeting
      ensures meeting == old(meeting).(participants := RemoveParticipants(old(meeting.participants), id))
      ensures Valid()
    {
      GuardedRemoveKeepsARow(meeting.participants, ParticipantId, id);
      meeting := meeting.(participants := RemoveParticipants(meeting.participants, id));
    }

    method AddExpense(freshId: Id)
      requires Valid() && freshId !in Ids(meeting.expenses, ExpenseId)
      modifies this`meeting
      ensures meeting == old(meeting).(expenses := AddExpenseRow(old(meeting.expenses), freshId))
      ensures Valid()
    {
      meeting := meeting.(expenses := AddExpenseRow(meeting.expenses, freshId));
    }

    method UpdateExpense(id: Id, f: ExpenseField)
      requires Valid()
      modifies this`meeting
      ensures meeting == old(meeting).(expenses := UpdateExpenses(old(meeting.expenses), id, f))
      ensures Valid()
    {
      var updated := UpdateExpenses(meeting.expenses, id, f);
      assert forall i, j :: 0 <= i < j < |updated| ==>
        Ids(updated, ExpenseId)[i] == updated[i].id && Ids(updated, ExpenseId)[j] == updated[j].id;
      assert forall i :: 0 <= i < |updated| ==> Ids(meeting.expenses, ExpenseId)[i] == meeting.expenses[i].id;
      meeting := meeting.(expenses := updated);
    }

    /** `removeExpense`, under the same more-than-one-row guard. */
    method RemoveExpense(id: Id)
      requires Valid() && |meeting.expenses| > 1
      modifies this`meeting
      ensures meeting == old(meeting).(expenses := RemoveExpenses(old(meeting.expenses), id))
      ensures Valid()
    {
      GuardedRemoveKeepsARow(meeting.expenses, ExpenseId, id);
      meeting := meeting.(expenses := RemoveExpenses(meeting.expenses, id));
    }

    method AddDonation(freshId: Id)
      requires Valid() && freshId !in Ids(meeting.donations, DonationId)
      modifies this`meeting
      ensures meeting == old(meeting).(donations := AddDonationRow(old(meeting.donations), freshId))
      ensures Valid()
    {
      meeting := meeting.(donations := AddDonationRow(meeting.donations, freshId));
    }

    method UpdateDonation(id: Id, f: DonationField)
      requires Valid()
      modifies this`meeting
      ensures meeting == old(meeting).(donations := UpdateDonations(old(meeting.donations), id, f))
      ensures Valid()
    {
      var updated := UpdateDonations(meeting.donations, id, f);
      assert forall i, j :: 0 <= i < j < |updated| ==>
        Ids(updated, DonationId)[i] == updated[i].id && Ids(updated, DonationId)[j] == updated[j].id;
      assert forall i :: 0 <= i < |updated| ==> Ids(meeting.donations, DonationId)[i] == meeting.donations[i].id;
      meeting := meeting.(donations := updated);
    }

    /** `removeDonation`: its trash button is always rendered. */
    method RemoveDonation(id: Id)
      requires Valid()
      modifies this`meeting
      ensures meeting == old(meeting).(donations := RemoveDonations(old(meeting.donations), id))
      ensures Valid()
    {
      meeting := meeting.(donations := RemoveDonations(meeting.donations, id));
    }

    /** `handleSave`: never touches the buffer; navigates to "/" unless refused. */
    method HandleSave() returns (outcome: SaveOutcome)
      modifies this`navigatedTo
      ensures outcome == SaveResult(isNew, meeting)
      ensures navigatedTo == if outcome == Refused then old(navigatedTo) else Some("/")
    {
      if meeting.title == "" || meeting.date == "" || meeting.location == "" {
        return Refused;
      }
      outcome := if isNew then Created else Updated;
      navigatedTo := Some("/");
    }
  }
}
