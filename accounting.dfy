/** The money arithmetic that the edit page, the detail page and the meeting
    card each write out for themselves: three sums and a balance.  It is
    defined once here; each page's own version is proved equal to it in that
    page's module. */
module Accounting {
  import opened MeetingTypes

  /** The reference sum of `amount` over a list: empty lists sum to 0. */
  function Sum<T>(s: seq<T>, amount: T -> int): int
  {
    if s == [] then 0 else amount(s[0]) + Sum(s[1..], amount)
  }

  /** `s.reduce((sum, x) => sum + amount(x), acc)`: JavaScript's left fold,
      which adds the entries one by one in list order onto `acc`. */
  function Reduce<T>(s: seq<T>, acc: int, amount: T -> int): (r: int)
    ensures r == acc + Sum(s, amount)
  {
    if s == [] then acc else Reduce(s[1..], acc + amount(s[0]), amount)
  }

  function TotalFees(ps: seq<Participant>): int { Sum(ps, Fee) }
  function TotalExpenses(es: seq<Expense>): int { Sum(es, ExpenseAmount) }
  function TotalDonations(ds: seq<Donation>): int { Sum(ds, DonationAmount) }

  /** The one definition of the summary: balance = fees + donations - expenses. */
  function Summarize(ps: seq<Participant>, es: seq<Expense>, ds: seq<Donation>): Summary
  {
    var fees, expenses, donations := TotalFees(ps), TotalExpenses(es), TotalDonations(ds);
    Summary(fees, expenses, donations, fees + donations - expenses)
  }

  /** The summary of a stored meeting. */
  function MeetingSummary(m: Meeting): Summary
  {
    Summarize(m.participants, m.expenses, m.donations)
  }

  /** The computation the detail page and the meeting card both write out for
      a stored meeting: three `reduce` folds from 0, then the balance. */
  function FoldTotals(m: Meeting): (s: Summary)
    ensures s == MeetingSummary(m)
  {
    var totalFees := Reduce(m.participants, 0, Fee);
    var totalExpenses := Reduce(m.expenses, 0, ExpenseAmount);
    var totalDonations := Reduce(m.donations, 0, DonationAmount);
    Summary(totalFees, totalExpenses, totalDonations, totalFees + totalDonations - totalExpenses)
  }

  /** Sums split over concatenation. */
  lemma {:induction false} SumAppend<T>(a: seq<T>, b: seq<T>, amount: T -> int)
    ensures Sum(a + b, amount) == Sum(a, amount) + Sum(b, amount)
  {
    if a == [] {
      assert a + b == b;
    } else {
      assert (a + b)[1..] == a[1..] + b;
      SumAppend(a[1..], b, amount);
    }
  }

  /** Deleting the entry at `k` lowers the sum by exactly that entry's amount. */
  lemma SumDelete<T>(s: seq<T>, k: nat, amount: T -> int)
    requires k < |s|
    ensures Sum(s[..k] + s[k + 1..], amount) == Sum(s, amount) - amount(s[k])
  {
    var front, back := s[..k], s[k + 1..];
    calc {
      Sum(s, amount);
    == { SplitAround(s, k); }
      Sum(front + ([s[k]] + back), amount);
    == { SumAppend(front, [s[k]] + back, amount); }
      Sum(front, amount) + Sum([s[k]] + back, amount);
    == { assert ([s[k]] + back)[1..] == back; }
      Sum(front, amount) + amount(s[k]) + Sum(back, amount);
    == { SumAppend(front, back, amount); }
      Sum(front + back, amount) + amount(s[k]);
    }
  }

  /** A list is its part before `k`, entry `k` and its part after `k`. */
  lemma SplitAround<T>(s: seq<T>, k: nat)
    requires k < |s|
    ensures s == s[..k] + ([s[k]] + s[k + 1..])
  {
  }

  /** Replacing the entry at `k` by `x` shifts the sum by the difference. */
  lemma SumReplace<T>(s: seq<T>, k: nat, x: T, amount: T -> int)
    requires k < |s|
    ensures Sum(s[k := x], amount) == Sum(s, amount) - amount(s[k]) + amount(x)
  {
    SumDelete(s, k, amount);
    SumDelete(s[k := x], k, amount);
    assert s[k := x][..k] == s[..k];
    assert s[k := x][k + 1..] == s[k + 1..];
  }

  /** The balance has the source's sign convention and is not bounded below:
      with no participants and one expense of 1 it is -1. */
  lemma BalanceMayBeNegative()
    ensures Summarize([], [Expense("1", "", 1, Wrappers.None)], []).balance == -1
  {
    assert Sum([Expense("1", "", 1, Wrappers.None)], ExpenseAmount) == 1 + Sum([], ExpenseAmount);
  }
}
