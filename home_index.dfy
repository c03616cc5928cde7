/** src/pages/Index.tsx: the home list.  Its state is the meeting list, the
    sort order and the banner; the list is shown as a stably sorted copy. */
module HomeIndex {
  import opened Wrappers
  import opened MeetingTypes
  import opened Accounting
  import opened MeetingCard

  // ------------------------------------------------------------ sort order

  /** `'latest' | 'oldest'`. */
  datatype SortOrder = Latest | Oldest

  /** `toggleSortOrder`'s update: the other order. */
  function Toggle(o: SortOrder): (r: SortOrder)
    ensures r != o
  {
    if o == Latest then Oldest else Latest
  }

  /** Toggling twice restores the order. */
  lemma ToggleTwice(o: SortOrder)
    ensures Toggle(Toggle(o)) == o
  {
  }

  /** The comparator handed to `sort`: negative when `a` must come first.
      Dates are compared as day keys in place of `new Date(..).getTime()`. */
  function Compare(order: SortOrder, a: Meeting, b: Meeting): (r: int)
    ensures r < 0 <==> (if order == Latest then a.date > b.date else a.date < b.date)
    ensures r == 0 <==> a.date == b.date
  {
    if order == Latest then b.date - a.date else a.date - b.date
  }

  /** Ordered under the comparator: no later entry must come before an
      earlier one. */
  ghost predicate Sorted(order: SortOrder, s: seq<Meeting>)
  {
    forall i, j :: 0 <= i < j < |s| ==> Compare(order, s[i], s[j]) <= 0
  }

  /** The meetings of `s` held on day `d`, in list order. */
  function OnDate(s: seq<Meeting>, d: DayKey): seq<Meeting>
  {
    if s == [] then []
    else (if s[0].date == d then [s[0]] else []) + OnDate(s[1..], d)
  }

  // ---------------------------------------------------------------- sorting

  /** Stable insertion: `x` is placed before the first entry that does not
      have to come before it. */
  function Insert(order: SortOrder, x: Meeting, s: seq<Meeting>): (r: seq<Meeting>)
    ensures multiset(r) == multiset(s) + multiset{x}
  {
    if s == [] then [x]
    else if Compare(order, s[0], x) < 0 then
      assert s == [s[0]] + s[1..];
      [s[0]] + Insert(order, x, s[1..])
    else [x] + s
  }

  /** `[...meetings].sort(comparator)`: a new list holding the same meetings;
      the input is a value and is left as it was. */
  function SortMeetings(order: SortOrder, ms: seq<Meeting>): (r: seq<Meeting>)
    ensures multiset(r) == multiset(ms)
    ensures |r| == |ms|
  {
    if ms == [] then []
    else
      assert ms == [ms[0]] + ms[1..];
      Insert(order, ms[0], SortMeetings(order, ms[1..]))
  }

  lemma {:induction false} InsertSorted(order: SortOrder, x: Meeting, s: seq<Meeting>)
    requires Sorted(order, s)
    ensures Sorted(order, Insert(order, x, s))
  {
    if s != [] && Compare(order, s[0], x) < 0 {
      SortedTail(order, s);
      InsertSorted(order, x, s[1..]);
      InsertAfterHead(order, x, s);
      ConsSorted(order, s[0], Insert(order, x, s[1..]));
    } else if s != [] {
      ConsSorted(order, x, s);
    }
  }

  /** A meeting that may come before every entry of an ordered list can be
      put in front of it. */
  lemma ConsSorted(order: SortOrder, y: Meeting, t: seq<Meeting>)
    requires Sorted(order, t)
    requires forall j :: 0 <= j < |t| ==> Compare(order, y, t[j]) <= 0
    ensures Sorted(order, [y] + t)
  {
    var r := [y] + t;
    forall i, j | 0 <= i < j < |r| ensures Compare(order, r[i], r[j]) <= 0 {
      assert r[j] == t[j - 1];
      if i > 0 {
        assert r[i] == t[i - 1];
      }
    }
  }

  /** When `x` goes after the head of an ordered list, the head may come
      before everything `x` is inserted among. */
  lemma InsertAfterHead(order: SortOrder, x: Meeting, s: seq<Meeting>)
    requires Sorted(order, s) && s != [] && Compare(order, s[0], x) < 0
    ensures forall j :: 0 <= j < |Insert(order, x, s[1..])| ==> Compare(order, s[0], Insert(order, x, s[1..])[j]) <= 0
  {
    var rest := Insert(order, x, s[1..]);
    forall j | 0 <= j < |rest| ensures Compare(order, s[0], rest[j]) <= 0 {
      assert rest[j] in multiset(rest);
      if rest[j] != x {
        assert rest[j] in multiset(s[1..]);
        var k :| 0 <= k < |s[1..]| && s[1..][k] == rest[j];
        assert s[k + 1] == rest[j];
      }
    }
  }

  /** The shown list is ordered; under 'latest' dates never increase along it,
      under 'oldest' they never decrease. */
  lemma {:induction false} SortedByDate(order: SortOrder, ms: seq<Meeting>)
    ensures Sorted(order, SortMeetings(order, ms))
    ensures var r := SortMeetings(order, ms);
      order == Latest ==> forall i, j :: 0 <= i < j < |r| ==> r[i].date >= r[j].date
    ensures var r := SortMeetings(order, ms);
      order == Oldest ==> forall i, j :: 0 <= i < j < |r| ==> r[i].date <= r[j].date
  {
    if ms != [] {
      SortedByDate(order, ms[1..]);
      InsertSorted(order, ms[0], SortMeetings(order, ms[1..]));
    }
    var r := SortMeetings(order, ms);
    assert forall i, j :: 0 <= i < j < |r| ==> Compare(order, r[i], r[j]) <= 0;
  }

  lemma {:induction false} OnDateAppend(a: seq<Meeting>, b: seq<Meeting>, d: DayKey)
    ensures OnDate(a + b, d) == OnDate(a, d) + OnDate(b, d)
  {
    if a == [] {
      assert a + b == b;
    } else {
      var head := if a[0].date == d then [a[0]] else [];
      assert (a + b)[0] == a[0] && (a + b)[1..] == a[1..] + b;
      OnDateAppend(a[1..], b, d);
      assert OnDate(a + b, d) == head + (OnDate(a[1..], d) + OnDate(b, d));
    }
  }

  /** Meetings on different days can trade places without changing any
      day's sub-list. */
  lemma OtherDayCommutes(y: Meeting, x: Meeting, d: DayKey, tail: seq<Meeting>)
    requires y.date != x.date
    ensures OnDate([y], d) + (OnDate([x], d) + tail) == OnDate([x], d) + (OnDate([y], d) + tail)
  {
    assert [y][1..] == [] && [x][1..] == [];
  }

  /** Inserting keeps, for every day, the order in which `x` and the rest
      were given. */
  lemma {:induction false} InsertOnDate(order: SortOrder, x: Meeting, s: seq<Meeting>, d: DayKey)
    ensures OnDate(Insert(order, x, s), d) == OnDate([x] + s, d)
  {
    if s != [] && Compare(order, s[0], x) < 0 {
      var t := s[1..];
      var head, mid, tail := OnDate([s[0]], d), OnDate([x], d), OnDate(t, d);
      calc {
        OnDate(Insert(order, x, s), d);
      == { OnDateAppend([s[0]], Insert(order, x, t), d); }
        head + OnDate(Insert(order, x, t), d);
      == { InsertOnDate(order, x, t, d); OnDateAppend([x], t, d); }
        head + (mid + tail);
      == { OtherDayCommutes(s[0], x, d, tail); }
        mid + (head + tail);
      == { OnDateAppend([s[0]], t, d); assert [s[0]] + t == s; }
        mid + OnDate(s, d);
      == { OnDateAppend([x], s, d); }
        OnDate([x] + s, d);
      }
    }
  }

  /** Stability: for every day, the meetings held that day appear in the
      shown list in exactly their order in the input. */
  lemma {:induction false} SortIsStable(order: SortOrder, ms: seq<Meeting>, d: DayKey)
    ensures OnDate(SortMeetings(order, ms), d) == OnDate(ms, d)
  {
    if ms != [] {
      var rest := SortMeetings(order, ms[1..]);
      calc {
        OnDate(SortMeetings(order, ms), d);
      == { InsertOnDate(order, ms[0], rest, d); }
        OnDate([ms[0]] + rest, d);
      == { OnDateAppend([ms[0]], rest, d); SortIsStable(order, ms[1..], d); }
        OnDate([ms[0]], d) + OnDate(ms[1..], d);
      == { OnDateAppend([ms[0]], ms[1..], d); assert [ms[0]] + ms[1..] == ms; }
        OnDate(ms, d);
      }
    }
  }

  lemma HeadOnDate(s: seq<Meeting>)
    requires s != []
    ensures OnDate(s, s[0].date) == [s[0]] + OnDate(s[1..], s[0].date)
  {
  }

  lemma OnDateFound(s: seq<Meeting>, d: DayKey) returns (k: nat)
    requires OnDate(s, d) != []
    ensures k < |s| && s[k].date == d
  {
    if s[0].date == d {
      k := 0;
    } else {
      var k' := OnDateFound(s[1..], d);
      k := k' + 1;
    }
  }

  /** The tail of an ordered list is ordered. */
  lemma SortedTail(order: SortOrder, s: seq<Meeting>)
    requires Sorted(order, s) && s != []
    ensures Sorted(order, s[1..])
  {
    forall i, j | 0 <= i < j < |s[1..]| ensures Compare(order, s[1..][i], s[1..][j]) <= 0 {
      assert s[1..][i] == s[i + 1] && s[1..][j] == s[j + 1];
    }
  }

  /** Two non-empty ordered lists that agree on every day's sub-list start
      with the same meeting: both start with the first meeting of the
      earliest-shown day. */
  lemma SameHead(order: SortOrder, a: seq<Meeting>, b: seq<Meeting>)
    requires Sorted(order, a) && Sorted(order, b) && a != [] && b != []
    requires forall d :: OnDate(a, d) == OnDate(b, d)
    ensures a[0] == b[0]
  {
    var da, db := a[0].date, b[0].date;
    HeadOnDate(a);
    HeadOnDate(b);
    var kb := OnDateFound(b, da);
    var ka := OnDateFound(a, db);
    assert Compare(order, b[0], b[kb]) <= 0 || kb == 0;
    assert Compare(order, a[0], a[ka]) <= 0 || ka == 0;
    assert da == db;
    assert a[0] == OnDate(a, da)[0] == OnDate(b, da)[0] == b[0];
  }

  /** Dropping a shared first meeting keeps the day's sub-lists equal. */
  lemma TailsOnDate(a: seq<Meeting>, b: seq<Meeting>, d: DayKey)
    requires a != [] && b != [] && a[0] == b[0] && OnDate(a, d) == OnDate(b, d)
    ensures OnDate(a[1..], d) == OnDate(b[1..], d)
  {
    var head := if a[0].date == d then [a[0]] else [];
    assert OnDate(a, d) == head + OnDate(a[1..], d);
    assert OnDate(b, d) == head + OnDate(b[1..], d);
    assert OnDate(a[1..], d) == OnDate(a, d)[|head|..];
    assert OnDate(b[1..], d) == OnDate(b, d)[|head|..];
  }

  /** Sortedness and per-day order pin the list down: any two lists that are
      both ordered and agree on every day's sub-list are equal. So every
      stable sort of the meetings gives the list SortMeetings gives. */
  lemma {:induction false} StableOrderIsUnique(order: SortOrder, a: seq<Meeting>, b: seq<Meeting>)
    requires Sorted(order, a) && Sorted(order, b)
    requires forall d :: OnDate(a, d) == OnDate(b, d)
    ensures a == b
    decreases |a|
  {
    if a == [] || b == [] {
      if a != [] {
        HeadOnDate(a);
      } else if b != [] {
        HeadOnDate(b);
      }
      return;
    }
    SameHead(order, a, b);
    forall d ensures OnDate(a[1..], d) == OnDate(b[1..], d) {
      TailsOnDate(a, b, d);
    }
    SortedTail(order, a);
    SortedTail(order, b);
    StableOrderIsUnique(order, a[1..], b[1..]);
    assert a == [a[0]] + a[1..] && b == [b[0]] + b[1..];
  }

  /** Any ordered list that keeps every day's meetings in input order is the
      list SortMeetings gives: the model agrees with every stable sort. */
  lemma AnyStableSortAgrees(order: SortOrder, ms: seq<Meeting>, r: seq<Meeting>)
    requires Sorted(order, r)
    requires forall d :: OnDate(r, d) == OnDate(ms, d)
    ensures r == SortMeetings(order, ms)
  {
    SortedByDate(order, ms);
    forall d ensures OnDate(r, d) == OnDate(SortMeetings(order, ms), d) {
      SortIsStable(order, ms, d);
    }
    StableOrderIsUnique(order, r, SortMeetings(order, ms));
  }

  // ----------------------------------------------------------------- banner

  /** A key of a partial record: left out, or given (possibly as undefined). */
  datatype Slot<T> = Absent | Present(value: T)

  /** The banner state; None is `undefined`. */
  datatype Banner = Banner(groupName: Option<string>, backgroundImage: Option<string>)

  /** The argument of `handleBannerUpdate`. */
  datatype BannerPatch = BannerPatch(groupName: Slot<Option<string>>, backgroundImage: Slot<Option<string>>)

  /** `{ ...prev, ...data }`: every key present in `data` overwrites, even
      with undefined; every other key keeps its value. */
  function MergeBanner(prev: Banner, data: BannerPatch): (r: Banner)
    ensures data.groupName.Present? ==> r.groupName == data.groupName.value
    ensures data.groupName.Absent? ==> r.groupName == prev.groupName
    ensures data.backgroundImage.Present? ==> r.backgroundImage == data.backgroundImage.value
    ensures data.backgroundImage.Absent? ==> r.backgroundImage == prev.backgroundImage
  {
    Banner(
      match data.groupName case Present(v) => v case Absent => prev.groupName,
      match data.backgroundImage case Present(v) => v case Absent => prev.backgroundImage)
  }

  /** An empty patch changes nothing, and a second merge of the same patch
      changes nothing more. */
  lemma MergeBannerIdempotent(prev: Banner, data: BannerPatch)
    ensures MergeBanner(prev, BannerPatch(Absent, Absent)) == prev
    ensures MergeBanner(MergeBanner(prev, data), data) == MergeBanner(prev, data)
  {
  }

  // --------------------------------------------------------------- the page

  /** The page's built-in meetings; `now` is the load-time `new Date()`. */
  function MockMeetings(now: int): seq<Meeting>
  {
    [ Meeting(
        "1", "3월 정기모임", 20240315, "서초구 반포동 맛집",
        [ Participant("1", "김영희", 50000), Participant("2", "박철수", 50000),
          Participant("3", "이수진", 50000), Participant("4", "최민호", 50000) ],
        [ Expense("1", "점심식사", 120000, None), Expense("2", "커피", 40000, None),
          Expense("3", "기념품", 20000, None) ],
        [ Donation("1", "정상호", 20000, Some("늦게 와서 죄송합니다")) ],
        [ Photo("1", "/api/placeholder/400/300", Some("모임 단체사진"), Some(true)),
          Photo("2", "/api/placeholder/400/300", Some("맛있는 음식"), None) ],
        [ Comment("1", "김영희", "오늘 정말 즐거웠어요!", now),
          Comment("2", "박철수", "다음에도 또 만나요~", now) ],
        now, now),
      Meeting(
        "2", "2월 송년모임", 20240220, "강남구 맛집",
        [ Participant("1", "김영희", 60000), Participant("2", "박철수", 60000),
          Participant("3", "이수진", 60000) ],
        [ Expense("1", "저녁식사", 150000, None), Expense("2", "노래방", 30000, None) ],
        [],
        [ Photo("1", "/api/placeholder/400/300", Some("송년회 사진"), Some(true)) ],
        [],
        now, now) ]
  }

  /** 'latest' shows meeting 1 (2024-03-15) before meeting 2 (2024-02-20);
      'oldest' shows them the other way round. */
  lemma MockMeetingsSorted(now: int)
    ensures var ms := MockMeetings(now);
      SortMeetings(Latest, ms) == [ms[0], ms[1]] && SortMeetings(Oldest, ms) == [ms[1], ms[0]]
  {
    var ms := MockMeetings(now);
    assert ms[1..][1..] == [];
    assert SortMeetings(Latest, ms[1..]) == [ms[1]];
    assert SortMeetings(Oldest, ms[1..]) == [ms[1]];
    assert [ms[1]][1..] == [];
  }

  /** The second card: 180000 in fees and in expenses, no donations, a
      balance of 0 shown as positive, its flagged photo, no comment badge. */
  lemma MockSecondCard(now: int)
    ensures var m := MockMeetings(now)[1];
      && FoldTotals(m) == Summary(180000, 180000, 0, 0)
      && Card(m) == CardView(Some(m.photos[0]), 3, 0, Positive, None)
  {
    var m := MockMeetings(now)[1];
    var ps, es := m.participants, m.expenses;
    assert Sum(ps[2..], Fee) == 60000 by { assert ps[2..][1..] == []; }
    assert ps[1..][1..] == ps[2..];
    assert Sum(es[1..], ExpenseAmount) == 30000 by { assert es[1..][1..] == []; }
  }

  /** The home page's state.  The page never replaces its meeting list. */
  class HomePage {
    const meetings: seq<Meeting>
    var sortOrder: SortOrder
    var homeBanner: Banner

    constructor (now: int)
      ensures meetings == MockMeetings(now) && sortOrder == Latest
      ensures homeBanner == Banner(Some("우리 모임"), None)
    {
      meetings := MockMeetings(now);
      sortOrder := Latest;
      homeBanner := Banner(Some("우리 모임"), None);
    }

    /** `sortedMeetings`, recomputed from the state on every render. */
    function SortedMeetings(): (r: seq<Meeting>)
      reads this
      ensures multiset(r) == multiset(meetings)
      ensures Sorted(sortOrder, r)
      ensures forall d :: OnDate(r, d) == OnDate(meetings, d)
    {
      SortedByDate(sortOrder, meetings);
      assert forall d :: OnDate(SortMeetings(sortOrder, meetings), d) == OnDate(meetings, d) by {
        forall d ensures OnDate(SortMeetings(sortOrder, meetings), d) == OnDate(meetings, d) {
          SortIsStable(sortOrder, meetings, d);
        }
      }
      SortMeetings(sortOrder, meetings)
    }

    method ToggleSortOrder()
      modifies this`sortOrder
      ensures sortOrder == Toggle(old(sortOrder))
    {
      sortOrder := Toggle(sortOrder);
    }

    method HandleBannerUpdate(data: BannerPatch)
      modifies this`homeBanner
      ensures homeBanner == MergeBanner(old(homeBanner), data)
    {
      homeBanner := MergeBanner(homeBanner, data);
    }
  }
}
