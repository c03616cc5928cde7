/** src/pages/MeetingView.tsx: the detail page of one meeting.  Its meeting is
    read-only page state; what changes is the comment composer: the author and
    body inputs and the browser's key-value storage. */
module MeetingView {
  import opened Wrappers
  import opened MeetingTypes
  import opened Accounting

  /** The page's built-in meeting; `now` is the load-time `new Date()`. */
  function MockMeeting(now: int): Meeting
  {
    Meeting(
      "1", "3월 정기모임", 20240315, "서초구 반포동 맛집",
      [ Participant("1", "김영희", 50000), Participant("2", "박철수", 50000),
        Participant("3", "이수진", 50000), Participant("4", "최민호", 50000) ],
      [ Expense("1", "점심식사", 120000, None), Expense("2", "커피", 40000, None),
        Expense("3", "기념품", 20000, None) ],
      [ Donation("1", "정상호", 20000, Some("늦게 와서 죄송합니다")) ],
      [ Photo("1", "/api/placeholder/400/300", Some("모임 단체사진"), Some(true)),
        Photo("2", "/api/placeholder/400/300", Some("맛있는 음식"), None) ],
      [ Comment("1", "김영희", "오늘 정말 즐거웠어요!", now),
        Comment("2", "박철수", "다음에도 또 만나요~", now) ],
      now, now)
  }

  /** The built-in meeting shows 200000 in fees, 180000 in expenses, 20000 in
      donations and a balance of 40000. */
  lemma MockMeetingTotals(now: int)
    ensures FoldTotals(MockMeeting(now)) == Summary(200000, 180000, 20000, 40000)
  {
    var m := MockMeeting(now);
    assert TotalFees(m.participants) == 200000 by {
      var ps := m.participants;
      assert Sum(ps[3..], Fee) == 50000 by { assert ps[3..][1..] == []; }
      assert ps[2..][1..] == ps[3..];
      assert ps[1..][1..] == ps[2..];
      assert ps[1..] == ps[1..];
    }
    assert TotalExpenses(m.expenses) == 180000 by {
      var es := m.expenses;
      assert Sum(es[2..], ExpenseAmount) == 20000 by { assert es[2..][1..] == []; }
      assert es[1..][1..] == es[2..];
    }
    assert TotalDonations(m.donations) == 20000 by {
      assert m.donations[1..] == [];
    }
  }

  // ------------------------------------------------------------------ trim

  /** The characters `String.prototype.trim` strips: ECMAScript's WhiteSpace
      (tab, vertical tab, form feed, space, no-break space, zero-width no-break
      space and the Unicode space separators) and its LineTerminator set. */
  predicate IsTrimmed(c: char)
  {
    || c in {'\t', '\n', '\U{B}', '\U{C}', '\r', ' ', '\U{A0}', '\U{1680}'}
    || ('\U{2000}' <= c <= '\U{200A}')
    || c in {'\U{2028}', '\U{2029}', '\U{202F}', '\U{205F}', '\U{3000}', '\U{FEFF}'}
  }

  /** Drops leading white space: what is left is a suffix that starts with a
      non-space, and everything dropped was space. */
  function TrimStart(s: string): (r: string)
    ensures |r| <= |s| && r == s[|s| - |r|..]
    ensures r == [] || !IsTrimmed(r[0])
    ensures forall i :: 0 <= i < |s| - |r| ==> IsTrimmed(s[i])
  {
    if s != [] && IsTrimmed(s[0]) then TrimStart(s[1..]) else s
  }

  /** Drops trailing white space, symmetrically. */
  function TrimEnd(s: string): (r: string)
    ensures |r| <= |s| && r == s[..|r|]
    ensures r == [] || !IsTrimmed(r[|r| - 1])
    ensures forall i :: |r| <= i < |s| ==> IsTrimmed(s[i])
  {
    if s != [] && IsTrimmed(s[|s| - 1]) then TrimEnd(s[..|s| - 1]) else s
  }

  /** `s.trim()`: empty exactly when every character of `s` is white space. */
  function Trim(s: string): (r: string)
    ensures |r| <= |s|
    ensures r == [] <==> forall i :: 0 <= i < |s| ==> IsTrimmed(s[i])
    ensures r == [] || (!IsTrimmed(r[0]) && !IsTrimmed(r[|r| - 1]))
  {
    TrimEnd(TrimStart(s))
  }

  // -------------------------------------------------------------- comments

  /** The storage key under which the last author's name is kept. */
  const AuthorKey: string := "commentAuthor"

  /** `localStorage.getItem("commentAuthor") || ""`: the stored name, or ""
      when nothing is stored (a stored "" gives "" either way). */
  function InitialAuthor(store: map<string, string>): (r: string)
    ensures AuthorKey in store ==> r == store[AuthorKey]
    ensures AuthorKey !in store ==> r == ""
  {
    if AuthorKey in store && store[AuthorKey] != "" then store[AuthorKey] else ""
  }

  /** The toast `handleAddComment` shows. */
  datatype CommentOutcome = NeedsInput | Posted

  /** The composer's gate: both the name and the comment must have a
      character that is not white space. */
  function CommentGate(author: string, content: string): (o: CommentOutcome)
    ensures o == Posted <==> Trim(author) != "" && Trim(content) != ""
  {
    if Trim(author) == "" || Trim(content) == "" then NeedsInput else Posted
  }

  /** A name typed with an empty comment is refused. */
  lemma EmptyCommentRefused(author: string)
    ensures CommentGate(author, "") == NeedsInput
  {
  }

  /** The page's state.  `meeting` has no setter on the page, so it is a
      constant: no handler can change its comments. */
  class CommentComposer {
    const meeting: Meeting
    var commentAuthor: string
    var newComment: string
    var store: map<string, string>

    constructor (meeting: Meeting, store: map<string, string>)
      ensures this.meeting == meeting && this.store == store
      ensures commentAuthor == InitialAuthor(store) && newComment == ""
    {
      this.meeting := meeting;
      this.store := store;
      commentAuthor := InitialAuthor(store);
      newComment := "";
    }

    /** The name input's `onChange`. */
    method EditAuthor(value: string)
      modifies this`commentAuthor
      ensures commentAuthor == value
    {
      commentAuthor := value;
    }

    /** The comment box's `onChange`. */
    method EditComment(value: string)
      modifies this`newComment
      ensures newComment == value
    {
      newComment := value;
    }

    /** `handleAddComment`: refused, nothing changes; accepted, the untrimmed
        name is stored, the comment box is cleared and the name is kept. The
        meeting's comment list is not extended. */
    method HandleAddComment() returns (outcome: CommentOutcome)
      modifies this`newComment, this`store
      ensures outcome == CommentGate(old(commentAuthor), old(newComment))
      ensures outcome == NeedsInput ==> newComment == old(newComment) && store == old(store)
      ensures outcome == Posted ==> store == old(store)[AuthorKey := commentAuthor] && newComment == ""
      ensures commentAuthor == old(commentAuthor)
    {
      if Trim(commentAuthor) == "" || Trim(newComment) == "" {
        return NeedsInput;
      }
      store := store[AuthorKey := commentAuthor];
      newComment := "";
      outcome := Posted;
    }
  }
}
