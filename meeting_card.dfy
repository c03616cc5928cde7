/** src/components/MeetingCard.tsx: what one card of the home list derives
    from its meeting.  Everything here is a pure function of the props. */
module MeetingCard {
  import opened Wrappers
  import opened MeetingTypes
  import opened Accounting

  /** `photo.isThumbnail` is truthy. */
  predicate IsFlagged(p: Photo)
  {
    p.isThumbnail == Some(true)
  }

  /** Where `photos.find(photo => photo.isThumbnail)` stops: the first
      flagged photo, or None when no photo is flagged. */
  function FirstFlagged(photos: seq<Photo>): (r: Option<nat>)
    ensures r.Some? ==> r.value < |photos| && IsFlagged(photos[r.value])
    ensures r.Some? ==> forall j :: 0 <= j < r.value ==> !IsFlagged(photos[j])
    ensures r.None? <==> forall j :: 0 <= j < |photos| ==> !IsFlagged(photos[j])
  {
    if photos == [] then None
    else if IsFlagged(photos[0]) then Some(0)
    else match FirstFlagged(photos[1..])
      case None => None
      case Some(k) => Some(k + 1)
  }

  /** `photos.find(photo => photo.isThumbnail) || photos[0]`: the first flagged
      photo, else the first photo, else none. */
  function Thumbnail(photos: seq<Photo>): (r: Option<Photo>)
    ensures r.Some? ==> r.value in photos
    ensures r.None? <==> photos == []
    ensures forall k :: 0 <= k < |photos| && IsFlagged(photos[k]) && (forall j :: 0 <= j < k ==> !IsFlagged(photos[j]))
              ==> r == Some(photos[k])
    ensures photos != [] && (forall j :: 0 <= j < |photos| ==> !IsFlagged(photos[j])) ==> r == Some(photos[0])
  {
    match FirstFlagged(photos)
    case Some(k) => Some(photos[k])
    case None => if photos != [] then Some(photos[0]) else None
  }

  /** The balance's colour: green for zero and above, red below zero. */
  datatype Tone = Positive | Negative

  function BalanceTone(balance: int): (t: Tone)
    ensures t == Positive <==> balance >= 0
  {
    if balance >= 0 then Positive else Negative
  }

  /** The figures the card shows. */
  datatype CardView = CardView(
    thumbnail: Option<Photo>,
    participantCount: nat,
    balance: int,
    tone: Tone,
    commentBadge: Option<nat>)

  /** The card of meeting `m`: the participant count is the list's length, the
      comment badge appears exactly when there are comments and shows their
      number, and the balance and its colour come from the one summary. */
  function Card(m: Meeting): (c: CardView)
    ensures c.participantCount == |m.participants|
    ensures c.commentBadge.Some? <==> |m.comments| > 0
    ensures c.commentBadge.Some? ==> c.commentBadge.value == |m.comments|
    ensures c.balance == MeetingSummary(m).balance
    ensures c.tone == Positive <==> MeetingSummary(m).balance >= 0
    ensures c.thumbnail == Thumbnail(m.photos)
  {
    var balance := FoldTotals(m).balance;
    CardView(
      Thumbnail(m.photos),
      |m.participants|,
      balance,
      BalanceTone(balance),
      if |m.comments| > 0 then Some(|m.comments|) else None)
  }
}
