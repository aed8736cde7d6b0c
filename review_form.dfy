/** The review dialog (ReviewForm.tsx): a 1-to-5 star rating with hover preview, an optional
    text trimmed the way `String.prototype.trim` trims, and the submit guard. */
module ReviewForm {
  import opened Wrappers
  import opened Lists

  /** The characters `String.prototype.trim` removes: ECMAScript WhiteSpace (tab, vertical tab,
      form feed, space, no-break space, byte order mark and the Unicode space separators) and
      LineTerminator (line feed, carriage return, line and paragraph separators). */
  predicate IsSpace(c: char)
  {
    || c == '\t' || c == '\n' || c == '\U{000B}' || c == '\U{000C}' || c == '\r' || c == ' '
    || c == '\U{00A0}' || c == '\U{1680}' || ('\U{2000}' <= c <= '\U{200A}')
    || c == '\U{2028}' || c == '\U{2029}' || c == '\U{202F}' || c == '\U{205F}'
    || c == '\U{3000}' || c == '\U{FEFF}'
  }

  /** How many leading characters are white space. */
  function LeadingSpace(s: string): (n: nat)
    ensures n <= |s|
    ensures forall k :: 0 <= k < n ==> IsSpace(s[k])
    ensures n < |s| ==> !IsSpace(s[n])
    decreases |s|
  {
    if s == [] || !IsSpace(s[0]) then 0
    else
      var rest := LeadingSpace(s[1..]);
      assert forall k :: 1 <= k < 1 + rest ==> s[k] == s[1..][k - 1];
      1 + rest
  }

  /** Where the trailing white space starts. */
  function TrailingSpace(s: string): (n: nat)
    ensures n <= |s|
    ensures forall k :: n <= k < |s| ==> IsSpace(s[k])
    ensures n > 0 ==> !IsSpace(s[n - 1])
    decreases |s|
  {
    if s == [] || !IsSpace(s[|s| - 1]) then |s|
    else
      var init := s[..|s| - 1];
      var n := TrailingSpace(init);
      assert forall k :: n <= k < |init| ==> s[k] == init[k];
      n
  }

  /** The trailing white space of a suffix `s[i..]`, told in positions of `s`. */
  lemma SuffixSpace(s: string, i: nat)
    requires i <= |s|
    ensures var n := TrailingSpace(s[i..]);
      && i + n <= |s|
      && (forall k :: i + n <= k < |s| ==> IsSpace(s[k]))
      && (n > 0 ==> !IsSpace(s[i + n - 1]))
  {
    var rest := s[i..];
    var n := TrailingSpace(rest);
    forall k | i + n <= k < |s| ensures IsSpace(s[k]) {
      assert s[k] == rest[k - i];
    }
    if n > 0 {
      assert s[i + n - 1] == rest[n - 1];
    }
  }

  /** Cutting white space `s[..i]` and `s[i + n..]` leaves a middle that is empty only when all
      of `s` is white space, and otherwise starts and ends with other characters. */
  lemma MiddleFacts(s: string, i: nat, n: nat)
    requires i <= |s| && (forall k :: 0 <= k < i ==> IsSpace(s[k])) && (i < |s| ==> !IsSpace(s[i]))
    requires i + n <= |s| && (forall k :: i + n <= k < |s| ==> IsSpace(s[k])) && (n > 0 ==> !IsSpace(s[i + n - 1]))
    ensures forall k :: 0 <= k < |s| && !(i <= k < i + n) ==> IsSpace(s[k])
    ensures n == 0 <==> forall k :: 0 <= k < |s| ==> IsSpace(s[k])
  {
  }

  /** `trim()`: the middle of `s` left after cutting white space from both ends. */
  function Trim(s: string): (r: string)
    ensures LeadingSpace(s) + |r| <= |s| && r == s[LeadingSpace(s)..LeadingSpace(s) + |r|]
    ensures forall k :: 0 <= k < |s| && !(LeadingSpace(s) <= k < LeadingSpace(s) + |r|) ==> IsSpace(s[k])
    ensures r == [] <==> forall k :: 0 <= k < |s| ==> IsSpace(s[k])
    ensures r != [] ==> !IsSpace(r[0]) && !IsSpace(r[|r| - 1])
  {
    var i := LeadingSpace(s);
    SuffixSpace(s, i);
    var n := TrailingSpace(s[i..]);
    MiddleFacts(s, i, n);
    s[i..i + n]
  }

  /** `reviewText.trim() || undefined` (ReviewForm.tsx:38): blank text is not sent. */
  function NormalizeReviewText(text: string): (r: Option<string>)
    ensures r.None? <==> forall k :: 0 <= k < |text| ==> IsSpace(text[k])
    ensures r.Some? ==> r.value == Trim(text) && r.value != ""
  {
    var t := Trim(text);
    if t == "" then None else Some(t)
  }

  /** Star `star` is drawn filled when it is at most the hovered rating, or the chosen rating
      when nothing is hovered (ReviewForm.tsx:91). */
  predicate StarFilled(star: int, hoveredRating: int, rating: int)
  {
    star <= (if hoveredRating != 0 then hoveredRating else rating)
  }

  const Stars: seq<int> := [1, 2, 3, 4, 5]

  /** Among the first `k` stars, as many are filled as the rating on display allows. */
  lemma {:induction false} FilledAmongFirst(k: nat, hoveredRating: int, rating: int)
    requires k <= 5
    ensures var shown := if hoveredRating != 0 then hoveredRating else rating;
      |Filter(Stars[..k], star => StarFilled(star, hoveredRating, rating))| ==
        if shown < 0 then 0 else if shown < k then shown else k
  {
    if k > 0 {
      FilledAmongFirst(k - 1, hoveredRating, rating);
      assert Stars[..k] == Stars[..k - 1] + [k];
      assert Stars[..k][..k - 1] == Stars[..k - 1];
    }
  }

  /** The row shows as many filled stars as the rating on display. */
  lemma FilledStarsCount(hoveredRating: int, rating: int)
    requires 0 <= hoveredRating <= 5 && 0 <= rating <= 5
    ensures |Filter(Stars, star => StarFilled(star, hoveredRating, rating))| ==
      if hoveredRating != 0 then hoveredRating else rating
  {
    FilledAmongFirst(5, hoveredRating, rating);
    assert Stars[..5] == Stars;
  }

  /** The words under the stars (ReviewForm.tsx:99-106); nothing for an unrated form. */
  function RatingLabel(rating: int): (r: Option<string>)
    ensures r.Some? <==> 1 <= rating <= 5
  {
    match rating
    case 1 => Some("Poor")
    case 2 => Some("Fair")
    case 3 => Some("Good")
    case 4 => Some("Very Good")
    case 5 => Some("Excellent")
    case _ => None
  }

  /** Every rating has its own label. */
  lemma LabelsDistinct(a: int, b: int)
    requires RatingLabel(a).Some? && RatingLabel(b).Some? && a != b
    ensures RatingLabel(a) != RatingLabel(b)
  {
  }

  /** The payload of `reviewsApi.create` (ReviewForm.tsx:33-39). */
  datatype ReviewInsert = ReviewInsert(pitchId: string, playerId: string, bookingId: string, rating: int, reviewText: Option<string>)

  class ReviewScreen {
    const bookingId: string
    const pitchId: string
    const playerId: string
    var rating: int
    var hoveredRating: int
    var reviewText: string
    var error: Option<string>
    /** Every payload sent to `reviewsApi.create`, oldest first. */
    var created: seq<ReviewInsert>
    /** How many times `onSuccess` was called. */
    var successes: nat

    /** Both ratings stay within the five stars. */
    predicate Valid()
      reads this
    {
      0 <= rating <= 5 && 0 <= hoveredRating <= 5
    }

    constructor (booking: string, pitch: string, player: string)
      ensures Valid()
      ensures bookingId == booking && pitchId == pitch && playerId == player
      ensures rating == 0 && hoveredRating == 0 && reviewText == "" && error.None? && created == [] && successes == 0
    {
      bookingId, pitchId, playerId := booking, pitch, player;
      rating, hoveredRating, reviewText := 0, 0, "";
      error, created, successes := None, [], 0;
    }

    /** A click on one of the five stars. */
    method ClickStar(star: int)
      requires Valid() && 1 <= star <= 5
      modifies this`rating
      ensures Valid() && rating == star
    {
      rating := star;
    }

    method HoverStar(star: int)
      requires Valid() && 1 <= star <= 5
      modifies this`hoveredRating
      ensures Valid() && hoveredRating == star
    {
      hoveredRating := star;
    }

    method LeaveStar()
      requires Valid()
      modifies this`hoveredRating
      ensures Valid() && hoveredRating == 0
    {
      hoveredRating := 0;
    }

    /** `handleSubmit` (ReviewForm.tsx:21-48). `outcome` is `None` when `reviewsApi.create`
      succeeds and `Some(message)` when it throws. */
    method HandleSubmit(outcome: Option<string>)
      modifies this`error, this`created, this`successes
      ensures old(rating) == 0 ==>
        error == Some("Please select a rating") && created == old(created) && successes == old(successes)
      ensures old(rating) != 0 ==>
        created == old(created) + [ReviewInsert(pitchId, playerId, bookingId, rating, NormalizeReviewText(reviewText))]
      ensures old(rating) != 0 && outcome.None? ==> error.None? && successes == old(successes) + 1
      ensures old(rating) != 0 && outcome.Some? ==>
        error == Some(OrElse(outcome.value, "Failed to submit review")) && successes == old(successes)
    {
      if rating == 0 {
        error := Some("Please select a rating");
        return;
      }
      error := None;
      created := created + [ReviewInsert(pitchId, playerId, bookingId, rating, NormalizeReviewText(reviewText))];
      match outcome
      case None =>
        successes := successes + 1;
      case Some(message) =>
        error := Some(OrElse(message, "Failed to submit review"));
    }
  }
}
