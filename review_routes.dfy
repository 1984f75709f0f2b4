/** The review routes of backend/routes/reviews.js over an in-memory store:
    the style catalogue's rating summaries and the review collection. */
module ReviewRoutes {
  import opened Common
  import opened Seqs
  import opened ReviewSchema
  import opened RatingAggregate

  /** The JSON body of `POST /`. A `user` field in the body is read by
      nobody: the author is the authenticated identity. */
  datatype RequestBody = RequestBody(styleId: Option<StyleId>, rating: Option<real>, text: Option<string>, user: Option<UserId>)

  /** The four ways a create-review request ends. */
  datatype Outcome =
    | NotFound                                // 404 "Style not found"
    | AlreadyReviewed                         // 400 "You have already reviewed this style"
    | Invalid(violations: seq<Violation>)     // 500: `save` throws a ValidationError
    | Created(review: Review)                 // 201 with the saved review

  /** The HTTP status each outcome is answered with. */
  function StatusCode(o: Outcome): (code: int)
    ensures 200 <= code < 300 <==> o.Created?
    ensures o.AlreadyReviewed? || o.NotFound? <==> 400 <= code < 500
  {
    match o
    case NotFound => 404
    case AlreadyReviewed => 400
    case Invalid(_) => 500
    case Created(_) => 201
  }

  /** Reviews ordered by `createdAt`, newest first. */
  ghost predicate NewestFirst(rs: seq<Review>) {
    forall i, j :: 0 <= i < j < |rs| ==> rs[i].createdAt >= rs[j].createdAt
  }

  /** Places `r` before the first review that is not newer than it. */
  function InsertNewestFirst(r: Review, rs: seq<Review>): (out: seq<Review>)
    requires NewestFirst(rs)
    ensures NewestFirst(out)
    ensures multiset(out) == multiset(rs) + multiset{r}
    ensures forall k :: 0 <= k < |out| ==> out[k] == r || out[k] in rs
  {
    if rs == [] || r.createdAt >= rs[0].createdAt then
      [r] + rs
    else
      var tail := InsertNewestFirst(r, rs[1..]);
      assert rs == [rs[0]] + rs[1..];
      ConsNewestFirst(rs, tail, r);
      [rs[0]] + tail
  }

  /** The head of a newest-first list may go in front of any list drawn
      from its tail and from reviews older than that head. */
  lemma ConsNewestFirst(rs: seq<Review>, tail: seq<Review>, r: Review)
    requires rs != [] && NewestFirst(rs) && NewestFirst(tail)
    requires r.createdAt < rs[0].createdAt
    requires forall k :: 0 <= k < |tail| ==> tail[k] == r || tail[k] in rs[1..]
    ensures NewestFirst([rs[0]] + tail)
  {
    forall k | 0 <= k < |tail| ensures tail[k].createdAt <= rs[0].createdAt {
      if tail[k] != r {
        var j :| 0 <= j < |rs[1..]| && rs[1..][j] == tail[k];
        assert rs[j + 1] == tail[k];
      }
    }
  }

  /** `.sort({ createdAt: -1 })`: the same reviews, newest first. Reviews
      with equal timestamps keep their stored order. */
  function SortNewestFirst(rs: seq<Review>): (out: seq<Review>)
    ensures NewestFirst(out)
    ensures multiset(out) == multiset(rs)
  {
    if rs == [] then []
    else
      assert rs == [rs[0]] + rs[1..];
      InsertNewestFirst(rs[0], SortNewestFirst(rs[1..]))
  }

  /** The style catalogue's rating fields and the review collection. */
  class Store {
    var styles: map<StyleId, Summary>
    var reviews: seq<Review>

    /** Every summary is the recompute of the stored reviews, the
        `(user, style)` index is unique, every review passed the schema
        and refers to a catalogued style. */
    ghost predicate Valid()
      reads this
    {
      && (forall s :: s in styles ==> styles[s] == Recompute(reviews, s))
      && Unique(reviews)
      && (forall i :: 0 <= i < |reviews| ==> ValidReview(reviews[i]) && reviews[i].style in styles)
    }

    /** A catalogue of styles nobody has reviewed yet. */
    constructor (catalogue: set<StyleId>)
      ensures Valid()
      ensures styles == map s | s in catalogue :: NoReviews
      ensures reviews == []
    {
      styles := map s | s in catalogue :: NoReviews;
      reviews := [];
    }

    /** `updateStyleRating`: recount the style's reviews and overwrite its
        two summary fields; `findByIdAndUpdate` of an unknown id changes nothing. */
    method UpdateStyleRating(style: StyleId)
      modifies this
      ensures reviews == old(reviews)
      ensures styles == if style in old(styles) then old(styles)[style := Recompute(reviews, style)] else old(styles)
      ensures style in old(styles) && old(styles)[style] == Recompute(reviews, style) ==> styles == old(styles)
    {
      if style in styles {
        styles := styles[style := Recompute(reviews, style)];
      }
    }

    /** `POST /`: check the style exists, then that `user` has not reviewed
        it, then validate and save the review and recompute that style's
        summary. Every failure leaves the store as it was. */
    method CreateReview(user: UserId, body: RequestBody, now: int) returns (o: Outcome)
      requires Valid()
      modifies this
      ensures Valid()
      ensures o.NotFound? <==> body.styleId.None? || body.styleId.value !in old(styles)
      ensures o.AlreadyReviewed? <==>
        body.styleId.Some? && body.styleId.value in old(styles) && HasReview(old(reviews), user, body.styleId.value)
      ensures o.Invalid? <==>
        && body.styleId.Some? && body.styleId.value in old(styles)
        && !HasReview(old(reviews), user, body.styleId.value)
        && !DraftValid(Draft(Some(user), body.styleId, body.rating, body.text))
      ensures o.Invalid? ==>
        o.violations != [] && o.violations == Violations(Draft(Some(user), body.styleId, body.rating, body.text))
      ensures o.Created? <==>
        && body.styleId.Some? && body.styleId.value in old(styles)
        && !HasReview(old(reviews), user, body.styleId.value)
        && DraftValid(Draft(Some(user), body.styleId, body.rating, body.text))
      ensures StatusCode(o) == (if o.Created? then 201 else if o.Invalid? then 500
                                else if o.AlreadyReviewed? then 400 else 404)
      ensures !o.Created? ==> reviews == old(reviews) && styles == old(styles)
      ensures o.Created? ==>
        && o.review == Review(user, body.styleId.value, body.rating.value, body.text.value, now)
        && reviews == old(reviews) + [o.review]
        && styles == old(styles)[o.review.style := Recompute(reviews, o.review.style)]
        && styles[o.review.style].totalReviews == old(styles)[o.review.style].totalReviews + 1
    {
      if body.styleId.None? || body.styleId.value !in styles {
        return NotFound;
      }
      var styleId := body.styleId.value;
      if FindOne(reviews, user, styleId).Some? {
        return AlreadyReviewed;
      }
      var draft := Draft(Some(user), Some(styleId), body.rating, body.text);
      var saved := Validate(draft, now);
      if saved.Err? {
        return Invalid(saved.error);
      }
      var review := saved.value;
      AppendUnique(reviews, review);
      RecomputeSameStyle(reviews, review);
      forall s | s in styles && s != styleId
        ensures Recompute(reviews + [review], s) == Recompute(reviews, s)
      {
        RecomputeOtherStyle(reviews, review, s);
      }
      reviews := reviews + [review];
      UpdateStyleRating(styleId);
      o := Created(review);
    }

    /** `GET /style/:styleId`: the style's reviews, newest first. */
    function ListReviewsForStyle(style: StyleId): (rs: seq<Review>)
      reads this
      ensures NewestFirst(rs)
      ensures multiset(rs) == multiset(ForStyle(reviews, style))
      ensures forall r :: r in rs <==> r in reviews && r.style == style
    {
      var found := ForStyle(reviews, style);
      var rs := SortNewestFirst(found);
      forall r ensures r in rs <==> r in reviews && r.style == style {
        assert r in rs <==> r in multiset(rs);
        assert r in found <==> r in multiset(found);
        ForStyleMembers(reviews, style, r);
      }
      rs
    }
  }

  /** A client of the store: one style, two reviews, then a second review
      by the first author, which is refused and changes nothing. */
  method TwoReviewsThenDuplicate()
  {
    var store := new Store({"I1"});
    assert store.styles["I1"] == NoReviews;

    assert DraftValid(Draft(Some("U1"), Some("I1"), Some(4.0), Some("Nice")));
    var o1 := store.CreateReview("U1", RequestBody(Some("I1"), Some(4.0), Some("Nice"), None), 1);
    assert o1.Created?;
    assert store.reviews == [Review("U1", "I1", 4.0, "Nice", 1)];
    assert store.styles["I1"] == Summary(40, 1);

    assert DraftValid(Draft(Some("U2"), Some("I1"), Some(2.0), Some("Okay")));
    var o2 := store.CreateReview("U2", RequestBody(Some("I1"), Some(2.0), Some("Okay"), Some("U1")), 2);
    assert o2.Created? && o2.review.user == "U2";
    var both := [Review("U1", "I1", 4.0, "Nice", 1), Review("U2", "I1", 2.0, "Okay", 2)];
    assert store.reviews == both;
    assert ForStyle(both, "I1") == both;
    assert RatingSum(both) == 6.0;
    IntegerMeanTenths(6, 2);
    assert store.styles["I1"] == Summary(30, 2);

    assert store.reviews[0].user == "U1" && store.reviews[0].style == "I1";
    var o3 := store.CreateReview("U1", RequestBody(Some("I1"), Some(5.0), Some("Again"), None), 3);
    assert o3 == AlreadyReviewed;
    assert store.styles["I1"] == Summary(30, 2);
  }
}
