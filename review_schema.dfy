/** The review document schema of backend/models/Review.js: four required
    fields, the bounds on rating and text, the `createdAt` timestamp added by
    `timestamps: true`, and the unique `(user, style)` index. */
module ReviewSchema {
  import opened Common

  /** Opaque document identifiers (MongoDB ObjectIds). */
  type UserId = string
  type StyleId = string

  const MinRating: real := 1.0
  const MaxRating: real := 5.0
  const MaxTextLength: nat := 1000

  /** A stored review. `rating` is a `Number`: the schema bounds it but does
      not make it an integer. `createdAt` is the save time in milliseconds. */
  datatype Review = Review(user: UserId, style: StyleId, rating: real, text: string, createdAt: int)

  /** A review document before `save`: every schema field may be missing. */
  datatype Draft = Draft(user: Option<UserId>, style: Option<StyleId>, rating: Option<real>, text: Option<string>)

  /** One failed field validator. */
  datatype Violation =
    | UserRequired
    | StyleRequired
    | RatingRequired
    | RatingBelowMin
    | RatingAboveMax
    | TextRequired
    | TextTooLong

  /** The field constraints, stated on a stored review. */
  predicate ValidReview(r: Review) {
    && MinRating <= r.rating <= MaxRating
    && 0 < |r.text| <= MaxTextLength
  }

  /** The field constraints, stated on a draft: every field present and in bounds. */
  predicate DraftValid(d: Draft) {
    && d.user.Some?
    && d.style.Some?
    && d.rating.Some? && MinRating <= d.rating.value <= MaxRating
    && d.text.Some? && 0 < |d.text.value| <= MaxTextLength
  }

  /** The validators of each path, run in schema order. A `required` string
      rejects the empty string; `min`, `max` and `maxlength` apply only to a
      present value. */
  function Violations(d: Draft): (vs: seq<Violation>)
    ensures vs == [] <==> DraftValid(d)
    ensures d.rating.Some? && d.rating.value < MinRating <==> RatingBelowMin in vs
    ensures d.rating.Some? && d.rating.value > MaxRating <==> RatingAboveMax in vs
    ensures d.text.Some? && |d.text.value| > MaxTextLength <==> TextTooLong in vs
    ensures (d.text.None? || d.text.value == []) <==> TextRequired in vs
    ensures d.rating.None? <==> RatingRequired in vs
    ensures d.user.None? <==> UserRequired in vs
    ensures d.style.None? <==> StyleRequired in vs
  {
    (if d.user.None? then [UserRequired] else [])
    + (if d.style.None? then [StyleRequired] else [])
    + (match d.rating
       case None => [RatingRequired]
       case Some(v) =>
         if v < MinRating then [RatingBelowMin]
         else if v > MaxRating then [RatingAboveMax]
         else [])
    + (match d.text
       case None => [TextRequired]
       case Some(t) =>
         if t == [] then [TextRequired]
         else if |t| > MaxTextLength then [TextTooLong]
         else [])
  }

  /** Document validation on `save`: a valid draft becomes a stored review
      stamped with `now`; an invalid one yields its violations. */
  function Validate(d: Draft, now: int): (r: Result<Review, seq<Violation>>)
    ensures r.Ok? <==> DraftValid(d)
    ensures r.Ok? ==> ValidReview(r.value) && r.value.createdAt == now
    ensures r.Ok? ==> Some(r.value.user) == d.user && Some(r.value.style) == d.style
    ensures r.Ok? ==> Some(r.value.rating) == d.rating && Some(r.value.text) == d.text
    ensures r.Err? ==> r.error != [] && r.error == Violations(d)
  {
    var vs := Violations(d);
    if vs == [] then Ok(Review(d.user.value, d.style.value, d.rating.value, d.text.value, now))
    else Err(vs)
  }

  /** The draft a stored review was saved from. */
  function ToDraft(r: Review): Draft {
    Draft(Some(r.user), Some(r.style), Some(r.rating), Some(r.text))
  }

  /** Validating a valid review's draft at its own timestamp gives it back. */
  lemma ValidateToDraft(r: Review)
    requires ValidReview(r)
    ensures Validate(ToDraft(r), r.createdAt) == Ok(r)
  {
  }

  /** The unique compound index: no two stored reviews share `(user, style)`. */
  predicate Unique(rs: seq<Review>) {
    forall i, j :: 0 <= i < j < |rs| ==> !(rs[i].user == rs[j].user && rs[i].style == rs[j].style)
  }

  /** Some stored review is by `user` for `style`. */
  predicate HasReview(rs: seq<Review>, user: UserId, style: StyleId) {
    exists i :: 0 <= i < |rs| && rs[i].user == user && rs[i].style == style
  }

  /** `Review.findOne({user, style})`: the first stored review by `user` for `style`. */
  function FindOne(rs: seq<Review>, user: UserId, style: StyleId): (r: Option<Review>)
    ensures r.Some? <==> HasReview(rs, user, style)
    ensures r.Some? ==> r.value in rs && r.value.user == user && r.value.style == style
  {
    if rs == [] then None
    else if rs[0].user == user && rs[0].style == style then Some(rs[0])
    else
      var r := FindOne(rs[1..], user, style);
      assert HasReview(rs[1..], user, style) ==> HasReview(rs, user, style) by {
        if HasReview(rs[1..], user, style) {
          var i :| 0 <= i < |rs[1..]| && rs[1..][i].user == user && rs[1..][i].style == style;
          assert rs[i + 1] == rs[1..][i];
        }
      }
      r
  }

  /** Appending a review whose pair is new keeps the index unique, and
      appending one whose pair is taken breaks it. */
  lemma AppendUnique(rs: seq<Review>, r: Review)
    requires Unique(rs)
    ensures Unique(rs + [r]) <==> !HasReview(rs, r.user, r.style)
  {
    var t := rs + [r];
    if HasReview(rs, r.user, r.style) {
      var i :| 0 <= i < |rs| && rs[i].user == r.user && rs[i].style == r.style;
      assert t[i] == rs[i] && t[|rs|] == r;
    } else {
      forall i, j | 0 <= i < j < |t|
        ensures !(t[i].user == t[j].user && t[i].style == t[j].style)
      {
        if j < |rs| {
          assert t[i] == rs[i] && t[j] == rs[j];
        } else {
          assert t[i] == rs[i] && t[j] == r;
        }
      }
    }
  }
}
