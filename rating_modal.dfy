/** The rating modal: the chosen and hovered star, the submit gate that keeps a rating from
    being sent twice, and the texts the modal shows. */
module RatingModalView {
  import opened Common
  import opened Paging

  /** The word shown under the stars: Poor, Fair, Good, Very Good or Excellent for 1 to 5,
      nothing for any other value. */
  function RatingText(v: int): (t: string)
    ensures t == "" <==> !(1 <= v <= 5)
  {
    if v == 1 then "Poor"
    else if v == 2 then "Fair"
    else if v == 3 then "Good"
    else if v == 4 then "Very Good"
    else if v == 5 then "Excellent"
    else ""
  }

  /** getAverageRating: no average for a falsy value, otherwise the value as a number, with
      NaN (None from `toNumber`) shown as no average. */
  function DisplayedAverage(averageRating: Js, toNumber: Js -> Option<real>): (shown: Option<real>)
    ensures !Truthy(averageRating) ==> shown.None?
    ensures Truthy(averageRating) ==> shown == toNumber(averageRating)
  {
    if !Truthy(averageRating) then None else toNumber(averageRating)
  }

  class RatingModal {
    const currentRating: Option<int>   // the user's existing rating, when the store shows one
    var rating: int
    var hoveredRating: int
    var submitting: bool

    /** The modal opens on the existing rating, or on 0 stars when there is none. */
    constructor (currentRating: Option<int>)
      ensures this.currentRating == currentRating
      ensures currentRating.None? ==> rating == 0
      ensures currentRating.Some? ==> rating == currentRating.value
      ensures hoveredRating == 0 && !submitting
    {
      this.currentRating := currentRating;
      rating := NumberOr(currentRating, 0);
      hoveredRating := 0;
      submitting := false;
    }

    /** A star's click; the stars are disabled while a submission is in flight. */
    method ClickStar(star: int)
      requires 1 <= star <= 5
      modifies this`rating
      ensures rating == if submitting then old(rating) else star
    {
      if !submitting {
        rating := star;
      }
    }

    method HoverStar(star: int)
      requires 1 <= star <= 5
      modifies this`hoveredRating
      ensures hoveredRating == star
    {
      hoveredRating := star;
    }

    method LeaveStar()
      modifies this`hoveredRating
      ensures hoveredRating == 0
    {
      hoveredRating := 0;
    }

    /** handleSubmit's first half: the rating is handed to `onSubmit` (returned here) only when
        some star is chosen and no submission is in flight, and the modal is then marked as
        submitting; otherwise nothing happens. */
    method BeginSubmit() returns (sent: Option<int>)
      modifies this`submitting
      ensures sent.Some? <==> rating > 0 && !old(submitting)
      ensures sent.Some? ==> sent.value == rating && submitting
      ensures sent.None? ==> submitting == old(submitting)
    {
      if rating > 0 && !submitting {
        submitting := true;
        return Some(rating);
      }
      return None;
    }

    /** The `finally` after `onSubmit` settles, whether it succeeded or threw. */
    method FinishSubmit()
      modifies this`submitting
      ensures !submitting
    {
      submitting := false;
    }

    /** Star `star` lights up when it is at most the hovered star, or the chosen rating when no
        star is hovered. */
    function StarActive(star: int): (active: bool)
      reads this
      ensures hoveredRating != 0 ==> (active <==> star <= hoveredRating)
      ensures hoveredRating == 0 ==> (active <==> star <= rating)
    {
      star <= (if hoveredRating != 0 then hoveredRating else rating)
    }

    /** The submit button is disabled while no star is chosen or a submission is in flight. */
    function SubmitDisabled(): (disabled: bool)
      reads this
      ensures disabled <==> rating == 0 || submitting
    {
      rating == 0 || submitting
    }

    /** The modal's title: an update exactly when there is an existing (non-zero) rating. */
    function Title(): (t: string)
      reads this
      ensures t in {"Update Your Rating", "Rate This Store"}
      ensures t == "Update Your Rating" <==> currentRating.Some? && currentRating.value != 0
    {
      if currentRating.Some? && currentRating.value != 0 then "Update Your Rating" else "Rate This Store"
    }

    /** The submit button's text. */
    function ButtonLabel(): (t: string)
      reads this
      ensures submitting ==> t == "Submitting..."
      ensures !submitting ==> (t == "Update Rating" <==> currentRating.Some? && currentRating.value != 0)
      ensures !submitting ==> t in {"Update Rating", "Submit Rating"}
    {
      if submitting then "Submitting..."
      else if currentRating.Some? && currentRating.value != 0 then "Update Rating"
      else "Submit Rating"
    }
  }

  /** With a non-negative rating (every star is 1 to 5 and the initial rating comes from the
      table), pressing an enabled submit button always passes the gate, and a disabled one
      never would. */
  lemma EnabledButtonSubmits(m: RatingModal)
    requires m.rating >= 0
    ensures !m.SubmitDisabled() <==> m.rating > 0 && !m.submitting
  {
  }
}
