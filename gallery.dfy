/**
 * The gallery page: the list of past try-ons, each enriched with its images by
 * one request per entry, and the details modal with its star-rating feedback form.
 */
module Gallery {
  import opened JsObjects
  import opened Images

  /**
   * One entry of the `Promise.all` map. `body` is the parsed JSON of the entry's
   * image request, whatever its HTTP status, or `None` when the request or the
   * parse threw; then the entry is returned as it came.
   */
  function EnrichEntry(tryon: Record, body: Option<Record>): (entry: Record)
    ensures body.None? ==> entry == tryon
    ensures tryon.Keys <= entry.Keys
    ensures forall k :: k in tryon && k != GeneratedImageKey && k != OriginalImageKey ==> entry[k] == tryon[k]
    ensures body.Some? ==> entry.Keys == tryon.Keys + {GeneratedImageKey, OriginalImageKey}
    ensures body.Some? ==> PayloadOf(entry[GeneratedImageKey]) == Some(Field(body.value, GeneratedPayloadKey))
    ensures body.Some? ==> PayloadOf(entry[OriginalImageKey]) == Some(Field(body.value, OriginalPayloadKey))
  {
    match body
    case None => tryon
    case Some(b) => WithImages(tryon, b)
  }

  /** The enrichment of the fetched list: `bodies[i]` is the outcome of entry `i`'s image request. */
  function Enrich(tryons: seq<Record>, bodies: seq<Option<Record>>): (enriched: seq<Record>)
    requires |bodies| == |tryons|
    ensures |enriched| == |tryons|
  {
    if tryons == [] then []
    else [EnrichEntry(tryons[0], bodies[0])] + Enrich(tryons[1..], bodies[1..])
  }

  /** Entry `i` of the enriched list is entry `i` of the fetched list, enriched by its own outcome. */
  lemma {:induction false} EnrichAt(tryons: seq<Record>, bodies: seq<Option<Record>>, i: nat)
    requires |bodies| == |tryons| && i < |tryons|
    ensures Enrich(tryons, bodies)[i] == EnrichEntry(tryons[i], bodies[i])
  {
    if i > 0 {
      EnrichAt(tryons[1..], bodies[1..], i - 1);
    }
  }

  /** Same length and order; every entry keeps every field it had. */
  lemma EnrichKeepsEntries(tryons: seq<Record>, bodies: seq<Option<Record>>)
    requires |bodies| == |tryons|
    ensures |Enrich(tryons, bodies)| == |tryons|
    ensures forall i :: 0 <= i < |tryons| ==> tryons[i].Keys <= Enrich(tryons, bodies)[i].Keys
    ensures forall i, k :: 0 <= i < |tryons| && k in tryons[i] && k != GeneratedImageKey && k != OriginalImageKey ==>
              Enrich(tryons, bodies)[i][k] == tryons[i][k]
  {
    forall i | 0 <= i < |tryons|
      ensures Enrich(tryons, bodies)[i] == EnrichEntry(tryons[i], bodies[i])
    {
      EnrichAt(tryons, bodies, i);
    }
  }

  /** An entry whose image request threw comes back unchanged. */
  lemma EnrichSkipsFailed(tryons: seq<Record>, bodies: seq<Option<Record>>, i: nat)
    requires |bodies| == |tryons| && i < |tryons| && bodies[i].None?
    ensures Enrich(tryons, bodies)[i] == tryons[i]
  {
    EnrichAt(tryons, bodies, i);
  }

  /** An entry whose image request answered carries both images. */
  lemma EnrichAttachesImages(tryons: seq<Record>, bodies: seq<Option<Record>>, i: nat)
    requires |bodies| == |tryons| && i < |tryons| && bodies[i].Some?
    ensures Enrich(tryons, bodies)[i] == WithImages(tryons[i], bodies[i].value)
  {
    EnrichAt(tryons, bodies, i);
  }

  /** The outcome of one entry's request affects no other entry. */
  lemma EnrichEntriesIndependent(tryons: seq<Record>, bodies: seq<Option<Record>>, others: seq<Option<Record>>, i: nat)
    requires |bodies| == |tryons| && |others| == |tryons| && i < |tryons|
    requires bodies[i] == others[i]
    ensures Enrich(tryons, bodies)[i] == Enrich(tryons, others)[i]
  {
    EnrichAt(tryons, bodies, i);
    EnrichAt(tryons, others, i);
  }

  /**
   * A non-ok image response is not a failure: its error body is parsed and the
   * entry gets the data URI of the text `undefined`.
   */
  lemma ErrorBodyStillEnriches(tryon: Record, body: Record)
    requires GeneratedPayloadKey !in body && OriginalPayloadKey !in body
    ensures EnrichEntry(tryon, Some(body))[GeneratedImageKey] == PngDataUri("undefined")
    ensures EnrichEntry(tryon, Some(body))[OriginalImageKey] == PngDataUri("undefined")
  {
  }

  /** The feedback form: the chosen star rating and the comment. */
  datatype Feedback = Feedback(rating: int, comment: string)

  const NoFeedback := Feedback(0, "")

  /** The JSON body of `POST /api/feedback`. */
  datatype FeedbackPost = FeedbackPost(tryonId: string, rating: int, comment: string)

  /** What submitting the form sends: nothing while no star is chosen. */
  function FeedbackRequest(feedback: Feedback, tryonId: string): (post: Option<FeedbackPost>)
    ensures post.None? <==> feedback.rating == 0
    ensures post.Some? ==> post.value.tryonId == tryonId
    ensures post.Some? ==> post.value.rating == feedback.rating && post.value.comment == feedback.comment
  {
    if feedback.rating == 0 then None else Some(FeedbackPost(tryonId, feedback.rating, feedback.comment))
  }

  /** Star `star` (of the five) is drawn filled. */
  function StarFilled(rating: int, star: int): (filled: bool)
    ensures filled <==> star <= rating
  {
    rating >= star
  }

  function FilledStars(rating: int): set<int>
  {
    set star | 1 <= star <= 5 && StarFilled(rating, star)
  }

  /** With `rating` stars chosen, the filled stars are the first `rating` ones. */
  lemma {:induction false} FilledStarsArePrefix(rating: int)
    requires 0 <= rating <= 5
    ensures forall star :: star in FilledStars(rating) <==> 1 <= star <= rating
    ensures |FilledStars(rating)| == rating
  {
    if rating == 0 {
      assert FilledStars(0) == {};
    } else {
      FilledStarsArePrefix(rating - 1);
      assert FilledStars(rating) == FilledStars(rating - 1) + {rating};
    }
  }

  /** The gallery component's state. */
  class GalleryView {
    var tryons: seq<Record>
    var loading: bool
    var selectedTryon: Option<Record>
    var feedback: Feedback
    /** Feedback posts sent whose response has not arrived. */
    var postsInFlight: nat

    ghost predicate Valid()
      reads this
    {
      0 <= feedback.rating <= 5
    }

    constructor ()
      ensures Valid()
      ensures tryons == [] && loading && selectedTryon.None? && feedback == NoFeedback && postsInFlight == 0
    {
      tryons, loading, selectedTryon, feedback := [], true, None, NoFeedback;
      postsInFlight := 0;
    }

    /** The list request answered ok with `data`; `bodies[i]` is the outcome of entry `i`'s image request. */
    method ListLoaded(data: seq<Record>, bodies: seq<Option<Record>>)
      requires Valid() && |bodies| == |data|
      modifies this
      ensures Valid()
      ensures tryons == Enrich(data, bodies) && !loading
      ensures selectedTryon == old(selectedTryon) && feedback == old(feedback) && postsInFlight == old(postsInFlight)
    {
      tryons := Enrich(data, bodies);
      loading := false;
    }

    /** The list request threw, answered not ok, or its body was not a JSON list. */
    method ListFailed()
      requires Valid()
      modifies this
      ensures Valid()
      ensures tryons == old(tryons) && !loading
      ensures selectedTryon == old(selectedTryon) && feedback == old(feedback) && postsInFlight == old(postsInFlight)
    {
      loading := false;
    }

    /** "View Details" on one of the listed entries; the feedback form is not cleared. */
    method SelectTryon(tryon: Record)
      requires Valid() && tryon in tryons
      modifies this
      ensures Valid()
      ensures selectedTryon == Some(tryon)
      ensures tryons == old(tryons) && loading == old(loading) && feedback == old(feedback) && postsInFlight == old(postsInFlight)
    {
      selectedTryon := Some(tryon);
    }

    /** The modal's close buttons; the feedback form is not cleared. */
    method CloseDetails()
      requires Valid()
      modifies this
      ensures Valid()
      ensures selectedTryon.None?
      ensures tryons == old(tryons) && loading == old(loading) && feedback == old(feedback) && postsInFlight == old(postsInFlight)
    {
      selectedTryon := None;
    }

    /** A click on star `star` of the five. */
    method ClickStar(star: int)
      requires Valid() && 1 <= star <= 5
      modifies this
      ensures Valid()
      ensures feedback == old(feedback).(rating := star)
      ensures forall s :: 1 <= s <= 5 ==> (StarFilled(feedback.rating, s) <==> s <= star)
      ensures |FilledStars(feedback.rating)| == star
      ensures tryons == old(tryons) && loading == old(loading) && selectedTryon == old(selectedTryon)
      ensures postsInFlight == old(postsInFlight)
    {
      feedback := feedback.(rating := star);
      FilledStarsArePrefix(star);
    }

    /** Typing in the comment box. */
    method EditComment(comment: string)
      requires Valid()
      modifies this
      ensures Valid()
      ensures feedback == old(feedback).(comment := comment)
      ensures tryons == old(tryons) && loading == old(loading) && selectedTryon == old(selectedTryon)
      ensures postsInFlight == old(postsInFlight)
    {
      feedback := feedback.(comment := comment);
    }

    /**
     * "Submit Feedback" in the details modal, for the selected entry's id: the
     * post sent, if any; the form stays as it is.
     */
    method SubmitFeedback() returns (post: Option<FeedbackPost>)
      requires Valid() && selectedTryon.Some?
      modifies this
      ensures Valid()
      ensures post == FeedbackRequest(old(feedback), Field(old(selectedTryon).value, "id"))
      ensures postsInFlight == if post.Some? then old(postsInFlight) + 1 else old(postsInFlight)
      ensures tryons == old(tryons) && loading == old(loading) && selectedTryon == old(selectedTryon)
      ensures feedback == old(feedback)
    {
      post := FeedbackRequest(feedback, Field(selectedTryon.value, "id"));
      if post.Some? {
        postsInFlight := postsInFlight + 1;
      }
    }

    /** The response to a feedback post: on success the form is reset and the modal closed. */
    method FeedbackSettled(ok: bool)
      requires Valid() && postsInFlight > 0
      modifies this
      ensures Valid()
      ensures postsInFlight == old(postsInFlight) - 1
      ensures ok ==> feedback == NoFeedback && selectedTryon.None?
      ensures ok ==> FilledStars(feedback.rating) == {}
      ensures !ok ==> feedback == old(feedback) && selectedTryon == old(selectedTryon)
      ensures tryons == old(tryons) && loading == old(loading)
    {
      postsInFlight := postsInFlight - 1;
      if ok {
        feedback := NoFeedback;
        selectedTryon := None;
        FilledStarsArePrefix(0);
      }
    }
  }
}
