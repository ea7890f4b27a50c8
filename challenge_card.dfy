/** The challenge card: a local like toggle over the card's own counter, and
    the card's own difficulty colour switch. */
module ChallengeCard {
  import opened JsText
  import opened SearchUtils

  /** The card's two state variables. */
  class LikeState {
    var isLiked: bool
    var likesCount: int

    /** The initial state: not liked, the challenge's own count. */
    constructor (likesCount: int)
      ensures !isLiked && this.likesCount == likesCount
    {
      isLiked := false;
      this.likesCount := likesCount;
    }

    /** The card's count differs from the challenge's stored count `base`
        exactly by this card's own like. */
    predicate CountsOwnLike(base: int)
      reads this
    {
      likesCount == base + (if isLiked then 1 else 0)
    }

    /** `handleLike`: flip the flag; the count goes down by one if the card
        was liked and up by one if it was not. */
    method HandleLike()
      modifies this
      ensures isLiked == !old(isLiked)
      ensures likesCount == if old(isLiked) then old(likesCount) - 1 else old(likesCount) + 1
      ensures forall base :: old(CountsOwnLike(base)) ==> CountsOwnLike(base)
    {
      var wasLiked := isLiked;
      isLiked := !wasLiked;
      likesCount := if wasLiked then likesCount - 1 else likesCount + 1;
    }
  }

  /** Two likes in a row restore both state variables. */
  method LikeTwiceRestores(card: LikeState)
    modifies card
    ensures card.isLiked == old(card.isLiked) && card.likesCount == old(card.likesCount)
  {
    card.HandleLike();
    card.HandleLike();
  }

  /** The card's `getDifficultyColor`: the same three colours on the
      lower-cased difficulty, but an unknown difficulty is shown as easy. */
  function CardDifficultyColor(difficulty: string): (r: Colours)
    ensures ToLower(difficulty) == "medium" <==> r == MediumColours
    ensures ToLower(difficulty) == "hard" <==> r == HardColours
    ensures ToLower(difficulty) !in {"medium", "hard"} <==> r == EasyColours
  {
    match ToLower(difficulty)
    case "easy" => EasyColours
    case "medium" => MediumColours
    case "hard" => HardColours
    case _ => EasyColours
  }

  /** The card agrees with the shared switch on the three known
      difficulties, whatever their case, and differs from it on every other
      value. */
  lemma CardColourAgreesOnKnown(difficulty: string)
    ensures ToLower(difficulty) in {"easy", "medium", "hard"} <==>
              CardDifficultyColor(difficulty) == DifficultyColor(difficulty)
    ensures CardDifficultyColor(ToLower(difficulty)) == CardDifficultyColor(difficulty)
  {
    ToLowerIdempotent(difficulty);
  }
}
