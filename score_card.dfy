// The score card of src/pongo/score_card.rs: a player's score, changed in
// place by the ball step and cleared by reset. The font it draws with is
// not part of this model.

module ScoreCardEntity {
  import opened Common

  class ScoreCard {
    const color: Color
    const x: real
    const y: real
    const width: real
    const height: real
    var score: int

    /** A score card showing no points. */
    constructor (color: Color, x: real, y: real, width: real, height: real)
      ensures this.color == color && this.x == x && this.y == y
      ensures this.width == width && this.height == height
      ensures score == 0
    {
      this.color := color;
      this.x := x;
      this.y := y;
      this.width := width;
      this.height := height;
      score := 0;
    }

    /** Clear the score; the card's placement is constant. */
    method Reset()
      modifies this
      ensures score == 0
    {
      score := 0;
    }
  }
}
