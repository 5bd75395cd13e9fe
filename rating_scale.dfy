/**
  The rating scale offered by every rating select of the survey: the six
  option values and the label each option shows.

  The label is the ternary chain repeated in every rating form; it is total
  over strings, so any value other than "0".."4" (including "5", "", or text
  the select never offers) shows the top label.
*/
module RatingScale {

  /** The values offered by every rating select (`ratingOptions`). */
  const RatingOptions: seq<string> := ["0", "1", "2", "3", "4", "5"]

  /** The scale's labels, indexed by the rating's numeric value. */
  const ScaleLabels: seq<string> := ["No aplica/Sin evidencia", "Muy bajo", "Bajo", "Medio", "Alto", "Muy alto"]

  /** The label shown beside a rating option. */
  function RatingLabel(rating: string): (caption: string)
    ensures caption in ScaleLabels
    ensures caption == ScaleLabels[5] <==> rating !in {"0", "1", "2", "3", "4"}
  {
    LabelsDistinct();
    if rating == "0" then "No aplica/Sin evidencia"
    else if rating == "1" then "Muy bajo"
    else if rating == "2" then "Bajo"
    else if rating == "3" then "Medio"
    else if rating == "4" then "Alto"
    else "Muy alto"
  }

  /** No two labels of the scale are the same text. */
  lemma LabelsDistinct()
    ensures forall i, j :: 0 <= i < j < |ScaleLabels| ==> ScaleLabels[i] != ScaleLabels[j]
  {
    assert ScaleLabels[2][0] == 'B' && ScaleLabels[4][0] == 'A';
    assert ScaleLabels[1][4] == 'b' && ScaleLabels[5][4] == 'a';
  }

  /** The offered values are exactly the single decimal digits 0 to 5, in order. */
  lemma RatingOptionsAreDigits()
    ensures |RatingOptions| == 6
    ensures forall i :: 0 <= i < 6 ==> RatingOptions[i] == [('0' as int + i) as char]
  {
  }

  /**
    Each offered value shows the label of its numeric value, so the six
    options show six different labels.
  */
  lemma OfferedLabels()
    ensures forall i :: 0 <= i < |RatingOptions| ==> RatingLabel(RatingOptions[i]) == ScaleLabels[i]
    ensures forall i, j :: 0 <= i < j < |RatingOptions| ==>
      RatingLabel(RatingOptions[i]) != RatingLabel(RatingOptions[j])
  {
  }
}
