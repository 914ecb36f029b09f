/**
 * The star rating widget (app/components/ui/RatingInput.tsx): `max` buttons,
 * the k-th emitting the value k + 1 when clicked and shown active when that
 * value is at most the current score.
 */
module RatingInput {

  /** `max` when the caller gives none, as the evaluation form does. */
  const DefaultMax: nat := 5

  /** One star button: the value its click emits and whether it is drawn filled. */
  datatype Star = Star(value: int, active: bool)

  /** The buttons drawn for `score`, in order. */
  function Stars(score: int, max: nat := DefaultMax): (stars: seq<Star>)
    ensures |stars| == max
    ensures forall i, j :: 0 <= i < j < max && stars[j].active ==> stars[i].active
  {
    seq(max, i requires 0 <= i < max => Star(i + 1, i + 1 <= score))
  }

  /** The value the i-th button passes to `onChange` when clicked. */
  function OnClick(score: int, i: nat, max: nat := DefaultMax): (value: int)
    requires i < max
    ensures 1 <= value <= max
  {
    Stars(score, max)[i].value
  }

  /** Every value some button can emit. */
  function ClickValues(stars: seq<Star>): set<int> {
    set i | 0 <= i < |stars| :: stars[i].value
  }

  /** Number of filled stars. */
  function ActiveCount(stars: seq<Star>): nat {
    if stars == [] then 0 else (if stars[0].active then 1 else 0) + ActiveCount(stars[1..])
  }

  /**
   * Exactly `max` buttons, valued 1..max in increasing order, whatever the
   * score; five when no `max` is given.
   */
  lemma ButtonValues(score: int, max: nat)
    ensures |Stars(score)| == 5
    ensures |Stars(score, max)| == max
    ensures forall i :: 0 <= i < max ==> Stars(score, max)[i].value == i + 1
    ensures forall i, j :: 0 <= i < j < max ==> Stars(score, max)[i].value < Stars(score, max)[j].value
    ensures forall v :: v in ClickValues(Stars(score, max)) <==> 1 <= v <= max
  {
    var s := Stars(score, max);
    forall v | 1 <= v <= max ensures v in ClickValues(s) {
      assert s[v - 1].value == v;
    }
  }

  /** The star valued k is filled exactly when k is at most the score. */
  lemma ActiveIffAtMostScore(score: int, max: nat, k: int)
    requires 1 <= k <= max
    ensures Stars(score, max)[k - 1].value == k
    ensures Stars(score, max)[k - 1].active <==> k <= score
  {
  }

  lemma {:induction false} ActiveCountAppend(a: seq<Star>, b: seq<Star>)
    ensures ActiveCount(a + b) == ActiveCount(a) + ActiveCount(b)
  {
    if a != [] {
      assert (a + b)[1..] == a[1..] + b;
      ActiveCountAppend(a[1..], b);
    } else {
      assert a + b == b;
    }
  }

  /** The number of filled stars is the score clamped to [0, max]. */
  lemma {:induction false} ActiveCountIsClampedScore(score: int, max: nat)
    ensures ActiveCount(Stars(score, max)) == if score < 0 then 0 else if score > max then max else score
  {
    if max > 0 {
      ActiveCountIsClampedScore(score, max - 1);
      assert Stars(score, max) == Stars(score, max - 1) + [Star(max, max <= score)];
      ActiveCountAppend(Stars(score, max - 1), [Star(max, max <= score)]);
    }
  }

  /** For an integer score in [0, max], exactly `score` stars are filled. */
  lemma ActiveCountEqualsScore(score: int, max: nat)
    requires 0 <= score <= max
    ensures ActiveCount(Stars(score, max)) == score
  {
    ActiveCountIsClampedScore(score, max);
  }
}
