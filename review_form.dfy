/** The review form under a product (components/ReviewForm.tsx): a star
    rating and a text, checked on submit, with the rating checked first. */
module ReviewForm {
  import opened Types
  import Text

  const RatingMissing: string := "يرجى تحديد تقييم بالنجوم."
  const TextTooShort: string := "يرجى كتابة مراجعة لا تقل عن 10 أحرف."

  /** The smallest `length` (in UTF-16 code units) the trimmed text must have. */
  const MinLength: nat := 10

  /** The error a submission reports, or none when it goes through: no
      rating first, then a trimmed text shorter than ten characters. */
  function Problem(rating: int, reviewText: string): (e: Option<string>)
    ensures e == Some(RatingMissing) <==> rating == 0
    ensures e == Some(TextTooShort) <==> rating != 0 && Text.JsLength(Text.Trim(reviewText)) < MinLength
    ensures e.None? <==> rating != 0 && Text.JsLength(Text.Trim(reviewText)) >= MinLength
  {
    if rating == 0 then Some(RatingMissing)
    else if Text.JsLength(Text.Trim(reviewText)) < MinLength then Some(TextTooShort)
    else None
  }

  /** Surrounding white space does not count towards the length: ten spaces
      around a short word are still too short. */
  lemma PaddingDoesNotCount(word: string, pad: string)
    requires Text.JsLength(word) < MinLength
    requires forall k :: 0 <= k < |pad| ==> Text.IsSpace(pad[k])
    ensures Text.JsLength(Text.Trim(pad + word + pad)) < MinLength
  {
    var s := pad + word + pad;
    var r := Text.Trim(s);
    Text.TrimShape(s);
    var i :| Text.Bracketed(s, r, i);
    if r != [] {
      assert !Text.IsSpace(r[0]) && !Text.IsSpace(r[|r| - 1]);
      assert s[i] == r[0] && s[i + |r| - 1] == r[|r| - 1];
      assert |pad| <= i;
      assert i + |r| - 1 < |pad| + |word|;
      var a := i - |pad|;
      assert r == word[a..a + |r|];
      Text.JsLengthSlice(word, a, a + |r|);
    }
  }

  /** The length counts code units, not characters: five characters beyond
      U+FFFF make a length of ten, which is long enough. */
  lemma SurrogatePairsCountTwice()
    ensures Text.JsLength("\U{1F600}\U{1F600}\U{1F600}\U{1F600}\U{1F600}") == 10
    ensures Problem(5, "\U{1F600}\U{1F600}\U{1F600}\U{1F600}\U{1F600}").None?
  {
    var s := "\U{1F600}\U{1F600}\U{1F600}\U{1F600}\U{1F600}";
    Text.JsLengthBounds(s);
    Text.TrimShape(s);
    assert Text.Trim(s) == s;
  }

  datatype Submission = Submission(rating: int, reviewText: string)

  /** The form's state. */
  class Form {
    var rating: int
    var reviewText: string
    var error: string

    constructor()
      ensures rating == 0 && reviewText == "" && error == ""
    {
      rating := 0;
      reviewText := "";
      error := "";
    }

    /** The star picker. */
    method SetRating(r: int)
      modifies this
      ensures rating == r && reviewText == old(reviewText) && error == old(error)
    {
      rating := r;
    }

    /** The text area. */
    method SetText(t: string)
      modifies this
      ensures reviewText == t && rating == old(rating) && error == old(error)
    {
      reviewText := t;
    }

    /** `handleSubmit`: a rejected form keeps its input and shows the
      error; an accepted one sends the rating and the text as typed, not
      trimmed, and starts over empty. */
    method Submit() returns (sent: Option<Submission>)
      modifies this
      ensures var e := Problem(old(rating), old(reviewText));
              if e.Some? then
                sent.None? && error == e.value && rating == old(rating) && reviewText == old(reviewText)
              else
                sent == Some(Submission(old(rating), old(reviewText))) && error == "" && rating == 0 && reviewText == ""
    {
      if rating == 0 {
        error := RatingMissing;
        return None;
      }
      if Text.JsLength(Text.Trim(reviewText)) < MinLength {
        error := TextTooShort;
        return None;
      }
      error := "";
      sent := Some(Submission(rating, reviewText));
      rating := 0;
      reviewText := "";
    }
  }
}
