/**
 * The clean-up applied to a voice transcript before it is captured: a
 * transcript holding nothing but whitespace and punctuation is dropped.
 */
module TranscriptSanitizers {
  import opened Text

  /** The characters of the punctuation set: . , ; : ! ? and the ellipsis, em
      dash, hyphen-minus, bullet and middle dot. */
  const Punctuation: set<char> := {'.', ',', ';', ':', '!', '?', '\U{2026}', '\U{2014}', '-', '\U{2022}', '\U{B7}'}

  /** A character a transcript may hold without saying anything. */
  predicate IsFiller(c: char) {
    c in Punctuation || IsWhitespace(c)
  }

  predicate AllFiller(s: string) {
    forall i :: 0 <= i < |s| ==> IsFiller(s[i])
  }

  /** `TranscriptSanitizer.clean`: the trimmed transcript, or nothing when the
      trimmed transcript is empty or all filler. */
  function Clean(raw: string): (r: string)
    ensures r == "" || r == Trim(raw)
  {
    var trimmed := Trim(raw);
    if trimmed == "" then ""
    else if AllFiller(trimmed) then ""
    else trimmed
  }

  /** Blank input cleans to nothing. */
  lemma BlankCleansToEmpty(raw: string)
    requires AllWhitespace(raw)
    ensures Clean(raw) == ""
  {
    TrimEmptyIff(raw);
  }

  /** A transcript cleans to nothing exactly when every character of it is
      whitespace or listed punctuation; otherwise it cleans to its trimming. */
  lemma {:induction false} CleanEmptyIff(raw: string)
    ensures Clean(raw) == "" <==> AllFiller(raw)
    ensures !AllFiller(raw) ==> Clean(raw) == Trim(raw)
  {
    FillerSurvivesTrim(raw);
    if Trim(raw) == "" {
      TrimEmptyIff(raw);
    }
  }

  /** Trimming removes only whitespace, so the trimmed transcript is all filler
      exactly when the transcript is. */
  lemma {:induction false} FillerSurvivesTrim(raw: string)
    ensures AllFiller(Trim(raw)) <==> AllFiller(raw)
  {
    var t := Trim(raw);
    if AllFiller(raw) {
      forall j | 0 <= j < |t| ensures IsFiller(t[j]) {
        TrimAt(raw, j);
      }
    }
    if AllFiller(t) {
      forall i | 0 <= i < |raw| ensures IsFiller(raw[i]) {
        TrimmedAt(raw, i);
      }
    }
  }

  /** Cleaning twice is cleaning once. */
  lemma {:induction false} CleanIdempotent(raw: string)
    ensures Clean(Clean(raw)) == Clean(raw)
  {
    var r := Clean(raw);
    if r != "" {
      TrimIdempotent(raw);
    }
  }
}
