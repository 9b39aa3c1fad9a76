/** The OCR keyword matcher of the frame loop. The recognised fragments are
    joined with spaces and upper-cased; the first keyword of an ordered list
    that occurs in that text wins, except that the numeric keywords "4" and
    "6" must stand as a whole space-delimited word, so that the digits of a
    score overlay such as "14" do not count. */
module OcrKeywords {
  import opened Text
  import opened Wrappers

  const OCR_KEYWORDS: seq<string> :=
    ["4", "6", "OUT", "WICKET", "APPEAL", "REVIEW", "BOWLED", "CAUGHT", "CENTURY"]
  /** Seconds between two scans. */
  const OCR_INTERVAL: real := 0.4

  predicate Numeric(k: string) {
    k == "4" || k == "6"
  }

  /** The text around which the whole-word test looks for " k ". */
  function Padded(s: string): string {
    " " + s + " "
  }

  /** Keyword `k` is accepted for the recognised `text`. For "4" and "6"
      the whole-word test alone decides: a padded match is also a plain one. */
  predicate Qualifies(k: string, text: string)
    ensures Numeric(k) ==> (Qualifies(k, text) <==> Contains(Padded(text), Padded(k)))
    ensures !Numeric(k) ==> (Qualifies(k, text) <==> Contains(text, k))
  {
    PaddedImpliesPlain(k, text);
    Contains(text, k) && (Numeric(k) ==> Contains(Padded(text), Padded(k)))
  }

  /** A one-character word found in the padded text is found in the text. */
  lemma PaddedImpliesPlain(k: string, text: string)
    ensures |k| == 1 && Contains(Padded(text), Padded(k)) ==> Contains(text, k)
  {
    if |k| == 1 && Contains(Padded(text), Padded(k)) {
      var p := Padded(text);
      var i :| 0 <= i <= |p| - 3 && OccursAt(p, Padded(k), i);
      assert p[i + 1] == k[0];
      assert text[i] == p[i + 1];
      assert text[i..i + 1] == k;
      ContainsWitness(text, k, i);
    }
  }

  /** `" ".join(fragments).upper()`: no lower-case ASCII letter is left, so
      the upper-case keywords are found whatever case the OCR reads. */
  function OcrText(fragments: seq<string>): (text: string)
    ensures |text| == |JoinWithSpace(fragments)|
    ensures forall i :: 0 <= i < |text| ==> !('a' <= text[i] <= 'z')
  {
    Upper(JoinWithSpace(fragments))
  }

  /** Index of the first keyword of `keys` that qualifies, or `|keys|`. */
  function FirstQualifying(keys: seq<string>, text: string): (i: nat)
    ensures i <= |keys|
    ensures i < |keys| ==> Qualifies(keys[i], text)
    ensures forall j :: 0 <= j < i ==> !Qualifies(keys[j], text)
  {
    if keys == [] then 0
    else if Qualifies(keys[0], text) then 0
    else 1 + FirstQualifying(keys[1..], text)
  }

  /** The keyword the scan reports for `text`, if any. */
  function MatchKeyword(text: string): (r: Option<string>)
    ensures r.Some? ==> r.value in OCR_KEYWORDS && Qualifies(r.value, text)
    ensures r.Some? ==> exists i :: 0 <= i < |OCR_KEYWORDS| && OCR_KEYWORDS[i] == r.value &&
                          forall j :: 0 <= j < i ==> !Qualifies(OCR_KEYWORDS[j], text)
    ensures r.None? <==> forall j :: 0 <= j < |OCR_KEYWORDS| ==> !Qualifies(OCR_KEYWORDS[j], text)
  {
    var i := FirstQualifying(OCR_KEYWORDS, text);
    if i < |OCR_KEYWORDS| then Some(OCR_KEYWORDS[i]) else None
  }

  /** The scan loop: try the keywords in order, skip a numeric keyword that
      is not a whole word, stop at the first accepted one. */
  method ScanKeywords(text: string) returns (found: Option<string>)
    ensures found == MatchKeyword(text)
  {
    found := None;
    var n := 0;
    while n < |OCR_KEYWORDS|
      invariant 0 <= n <= |OCR_KEYWORDS|
      invariant forall j :: 0 <= j < n ==> !Qualifies(OCR_KEYWORDS[j], text)
    {
      var k := OCR_KEYWORDS[n];
      if Contains(text, k) {
        if !(Numeric(k) && !Contains(Padded(text), Padded(k))) {
          found := Some(k);
          break;
        }
      }
      n := n + 1;
    }
    assert found.Some? ==> found.value == OCR_KEYWORDS[n] && Qualifies(found.value, text);
    assert found.None? ==> n == |OCR_KEYWORDS|;
  }

  /** Inside a padded single token, a padded one-character word can only
      sit at the very start, and then it is the whole token. */
  lemma PaddedWordInToken(token: string, k: string, i: int)
    requires forall j :: 0 <= j < |token| ==> token[j] != ' '
    requires |k| == 1 && k[0] != ' '
    requires OccursAt(Padded(token), Padded(k), i)
    ensures token == k
  {
    var p := Padded(token);
    assert p[i..i + 3] == Padded(k);
    assert p[i] == ' ' && p[i + 1] == k[0] && p[i + 2] == ' ';
    assert forall j :: 1 <= j <= |token| ==> p[j] == token[j - 1];
    assert i == 0 && |token| == 1;
    assert token == [p[1]];
  }

  /** A single token other than `k` itself never contains `k` as a whole
      word: "14", "41" and "45" do not yield "4". */
  lemma {:induction false} TokenIsNotWholeWord(token: string, k: string)
    requires forall i :: 0 <= i < |token| ==> token[i] != ' '
    requires |k| == 1 && k[0] != ' ' && token != k
    ensures !Contains(Padded(token), Padded(k))
  {
    if Contains(Padded(token), Padded(k)) {
      var i :| 0 <= i <= |token| && OccursAt(Padded(token), Padded(k), i);
      PaddedWordInToken(token, k, i);
      assert false;
    }
  }

  lemma EmbeddedFourIsNotMatched()
    ensures MatchKeyword("14") != Some("4")
    ensures MatchKeyword("41") != Some("4")
    ensures MatchKeyword("45") != Some("4")
  {
    TokenIsNotWholeWord("14", "4");
    TokenIsNotWholeWord("41", "4");
    TokenIsNotWholeWord("45", "4");
  }

  lemma WholeWordFourIsMatched()
    ensures MatchKeyword("SCORE 4 RUNS") == Some("4")
  {
    var text := "SCORE 4 RUNS";
    assert OccursAt(text, "4", 6);
    ContainsWitness(text, "4", 6);
    assert OccursAt(Padded(text), Padded("4"), 6);
    ContainsWitness(Padded(text), Padded("4"), 6);
    assert Qualifies(OCR_KEYWORDS[0], text);
  }
}
