/**
 * The fallback transcript scraper of GPTService (`ExtractTranscriptFromJson`): plain index
 * arithmetic over the raw response text, used when the structured parse finds no results.
 */
module Transcript {
  import opened Wrappers

  /** The key the scraper looks for: a quote, `transcript`, a quote and a colon. */
  const TranscriptKey: string := "\"transcript\":"

  /** `pat` occurs in `s` starting at index `i`. */
  predicate MatchesAt(s: string, pat: string, i: int)
  {
    0 <= i && i + |pat| <= |s| && s[i..i + |pat|] == pat
  }

  /**
   * `s.IndexOf(pat, from)` (ordinal): the first index at or after `from` where `pat` occurs,
   * or -1 when there is none.
   */
  function IndexOf(s: string, pat: string, from: nat): (r: int)
    requires from <= |s|
    ensures r == -1 || (from <= r && MatchesAt(s, pat, r))
    ensures r == -1 ==> forall i :: from <= i ==> !MatchesAt(s, pat, i)
    ensures r != -1 ==> forall i :: from <= i < r ==> !MatchesAt(s, pat, i)
    decreases |s| - from
  {
    if from + |pat| > |s| then -1
    else if s[from..from + |pat|] == pat then from
    else IndexOf(s, pat, from + 1)
  }

  /** `s.Contains(pat)`: `pat` occurs somewhere in `s`. */
  function Contains(s: string, pat: string): (b: bool)
    ensures b <==> exists i :: MatchesAt(s, pat, i)
  {
    IndexOf(s, pat, 0) != -1
  }

  /** The character `"`, as a one-character string. */
  const Quote: string := "\""

  /**
   * `ExtractTranscriptFromJson`: after the first `"transcript":`, the text between the next
   * quote at or after the end of the key and the quote that follows it; null otherwise.
   * The source skips 13 characters, the length of the key.
   */
  function ExtractTranscriptFromJson(json: string): (transcript: Option<string>)
    ensures transcript.Some? ==> |transcript.value| > 0 && '"' !in transcript.value
  {
    var transcriptIndex := IndexOf(json, TranscriptKey, 0);
    if transcriptIndex >= 0 then
      var startQuote := IndexOf(json, Quote, transcriptIndex + 13) + 1;
      var endQuote := IndexOf(json, Quote, startQuote);
      if startQuote > 0 && endQuote > startQuote then
        QuoteFree(json, startQuote, endQuote);
        Some(json[startQuote..endQuote])
      else None
    else None
  }

  /** The first occurrence of `pat` at or after `from` is at `i`. */
  ghost predicate FirstMatchFrom(s: string, pat: string, from: int, i: int)
  {
    from <= i && MatchesAt(s, pat, i) && forall j :: from <= j < i ==> !MatchesAt(s, pat, j)
  }

  /** `pat` does not occur at or after `from`. */
  ghost predicate NoMatchFrom(s: string, pat: string, from: int)
  {
    forall j :: from <= j ==> !MatchesAt(s, pat, j)
  }

  /**
   * A transcript found by the scraper is the non-empty, quote-free text from one past the
   * first quote at or after the end of the first key, up to the next quote.
   */
  lemma ExtractedTranscript(json: string) returns (keyIndex: int, s: int, e: int)
    requires ExtractTranscriptFromJson(json).Some?
    ensures FirstMatchFrom(json, TranscriptKey, 0, keyIndex)
    ensures FirstMatchFrom(json, Quote, keyIndex + |TranscriptKey|, s - 1)
    ensures FirstMatchFrom(json, Quote, s, e)
    ensures 0 < s < e <= |json|
    ensures ExtractTranscriptFromJson(json) == Some(json[s..e])
    ensures |json[s..e]| > 0 && '"' !in json[s..e]
  {
    keyIndex := IndexOf(json, TranscriptKey, 0);
    s := IndexOf(json, Quote, keyIndex + 13) + 1;
    e := IndexOf(json, Quote, s);
    QuoteFree(json, s, e);
  }

  /** Text that ends at the first quote from its start holds no quote. */
  lemma QuoteFree(json: string, s: int, e: int)
    requires 0 <= s && FirstMatchFrom(json, Quote, s, e)
    ensures '"' !in json[s..e]
  {
    forall i | s <= i < e
      ensures json[i] != '"'
    {
      assert !MatchesAt(json, Quote, i);
      assert json[i..i + 1] == [json[i]];
    }
  }

  /** At most one index is the first occurrence. */
  lemma FirstMatchUnique(s: string, pat: string, from: int, i: int, j: int)
    requires FirstMatchFrom(s, pat, from, i) && FirstMatchFrom(s, pat, from, j)
    ensures i == j
  {
  }

  /**
   * The scraper yields null when the key is missing, when no quote follows it, or when the
   * quote after it is followed by no other quote or immediately by another one.
   * `ScraperFinds` shows that in every other case the scraper returns the quoted text.
   */
  lemma ExtractTranscriptNone(json: string, k: int, q: int)
    ensures NoMatchFrom(json, TranscriptKey, 0) ==> ExtractTranscriptFromJson(json).None?
    ensures FirstMatchFrom(json, TranscriptKey, 0, k) && NoMatchFrom(json, Quote, k + |TranscriptKey|)
            ==> ExtractTranscriptFromJson(json).None?
    ensures FirstMatchFrom(json, TranscriptKey, 0, k) && FirstMatchFrom(json, Quote, k + |TranscriptKey|, q)
            && (NoMatchFrom(json, Quote, q + 1) || MatchesAt(json, Quote, q + 1))
            ==> ExtractTranscriptFromJson(json).None?
  {
    var key := IndexOf(json, TranscriptKey, 0);
    if key >= 0 && FirstMatchFrom(json, TranscriptKey, 0, k) {
      FirstMatchUnique(json, TranscriptKey, 0, key, k);
      var quote := IndexOf(json, Quote, key + 13);
      if quote >= 0 && FirstMatchFrom(json, Quote, k + |TranscriptKey|, q) {
        FirstMatchUnique(json, Quote, k + |TranscriptKey|, quote, q);
      }
    }
  }

  /**
   * The converse: when the first key is followed by a quote, and that quote by a later,
   * non-adjacent quote, the scraper returns exactly the text between the two quotes.
   */
  lemma ScraperFinds(json: string, k: int, q: int, e: int)
    requires FirstMatchFrom(json, TranscriptKey, 0, k)
    requires FirstMatchFrom(json, Quote, k + |TranscriptKey|, q)
    requires FirstMatchFrom(json, Quote, q + 1, e) && e > q + 1
    ensures ExtractTranscriptFromJson(json) == Some(json[q + 1..e])
  {
    var key := IndexOf(json, TranscriptKey, 0);
    assert key != -1;
    FirstMatchUnique(json, TranscriptKey, 0, key, k);
    var quote := IndexOf(json, Quote, key + 13);
    assert quote != -1;
    FirstMatchUnique(json, Quote, k + |TranscriptKey|, quote, q);
    var end := IndexOf(json, Quote, quote + 1);
    assert end != -1;
    FirstMatchUnique(json, Quote, q + 1, end, e);
  }
}
