/** What only the speech page does: it polls up to 30 times and replaces a card wholesale
    with the server's record, shows a flag per language, and takes a direct link only from
    the `download_url` of a JSON download answer. */
module SpeechPage {
  import opened Outcomes
  import opened Text
  import opened MediaPages

  const MaxPollAttempts := 30

  /** The speech page reads nothing beyond id, prompt and status. */
  datatype SpeechDetails = SpeechDetails

  type SpeechCard = Card<SpeechDetails>

  /** The refreshed card is the server's record as it is. */
  function Replace(current: SpeechCard, updated: SpeechCard): SpeechCard {
    updated
  }

  /** When every answer is about the polled id and the last one succeeded, each card of that
      id ends up exactly as the last record. */
  lemma {:induction false} PollingReplacesWholesale(cards: seq<SpeechCard>, id: string, answers: seq<Result<SpeechCard, string>>)
    requires answers != [] && answers[|answers| - 1].Success?
    requires forall k :: 0 <= k < |answers| && answers[k].Success? ==> answers[k].value.id == id
    ensures forall i :: 0 <= i < |cards| && cards[i].id == id ==>
      Polled(cards, id, answers, Replace)[i] == answers[|answers| - 1].value
  {
    var prefix := answers[..|answers| - 1];
    KeepsMatchingIds(cards, id, prefix);
  }

  /** Cards of the polled id keep it while every record returned carries it. */
  lemma {:induction false} KeepsMatchingIds(cards: seq<SpeechCard>, id: string, answers: seq<Result<SpeechCard, string>>)
    requires forall k :: 0 <= k < |answers| && answers[k].Success? ==> answers[k].value.id == id
    ensures forall i :: 0 <= i < |cards| && cards[i].id == id ==> Polled(cards, id, answers, Replace)[i].id == id
  {
    if answers != [] {
      KeepsMatchingIds(cards, id, answers[..|answers| - 1]);
    }
  }

  /** `pollSpeechStatus`: at most 30 requests, each answer replacing the card wholesale. */
  method PollSpeechStatus(page: MediaPage<SpeechDetails>, id: string, answers: seq<Result<SpeechCard, string>>)
    returns (requests: nat)
    requires MaxPollAttempts <= |answers|
    modifies page
    ensures 1 <= requests <= MaxPollAttempts
    ensures page.cards == Polled(old(page.cards), id, answers[..requests], Replace)
  {
    requests := page.PollStatus(id, MaxPollAttempts, answers, Replace);
  }

  /** `loadAudioBlob`: only a JSON answer with `download_url` is shown through a link, with
      the storage host rewritten; any other answer is shown from its bytes. */
  function SpeechSource(answer: Download): (source: MediaSource)
    ensures source.Direct? <==> answer.JsonLinks? && answer.downloadUrl != ""
    ensures source.Direct? ==> source.link == RewriteMinioHost(answer.downloadUrl)
  {
    if answer.JsonLinks? && answer.downloadUrl != "" then Direct(RewriteMinioHost(answer.downloadUrl)) else FromBlob
  }

  /** The ten language codes with a flag. */
  const FlaggedLanguages := {"es", "en", "fr", "de", "it", "pt", "zh", "ja", "ko", "ru"}

  /** The globe shown for any other language. */
  const Globe := "\U{1F310}"

  /** A flag emoji: the regional indicator symbols of a two-letter country code. */
  function Flag(country: string): (f: string)
    requires |country| == 2 && forall i :: 0 <= i < 2 ==> 'A' <= country[i] <= 'Z'
    ensures |f| == 2 && f != Globe
  {
    [(0x1F1E6 + (country[0] - 'A') as int) as char, (0x1F1E6 + (country[1] - 'A') as int) as char]
  }

  /** The country whose flag `getLanguageFlag` shows for a listed language (English the
      United States, Chinese China, Japanese Japan, Korean Korea, the rest their own
      country); the empty string for any other code. */
  function FlagCountry(language: string): (country: string)
    ensures country == "" <==> language !in FlaggedLanguages
    ensures country != "" ==> |country| == 2 && forall i :: 0 <= i < 2 ==> 'A' <= country[i] <= 'Z'
  {
    if language == "es" then "ES"
    else if language == "en" then "US"
    else if language == "fr" then "FR"
    else if language == "de" then "DE"
    else if language == "it" then "IT"
    else if language == "pt" then "PT"
    else if language == "zh" then "CN"
    else if language == "ja" then "JP"
    else if language == "ko" then "KR"
    else if language == "ru" then "RU"
    else ""
  }

  /** The listed language whose flag is that of `country`. */
  function CountryLanguage(country: string): string {
    if country == "ES" then "es"
    else if country == "US" then "en"
    else if country == "FR" then "fr"
    else if country == "DE" then "de"
    else if country == "IT" then "it"
    else if country == "PT" then "pt"
    else if country == "CN" then "zh"
    else if country == "JP" then "ja"
    else if country == "KR" then "ko"
    else "ru"
  }

  /** Each listed language is recovered from its country, so no two share a country. */
  lemma FlagCountryInverse(language: string)
    requires language in FlaggedLanguages
    ensures CountryLanguage(FlagCountry(language)) == language
  {
    if language == "es" {
    } else if language == "en" {
    } else if language == "fr" {
    } else if language == "de" {
    } else if language == "it" {
    } else if language == "pt" {
    } else if language == "zh" {
    } else if language == "ja" {
    } else if language == "ko" {
    } else {
      assert language == "ru";
    }
  }

  /** `getLanguageFlag`: the flag of the language's country for the ten listed codes, the
      globe for any other code. */
  function LanguageFlag(language: string): (flag: string)
    ensures flag == Globe <==> language !in FlaggedLanguages
  {
    var country := FlagCountry(language);
    if country == "" then Globe else Flag(country)
  }

  /** Different countries have different flags. */
  lemma FlagInjective(c: string, d: string)
    requires |c| == 2 && forall i :: 0 <= i < 2 ==> 'A' <= c[i] <= 'Z'
    requires |d| == 2 && forall i :: 0 <= i < 2 ==> 'A' <= d[i] <= 'Z'
    requires c != d
    ensures Flag(c) != Flag(d)
  {
    if c[0] == d[0] {
      assert c[1] != d[1];
      assert Flag(c)[1] != Flag(d)[1];
    } else {
      assert Flag(c)[0] != Flag(d)[0];
    }
  }

  /** Different listed languages get different flags. */
  lemma FlagsDistinct(a: string, b: string)
    requires a in FlaggedLanguages && b in FlaggedLanguages && a != b
    ensures LanguageFlag(a) != LanguageFlag(b)
  {
    FlagCountryInverse(a);
    FlagCountryInverse(b);
    FlagInjective(FlagCountry(a), FlagCountry(b));
  }
}
