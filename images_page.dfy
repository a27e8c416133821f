/** What only the image page does: it polls up to 60 times, keeps the prompt a card already
    shows when an image's status is refreshed, and takes a direct link from any of three
    fields of a JSON download answer. */
module ImagesPage {
  import opened Outcomes
  import opened Text
  import opened MediaPages

  const MaxPollAttempts := 60

  /** What the page reads from an image record beyond id, prompt and status: the prompt in
      its generation parameters (empty when absent). */
  datatype ImageDetails = ImageDetails(paramsPrompt: string)

  type ImageCard = Card<ImageDetails>

  /** The refreshed card: the server's record, whose prompt is the card's own, else the
      server's, else the one in the generation parameters. */
  function KeepPrompt(current: ImageCard, updated: ImageCard): (card: ImageCard)
    ensures card.id == updated.id && card.status == updated.status && card.details == updated.details
    ensures current.prompt != "" ==> card.prompt == current.prompt
    ensures current.prompt == "" && updated.prompt != "" ==> card.prompt == updated.prompt
    ensures current.prompt == "" && updated.prompt == "" ==> card.prompt == updated.details.paramsPrompt
  {
    updated.(prompt := if current.prompt != "" then current.prompt
                       else if updated.prompt != "" then updated.prompt
                       else updated.details.paramsPrompt)
  }

  /** However many status answers arrive, a card that showed a prompt still shows it. */
  lemma {:induction false} PollingKeepsShownPrompts(cards: seq<ImageCard>, id: string, answers: seq<Result<ImageCard, string>>)
    ensures forall i :: 0 <= i < |cards| && cards[i].prompt != "" ==>
      Polled(cards, id, answers, KeepPrompt)[i].prompt == cards[i].prompt
  {
    if answers != [] {
      PollingKeepsShownPrompts(cards, id, answers[..|answers| - 1]);
    }
  }

  /** `pollImageStatus`: at most 60 requests, and prompts already on screen survive. */
  method PollImageStatus(page: MediaPage<ImageDetails>, id: string, answers: seq<Result<ImageCard, string>>)
    returns (requests: nat)
    requires MaxPollAttempts <= |answers|
    modifies page
    ensures 1 <= requests <= MaxPollAttempts
    ensures page.cards == Polled(old(page.cards), id, answers[..requests], KeepPrompt)
    ensures forall i :: 0 <= i < |page.cards| && old(page.cards)[i].prompt != "" ==>
      page.cards[i].prompt == old(page.cards)[i].prompt
  {
    requests := page.PollStatus(id, MaxPollAttempts, answers, KeepPrompt);
    PollingKeepsShownPrompts(old(page.cards), id, answers[..requests]);
  }

  /** `loadImageBlob`: a JSON answer with a link (`url`, else `signedUrl`, else
      `downloadUrl`) is shown through that link with the storage host rewritten; any other
      answer is shown from its bytes. */
  function ImageSource(answer: Download): (source: MediaSource)
    ensures source.Direct? <==> answer.JsonLinks? && (answer.url != "" || answer.signedUrl != "" || answer.downloadUrl != "")
    ensures source.Direct? && answer.url != "" ==> source.link == RewriteMinioHost(answer.url)
    ensures source.Direct? && answer.url == "" && answer.signedUrl != "" ==> source.link == RewriteMinioHost(answer.signedUrl)
    ensures source.Direct? && answer.url == "" && answer.signedUrl == "" ==> source.link == RewriteMinioHost(answer.downloadUrl)
  {
    match answer
    case Binary => FromBlob
    case JsonLinks(url, signedUrl, downloadUrl) =>
      if url != "" then Direct(RewriteMinioHost(url))
      else if signedUrl != "" then Direct(RewriteMinioHost(signedUrl))
      else if downloadUrl != "" then Direct(RewriteMinioHost(downloadUrl))
      else FromBlob
  }
}
