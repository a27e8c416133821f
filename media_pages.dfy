/** What the image and the speech dashboard pages share, line for line: relative times,
    status badges, the history of generated items kept in the browser (reconciled with the
    server when the page loads, extended when something is generated), status polling and
    the rewrite of the storage host in download links. Clock values are integer milliseconds
    passed in, and the server's answers are parameters. */
module MediaPages {
  import opened Outcomes
  import opened Text

  const MsPerMinute := 60000
  const MsPerHour := 3600000
  const MsPerDay := 86400000

  /** `formatRelativeTime`: nothing without a timestamp, then "just now", minutes, hours or
      days, each count being the whole number of units elapsed. */
  function FormatRelativeTime(timestamp: Option<int>, now: int): (r: string)
    ensures timestamp.None? <==> r == ""
    ensures timestamp.Some? ==> (r == "just now" <==> now - timestamp.value < MsPerMinute)
    ensures timestamp.Some? && MsPerMinute <= now - timestamp.value < MsPerHour ==>
      exists n: nat :: 1 <= n < 60 && n * MsPerMinute <= now - timestamp.value < (n + 1) * MsPerMinute
                       && r == NatToString(n) + "m ago"
    ensures timestamp.Some? && MsPerHour <= now - timestamp.value < MsPerDay ==>
      exists n: nat :: 1 <= n < 24 && n * MsPerHour <= now - timestamp.value < (n + 1) * MsPerHour
                       && r == NatToString(n) + "h ago"
    ensures timestamp.Some? && MsPerDay <= now - timestamp.value ==>
      exists n: nat :: 1 <= n && n * MsPerDay <= now - timestamp.value < (n + 1) * MsPerDay
                       && r == NatToString(n) + "d ago"
  {
    match timestamp
    case None => ""
    case Some(start) =>
      var elapsed := now - start;
      if elapsed / MsPerMinute < 1 then "just now"
      else
        var r := if elapsed / MsPerMinute < 60 then NatToString(elapsed / MsPerMinute) + "m ago"
                 else if elapsed / MsPerHour < 24 then NatToString(elapsed / MsPerHour) + "h ago"
                 else NatToString(elapsed / MsPerDay) + "d ago";
        assert r[|r| - 1] == 'o';
        r
  }

  /** The four badge styles. */
  datatype Badge = Green | Blue | Red | Gray {
    function Classes(): string {
      match this
      case Green => "bg-green-500/10 text-green-600 border-green-500/20"
      case Blue => "bg-blue-500/10 text-blue-600 border-blue-500/20"
      case Red => "bg-red-500/10 text-red-600 border-red-500/20"
      case Gray => "bg-gray-500/10 text-gray-600 border-gray-500/20"
    }
  }

  /** `getStatusColor`: every status gets a badge; "processing" and "pending" share one, and
      any status outside the four known ones gets the gray badge. */
  function StatusBadge(status: string): (badge: Badge)
    ensures badge == Green <==> status == "completed"
    ensures badge == Blue <==> status == "processing" || status == "pending"
    ensures badge == Red <==> status == "failed"
    ensures badge == Gray <==> status !in {"completed", "processing", "pending", "failed"}
  {
    if status == "completed" then Green
    else if status == "processing" || status == "pending" then Blue
    else if status == "failed" then Red
    else Gray
  }

  /** The CSS classes of a status badge. */
  function StatusColor(status: string): (classes: string)
    ensures status == "completed" ==> classes == "bg-green-500/10 text-green-600 border-green-500/20"
    ensures status == "processing" || status == "pending" ==> classes == "bg-blue-500/10 text-blue-600 border-blue-500/20"
    ensures status == "failed" ==> classes == "bg-red-500/10 text-red-600 border-red-500/20"
    ensures status !in {"completed", "processing", "pending", "failed"} ==> classes == "bg-gray-500/10 text-gray-600 border-gray-500/20"
  {
    StatusBadge(status).Classes()
  }

  /** An entry of the history kept in local storage. */
  datatype HistoryEntry = HistoryEntry(id: string, prompt: string)

  /** A generated item as the page shows it; `details` holds what only one page uses. An
      absent or empty prompt is the empty string. */
  datatype Card<D> = Card(id: string, prompt: string, status: string, details: D)

  /** The server's answer to a request for one item: the item, a response without data, or
      an error with the HTTP status when there is one. */
  datatype Fetch<D> = Found(card: Card<D>) | NoData | Failed(httpStatus: Option<int>)

  /** The answers that show the item no longer exists: a 404 or a response without data. */
  predicate Gone<D>(answer: Fetch<D>) {
    answer.NoData? || (answer.Failed? && answer.httpStatus == Some(404))
  }

  /** The entries that survive reconciliation, in their stored order; `answers[k]` is the
      server's answer for `history[k]`. */
  function Kept<D>(history: seq<HistoryEntry>, answers: seq<Fetch<D>>): (kept: seq<HistoryEntry>)
    requires |answers| == |history|
    ensures |kept| <= |history|
  {
    if history == [] then []
    else (if Gone(answers[0]) then [] else [history[0]]) + Kept(history[1..], answers[1..])
  }

  /** A loaded item keeps the stored prompt when the server returns none. */
  function WithStoredPrompt<D>(card: Card<D>, stored: string): (c: Card<D>)
    ensures c.id == card.id && c.status == card.status && c.details == card.details
    ensures c.prompt == if card.prompt != "" then card.prompt else stored
  {
    card.(prompt := if card.prompt != "" then card.prompt else stored)
  }

  /** The items the server returned, in stored order. */
  function Loaded<D>(history: seq<HistoryEntry>, answers: seq<Fetch<D>>): (cards: seq<Card<D>>)
    requires |answers| == |history|
    ensures |cards| <= |history|
  {
    if history == [] then []
    else (if answers[0].Found? then [WithStoredPrompt(answers[0].card, history[0].prompt)] else [])
         + Loaded(history[1..], answers[1..])
  }

  function Reverse<T>(s: seq<T>): (r: seq<T>)
    ensures |r| == |s| && forall i :: 0 <= i < |s| ==> r[i] == s[|s| - 1 - i]
  {
    seq(|s|, i requires 0 <= i < |s| => s[|s| - 1 - i])
  }

  lemma ReverseConcat<T>(a: seq<T>, b: seq<T>)
    ensures Reverse(a + b) == Reverse(b) + Reverse(a)
  {
    assert forall i :: 0 <= i < |a + b| ==> Reverse(a + b)[i] == (Reverse(b) + Reverse(a))[i];
  }

  /** The reconciliation on page load (`loadHistory`): the stored history is walked from the
      newest entry back; an item the server returns is shown (newest first) and kept, an item
      that is gone is dropped, and any other error keeps it without showing it. The history
      is written back, in its stored order, only when something was dropped, and the list on
      screen is replaced only when something was loaded. Absent or unreadable storage changes
      nothing. */
  method LoadHistory<D>(saved: Option<seq<HistoryEntry>>, answers: seq<Fetch<D>>)
    returns (shown: Option<seq<Card<D>>>, written: Option<seq<HistoryEntry>>)
    requires saved.Some? ==> |answers| == |saved.value|
    ensures saved.None? ==> shown == None && written == None
    ensures saved.Some? ==>
      && written == (if |Kept(saved.value, answers)| != |saved.value| then Some(Kept(saved.value, answers)) else None)
      && shown == (if Loaded(saved.value, answers) != [] then Some(Reverse(Loaded(saved.value, answers))) else None)
  {
    if saved.None? {
      return None, None;
    }
    var history := saved.value;
    var n := |history|;
    var loadedCards: seq<Card<D>> := [];
    var validHistory: seq<HistoryEntry> := [];
    for i := 0 to n
      invariant validHistory == Reverse(Kept(history[n - i..], answers[n - i..]))
      invariant loadedCards == Reverse(Loaded(history[n - i..], answers[n - i..]))
    {
      var k := n - 1 - i;
      var item, answer := history[k], answers[k];
      assert history[k..][1..] == history[n - i..] && answers[k..][1..] == answers[n - i..];
      if answer.Found? {
        loadedCards := loadedCards + [WithStoredPrompt(answer.card, item.prompt)];
        validHistory := validHistory + [item];
      } else if answer.Failed? && answer.httpStatus == Some(404) {
      } else if answer.Failed? {
        validHistory := validHistory + [item];
      }
      ReverseConcat(if Gone(answer) then [] else [item], Kept(history[n - i..], answers[n - i..]));
      ReverseConcat(if answer.Found? then [WithStoredPrompt(answer.card, item.prompt)] else [],
                    Loaded(history[n - i..], answers[n - i..]));
    }
    assert history[0..] == history && answers[0..] == answers;
    if |validHistory| != n {
      written := Some(Reverse(validHistory));
      assert Reverse(validHistory) == Kept(history, answers);
    } else {
      written := None;
    }
    shown := if |loadedCards| > 0 then Some(loadedCards) else None;
  }

  /** Storage is rewritten exactly when some stored item turned out to be gone. */
  lemma {:induction false} RewrittenIffSomethingGone<D>(history: seq<HistoryEntry>, answers: seq<Fetch<D>>)
    requires |answers| == |history|
    ensures |Kept(history, answers)| != |history| <==> exists k :: 0 <= k < |history| && Gone(answers[k])
  {
    if history != [] {
      RewrittenIffSomethingGone(history[1..], answers[1..]);
      assert forall k :: 1 <= k < |history| ==> answers[1..][k - 1] == answers[k];
    }
  }

  /** Every entry kept was stored, and every item shown was kept. */
  lemma {:induction false} KeptAndLoadedFromStored<D>(history: seq<HistoryEntry>, answers: seq<Fetch<D>>)
    requires |answers| == |history|
    ensures forall e :: e in Kept(history, answers) ==> e in history
    ensures |Loaded(history, answers)| <= |Kept(history, answers)|
  {
    if history != [] {
      KeptAndLoadedFromStored(history[1..], answers[1..]);
    }
  }

  /** No two entries share an id. */
  predicate UniqueIds(history: seq<HistoryEntry>) {
    forall i, j :: 0 <= i < j < |history| ==> history[i].id != history[j].id
  }

  /** Recording a generated item (`handleGenerate`): an entry is pushed only when no entry
      has its id yet, so the old history is a prefix of the new one and the id is present
      afterwards. */
  function RecordGenerated(history: seq<HistoryEntry>, id: string, prompt: string): (h: seq<HistoryEntry>)
    ensures history <= h && |h| <= |history| + 1
    ensures exists k :: 0 <= k < |h| && h[k].id == id
    ensures (exists k :: 0 <= k < |history| && history[k].id == id) <==> h == history
  {
    if exists k :: 0 <= k < |history| && history[k].id == id then history
    else
      var h := history + [HistoryEntry(id, prompt)];
      assert h[|history|].id == id;
      h
  }

  /** Recording never introduces a second entry with one id. */
  lemma RecordGeneratedKeepsIdsUnique(history: seq<HistoryEntry>, id: string, prompt: string)
    requires UniqueIds(history)
    ensures UniqueIds(RecordGenerated(history, id, prompt))
  {
    var h := RecordGenerated(history, id, prompt);
    if h != history {
      assert forall i :: 0 <= i < |history| ==> history[i].id != id;
    }
  }

  /** The statuses that end polling. */
  predicate Terminal(status: string) {
    status == "completed" || status == "failed"
  }

  /** One status answer applied to the list on screen: every card with the polled id is
      combined with the server's record by `merge`; the other cards stay. */
  function Refresh<D>(cards: seq<Card<D>>, id: string, updated: Card<D>, merge: (Card<D>, Card<D>) -> Card<D>): (r: seq<Card<D>>)
    ensures |r| == |cards|
    ensures forall i :: 0 <= i < |cards| ==> r[i] == if cards[i].id == id then merge(cards[i], updated) else cards[i]
  {
    seq(|cards|, i requires 0 <= i < |cards| => if cards[i].id == id then merge(cards[i], updated) else cards[i])
  }

  /** The list on screen after the given status answers, a failed request changing nothing. */
  function Polled<D>(cards: seq<Card<D>>, id: string, answers: seq<Result<Card<D>, string>>,
                     merge: (Card<D>, Card<D>) -> Card<D>): (r: seq<Card<D>>)
    ensures |r| == |cards|
  {
    if answers == [] then cards
    else
      var before := Polled(cards, id, answers[..|answers| - 1], merge);
      match answers[|answers| - 1]
      case Failure(_) => before
      case Success(updated) => Refresh(before, id, updated, merge)
  }

  /** A dashboard page's state: the cards on screen, the history in local storage (empty
      when absent), the prompt field and the loading flag. */
  class MediaPage<D> {
    var cards: seq<Card<D>>
    var stored: seq<HistoryEntry>
    var prompt: string
    var loading: bool

    constructor(stored: seq<HistoryEntry>)
      ensures this.cards == [] && this.stored == stored && this.prompt == "" && !this.loading
    {
      this.cards := [];
      this.stored := stored;
      this.prompt := "";
      this.loading := false;
    }

    /** `handleGenerate`: nothing happens for a blank prompt (nor, when `guardsLoading`,
        while a generation is loading). Otherwise the new item goes on top of the list, is
        recorded in the history when it has an id, and the prompt is cleared; a failed
        request changes only the loading flag, which is always off afterwards. */
    method HandleGenerate(guardsLoading: bool, response: Result<Card<D>, string>)
      modifies this
      ensures JsTrim(old(prompt)) == "" || (guardsLoading && old(loading)) ==>
        cards == old(cards) && stored == old(stored) && prompt == old(prompt) && loading == old(loading)
      ensures JsTrim(old(prompt)) != "" && !(guardsLoading && old(loading)) ==>
        && !loading
        && (response.Failure? ==> cards == old(cards) && stored == old(stored) && prompt == old(prompt))
        && (response.Success? ==>
              && cards == [response.value] + old(cards)
              && stored == (if response.value.id != "" then RecordGenerated(old(stored), response.value.id, JsTrim(old(prompt)))
                            else old(stored))
              && prompt == "")
    {
      var text := JsTrim(prompt);
      if text == "" || (guardsLoading && loading) {
        return;
      }
      loading := true;
      if response.Success? {
        var item := response.value;
        cards := [item] + cards;
        if item.id != "" {
          stored := RecordGenerated(stored, item.id, text);
        }
        prompt := "";
      }
      loading := false;
    }

    /** Status polling: at most `maxAttempts` requests; polling stops at the first failed
        request or terminal status, and each answer is merged into the cards with that id. */
    method PollStatus(id: string, maxAttempts: nat, answers: seq<Result<Card<D>, string>>,
                      merge: (Card<D>, Card<D>) -> Card<D>) returns (requests: nat)
      requires 1 <= maxAttempts <= |answers|
      modifies this
      ensures 1 <= requests <= maxAttempts
      ensures forall k :: 0 <= k < requests - 1 ==> answers[k].Success? && !Terminal(answers[k].value.status)
      ensures requests < maxAttempts ==>
        answers[requests - 1].Failure? || Terminal(answers[requests - 1].value.status)
      ensures cards == Polled(old(cards), id, answers[..requests], merge)
      ensures stored == old(stored) && prompt == old(prompt) && loading == old(loading)
    {
      requests := 0;
      var attempts := 0;
      assert answers[..0] == [];
      while true
        invariant requests == attempts < maxAttempts
        invariant forall k :: 0 <= k < requests ==> answers[k].Success? && !Terminal(answers[k].value.status)
        invariant cards == Polled(old(cards), id, answers[..requests], merge)
        invariant stored == old(stored) && prompt == old(prompt) && loading == old(loading)
        decreases maxAttempts - attempts
      {
        var response := answers[requests];
        requests := requests + 1;
        assert answers[..requests][..requests - 1] == answers[..requests - 1];
        if response.Failure? {
          return;
        }
        cards := Refresh(cards, id, response.value, merge);
        if Terminal(response.value.status) {
          return;
        }
        attempts := attempts + 1;
        if attempts >= maxAttempts {
          return;
        }
      }
    }
  }

  /** Replaces the first `http://minio:9000`, then the first `https://minio:9000`, by the
      same scheme on `localhost:9000`, the host the browser can reach. */
  function RewriteMinioHost(url: string): (r: string)
    ensures !Contains(url, "http://minio:9000") && !Contains(url, "https://minio:9000") ==> r == url
  {
    ReplaceFirst(ReplaceFirst(url, "http://minio:9000", "http://localhost:9000"), "https://minio:9000", "https://localhost:9000")
  }

  /** A link to the internal storage host is moved to localhost with its path intact. */
  lemma InternalLinkMovesToLocalhost(path: string)
    requires !Contains(path, "https://minio:9000")
    ensures RewriteMinioHost("http://minio:9000" + path) == "http://localhost:9000" + path
  {
    var url := "http://minio:9000" + path;
    assert url[..17] == "http://minio:9000" && url[17..] == path;
    ReplaceAtStart(url, "http://minio:9000", "http://localhost:9000");
    LocalhostLinkHasNoSecureHost(path);
  }

  /** Prefixing `http://localhost:9000` creates no `https://minio:9000`. */
  lemma LocalhostLinkHasNoSecureHost(path: string)
    requires !Contains(path, "https://minio:9000")
    ensures !Contains("http://localhost:9000" + path, "https://minio:9000")
  {
    var s := "http://localhost:9000" + path;
    forall j: nat | j <= |s| ensures !OccursAt(s, "https://minio:9000", j) {
      if j >= 21 && j + 18 <= |s| {
        assert !OccursAt(path, "https://minio:9000", j - 21);
        assert s[j..j + 18] == path[j - 21..j - 21 + 18];
      } else if j < 21 && j + 18 <= |s| {
        assert s[j..j + 18][0] == s[j] && s[j..j + 18][4] == s[j + 4];
        assert s[..21] == "http://localhost:9000";
      }
    }
  }

  /** How a download answer is shown: a direct link taken from a JSON answer, or the
      downloaded bytes as an object URL. The image page reads the JSON fields `url`,
      `signedUrl` and `downloadUrl`; the speech page reads only `download_url`, which is
      held in `downloadUrl` here. */
  datatype Download = JsonLinks(url: string, signedUrl: string, downloadUrl: string) | Binary
  datatype MediaSource = Direct(link: string) | FromBlob
}
