/** The text-to-speech service's history in object storage: each request's folder
    `requests/{yyyy}/{mm}/{dd}/{request_id}` holds its input, its record and the audio, and
    a user's daily JSON Lines index is rewritten with the latest entry. The clock is a
    parameter. */
module TtsHistory {
  import opened Outcomes
  import opened Text
  import opened Dicts
  import opened Calendar
  import opened JsonText
  import opened ObjectStore

  /** `requests/{yyyy}/{mm}/{dd}/{request_id}`, without a trailing slash. */
  function BasePath(date: Date, requestId: string): string {
    "requests/" + YearField(date) + "/" + MonthField(date) + "/" + DayField(date) + "/" + requestId
  }

  function InputKey(date: Date, requestId: string): string { BasePath(date, requestId) + "/input.json" }
  function RecordKey(date: Date, requestId: string): string { BasePath(date, requestId) + "/record.json" }
  function AudioKey(date: Date, requestId: string): string { BasePath(date, requestId) + "/audio/output.mp3" }

  /** The three keys share the request's folder and end in their own file names. */
  lemma KeyLayout(date: Date, requestId: string)
    ensures var base := BasePath(date, requestId) + "/";
      && StartsWith(InputKey(date, requestId), base) && EndsWith(InputKey(date, requestId), "/input.json")
      && StartsWith(RecordKey(date, requestId), base) && EndsWith(RecordKey(date, requestId), "/record.json")
      && StartsWith(AudioKey(date, requestId), base) && EndsWith(AudioKey(date, requestId), "/audio/output.mp3")
    ensures InputKey(date, requestId) != RecordKey(date, requestId)
    ensures RecordKey(date, requestId) != AudioKey(date, requestId)
    ensures AudioKey(date, requestId) != InputKey(date, requestId)
  {
    var base := BasePath(date, requestId);
    var i, r, a := InputKey(date, requestId), RecordKey(date, requestId), AudioKey(date, requestId);
    assert i[..|base| + 1] == base + "/" && r[..|base| + 1] == base + "/" && a[..|base| + 1] == base + "/";
    assert i[|i| - 11..] == "/input.json" && r[|r| - 12..] == "/record.json" && a[|a| - 17..] == "/audio/output.mp3";
    assert i[|base| + 1] == 'i' && r[|base| + 1] == 'r' && a[|base| + 1] == 'a';
  }

  /** The key `get_record` reads, formatted on its own. */
  function LookupKey(date: Date, requestId: string): string {
    "requests/" + YearField(date) + "/" + MonthField(date) + "/" + DayField(date) + "/" + requestId + "/record.json"
  }

  lemma LookupKeyIsRecordKey(date: Date, requestId: string)
    ensures LookupKey(date, requestId) == RecordKey(date, requestId)
  {
  }

  /** `users/{user_id}/tts/history/{yyyy}/{mm}/{dd}.jsonl`. */
  function IndexKey(userId: string, date: Date): string {
    "users/" + userId + "/tts/history/" + YearField(date) + "/" + MonthField(date) + "/" + DayField(date) + ".jsonl"
  }

  /** The default listing prefix, `users/{user_id}/tts/history/`: every index key of the
      user starts with it. */
  function HistoryPrefix(userId: string): (p: string)
    ensures forall date :: StartsWith(IndexKey(userId, date), p)
  {
    var p := "users/" + userId + "/tts/history/";
    assert forall date :: IndexKey(userId, date)[..|p|] == p;
    p
  }

  /** `record.json`, field by field. */
  datatype TtsRecord = TtsRecord(
    id: string,
    userId: Option<string>,
    username: Option<string>,
    service: string,
    provider: string,
    model: string,
    voice: string,
    prompt: string,
    status: int,
    latencyMs: int,
    costUsd: real,
    audioArtifact: string,
    inputArtifact: string,
    createdAt: string,
    meta: Dict<string, Json>)

  /** The JSON documents the service stores: `input.json` and `record.json`. */
  datatype TtsDocument = TtsInput(prompt: string, model: string, voice: string) | RecordDocument(record: TtsRecord)

  /** The record of a request: it points at the keys of its audio and input, carries an ISO
      creation time marked `Z`, and has `meta` set to `{}` when none (or an empty one) is given. */
  function RecordOf(requestId: string, userId: Option<string>, username: Option<string>, prompt: string,
                    model: string, voice: string, provider: string, latencyMs: int, statusCode: int,
                    costUsd: real, meta: Option<Dict<string, Json>>, now: DateTime): (r: TtsRecord)
    ensures r.id == requestId && r.userId == userId && r.prompt == prompt && r.service == "tts"
    ensures r.audioArtifact == AudioKey(now.date, requestId) && r.inputArtifact == InputKey(now.date, requestId)
    ensures EndsWith(r.createdAt, "Z") && StartsWith(r.createdAt, IsoFormat(now))
    ensures meta.None? ==> r.meta == []
    ensures meta.Some? ==> r.meta == meta.value
  {
    var createdAt := IsoFormat(now) + "Z";
    assert createdAt[|createdAt| - 1..] == "Z" && createdAt[..|IsoFormat(now)|] == IsoFormat(now);
    TtsRecord(requestId, userId, username, "tts", provider, model, voice, prompt, statusCode, latencyMs,
              costUsd, AudioKey(now.date, requestId), InputKey(now.date, requestId), createdAt,
              if meta.Some? && meta.value != [] then meta.value else [])
  }

  /** The index entry: `json.dumps({"id", "ts", "prompt"[:100], "voice"}) + "\n"`. */
  function IndexEntry(requestId: string, timestamp: DateTime, prompt: string, voice: string): (line: string)
    ensures Count(line, '\n') == 1 && EndsWith(line, "\n")
    ensures ParseObject(line[..|line| - 1])
      == Some([("id", requestId), ("ts", IsoFormat(timestamp) + "Z"), ("prompt", Take(prompt, 100)), ("voice", voice)])
  {
    DumpsLine([("id", requestId), ("ts", IsoFormat(timestamp) + "Z"), ("prompt", Take(prompt, 100)), ("voice", voice)])
  }

  /** Python truthiness of an optional string: present and not empty. */
  predicate Truthy(s: Option<string>) {
    s.Some? && s.value != ""
  }

  /** The keys `save_tts_history` returns. */
  datatype TtsKeys = TtsKeys(input: string, record: string, audio: string)

  /** `S3Client` of the speech service: the bucket it works on. */
  class TtsStorage {
    const store: Bucket<TtsDocument>

    constructor(store: Bucket<TtsDocument>)
      ensures this.store == store
    {
      this.store := store;
    }

    /** `_append_user_history`: writes the day's index as this one entry, replacing whatever
        it held; a failing write is swallowed and changes nothing. */
    method AppendUserHistory(userId: string, requestId: string, timestamp: DateTime, prompt: string, voice: string)
      modifies store
      ensures var key := IndexKey(userId, timestamp.date);
        if key in store.faults then store.objects == old(store.objects)
        else store.objects == old(store.objects)[key :=
          StoredObject(Text(IndexEntry(requestId, timestamp, prompt, voice)), "application/x-ndjson")]
    {
      var indexKey := IndexKey(userId, timestamp.date);
      var entry := IndexEntry(requestId, timestamp, prompt, voice);
      var _ := store.PutObject(indexKey, Text(entry), "application/x-ndjson");
    }

    /** `save_tts_history`: input, audio and record, in that order (the first failing write
        ends the save with its error, and the writes before it stay in place), then the index
        when the user id is truthy, whose failure is swallowed. */
    method SaveTtsHistory(requestId: string, userId: Option<string>, username: Option<string>, prompt: string,
                          audioBytes: seq<bv8>, model: string, voice: string, provider: string, latencyMs: int,
                          statusCode: int, costUsd: real, meta: Option<Dict<string, Json>>, now: DateTime)
      returns (r: Result<TtsKeys, string>)
      modifies store
      ensures var inputKey, audioKey, recordKey := InputKey(now.date, requestId), AudioKey(now.date, requestId), RecordKey(now.date, requestId);
        r.Success? <==> inputKey !in store.faults && audioKey !in store.faults && recordKey !in store.faults
      ensures var inputKey, audioKey, recordKey := InputKey(now.date, requestId), AudioKey(now.date, requestId), RecordKey(now.date, requestId);
        var afterInput := old(store.objects)[inputKey := StoredObject(Document(TtsInput(prompt, model, voice)), "application/json")];
        var afterAudio := afterInput[audioKey := StoredObject(Bytes(audioBytes), "audio/mpeg")];
        var written := afterAudio[recordKey := StoredObject(Document(RecordDocument(
             RecordOf(requestId, userId, username, prompt, model, voice, provider, latencyMs, statusCode, costUsd, meta, now))),
             "application/json")];
        if inputKey in store.faults then r == Failure(store.faults[inputKey]) && store.objects == old(store.objects)
        else if audioKey in store.faults then r == Failure(store.faults[audioKey]) && store.objects == afterInput
        else if recordKey in store.faults then r == Failure(store.faults[recordKey]) && store.objects == afterAudio
        else
          && r == Success(TtsKeys(inputKey, recordKey, audioKey))
          && store.objects ==
               if Truthy(userId) && IndexKey(userId.value, now.date) !in store.faults
               then written[IndexKey(userId.value, now.date) :=
                      StoredObject(Text(IndexEntry(requestId, now, prompt, voice)), "application/x-ndjson")]
               else written
    {
      var date := now.date;
      var inputKey, recordKey, audioKey := InputKey(date, requestId), RecordKey(date, requestId), AudioKey(date, requestId);
      var error := store.PutObject(inputKey, Document(TtsInput(prompt, model, voice)), "application/json");
      if error.Some? {
        return Failure(error.value);
      }
      error := store.PutObject(audioKey, Bytes(audioBytes), "audio/mpeg");
      if error.Some? {
        return Failure(error.value);
      }
      var record := RecordOf(requestId, userId, username, prompt, model, voice, provider, latencyMs, statusCode, costUsd, meta, now);
      error := store.PutObject(recordKey, Document(RecordDocument(record)), "application/json");
      if error.Some? {
        return Failure(error.value);
      }
      if Truthy(userId) {
        AppendUserHistory(userId.value, requestId, now, prompt, voice);
      }
      r := Success(TtsKeys(inputKey, recordKey, audioKey));
    }

    /** `get_record`: the record for a request on a date; nothing when the key does not
        exist; every other failure (a service error, a body that is not a JSON document) is
        raised. */
    method GetRecord(requestId: string, date: Date) returns (r: Result<Option<TtsDocument>, string>)
      ensures var read := store.Lookup(RecordKey(date, requestId));
        && (read.Failure? && read.error == NoSuchKey ==> r == Success(None))
        && (read.Failure? && read.error != NoSuchKey ==> r == Failure(read.error))
        && (read.Success? && read.value.body.Document? ==> r == Success(Some(read.value.body.doc)))
        && (read.Success? && !read.value.body.Document? ==> r.Failure?)
    {
      var recordKey := LookupKey(date, requestId);
      var response := store.GetObject(recordKey);
      if response.Failure? {
        if response.error == NoSuchKey {
          return Success(None);
        }
        return Failure(response.error);
      }
      if !response.value.body.Document? {
        return Failure("JSONDecodeError");
      }
      r := Success(Some(response.value.body.doc));
    }

    /** `list_user_audios`: up to `limit` keys under the prefix (the user's history folder
        when none or an empty one is given); a listing error gives the empty list. */
    method ListUserAudios(userId: string, limit: nat, prefix: Option<string>) returns (keys: seq<string>)
      ensures var p := if prefix.Some? && prefix.value != "" then prefix.value else HistoryPrefix(userId);
        && (p in store.faults ==> keys == [])
        && (p !in store.faults ==> |keys| == (if |store.Matching(p)| < limit then |store.Matching(p)| else limit))
        && (forall i :: 0 <= i < |keys| ==> StartsWith(keys[i], p) && keys[i] in store.objects)
      ensures forall i, j :: 0 <= i < j < |keys| ==> keys[i] != keys[j]
    {
      var p := if prefix.Some? && prefix.value != "" then prefix.value else HistoryPrefix(userId);
      var response := store.ListObjects(p, limit);
      if response.Failure? {
        return [];
      }
      keys := response.value;
    }
  }

  /** Index keys live under `users/`, request keys under `requests/`. */
  lemma IndexKeyIsNotARequestKey(userId: string, date: Date, requestId: string)
    ensures IndexKey(userId, date) !in {InputKey(date, requestId), RecordKey(date, requestId), AudioKey(date, requestId)}
  {
    assert IndexKey(userId, date)[1] == 's';
    assert InputKey(date, requestId)[1] == 'e' && RecordKey(date, requestId)[1] == 'e' && AudioKey(date, requestId)[1] == 'e';
  }

  /** Save, then read the record back for the same date: whenever the input and the audio
      could be written, the save succeeds and the record just written is returned, when its
      key is readable. */
  method SaveThenGet(storage: TtsStorage, requestId: string, userId: Option<string>, username: Option<string>,
                     prompt: string, audioBytes: seq<bv8>, model: string, voice: string, provider: string,
                     latencyMs: int, statusCode: int, costUsd: real, meta: Option<Dict<string, Json>>, now: DateTime)
    returns (saved: Result<TtsKeys, string>, read: Result<Option<TtsDocument>, string>)
    requires RecordKey(now.date, requestId) !in storage.store.faults
    modifies storage.store
    ensures InputKey(now.date, requestId) !in storage.store.faults && AudioKey(now.date, requestId) !in storage.store.faults ==>
      saved.Success? && read == Success(Some(RecordDocument(
      RecordOf(requestId, userId, username, prompt, model, voice, provider, latencyMs, statusCode, costUsd, meta, now))))
  {
    saved := storage.SaveTtsHistory(requestId, userId, username, prompt, audioBytes, model, voice, provider,
                                    latencyMs, statusCode, costUsd, meta, now);
    if Truthy(userId) {
      IndexKeyIsNotARequestKey(userId.value, now.date, requestId);
    }
    read := storage.GetRecord(requestId, now.date);
  }

  /** Two saves by one user on one day leave only the second entry in that day's index: the
      "append" overwrites. */
  method AppendTwice(storage: TtsStorage, userId: string, first: string, second: string, timestamp: DateTime,
                     prompt: string, voice: string)
    requires IndexKey(userId, timestamp.date) !in storage.store.faults
    modifies storage.store
    ensures IndexKey(userId, timestamp.date) in storage.store.objects
    ensures storage.store.objects[IndexKey(userId, timestamp.date)].body == Text(IndexEntry(second, timestamp, prompt, voice))
    ensures Count(storage.store.objects[IndexKey(userId, timestamp.date)].body.content, '\n') == 1
  {
    storage.AppendUserHistory(userId, first, timestamp, prompt, voice);
    storage.AppendUserHistory(userId, second, timestamp, prompt, voice);
  }
}
