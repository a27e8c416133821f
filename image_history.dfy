/** The text-to-image service's history in object storage: each request gets a folder
    `requests/{yyyy}/{mm}/{dd}/{id}/` holding its input, the image and a record, and each user
    a daily JSON Lines index. The request id, the clock and SHA-256 are parameters. */
module ImageHistory {
  import opened Outcomes
  import opened Text
  import opened Dicts
  import opened Calendar
  import opened JsonText
  import opened ObjectStore

  /** `requests/{yyyy}/{mm}/{dd}/{id}/`. */
  function BasePath(date: Date, reqId: string): (p: string)
    ensures StartsWith(p, "requests/") && EndsWith(p, "/" + reqId + "/")
  {
    var p := "requests/" + YearField(date) + "/" + MonthField(date) + "/" + DayField(date) + "/" + reqId + "/";
    assert p[..9] == "requests/";
    assert p[|p| - |reqId| - 2..] == "/" + reqId + "/";
    p
  }

  function InputKey(date: Date, reqId: string): string { BasePath(date, reqId) + "input.json" }
  function ImageKey(date: Date, reqId: string): string { BasePath(date, reqId) + "image/original.png" }
  function RecordKey(date: Date, reqId: string): string { BasePath(date, reqId) + "record.json" }

  /** The three keys of a request share its folder and differ in their last part, so one
      save never overwrites its own objects. */
  lemma RequestKeysDistinct(date: Date, reqId: string)
    ensures StartsWith(InputKey(date, reqId), BasePath(date, reqId))
    ensures StartsWith(ImageKey(date, reqId), BasePath(date, reqId))
    ensures StartsWith(RecordKey(date, reqId), BasePath(date, reqId))
    ensures InputKey(date, reqId) != ImageKey(date, reqId) && ImageKey(date, reqId) != RecordKey(date, reqId)
    ensures RecordKey(date, reqId) != InputKey(date, reqId)
  {
    var b := BasePath(date, reqId);
    assert InputKey(date, reqId)[|b|] == 'i' && ImageKey(date, reqId)[|b| + 1] == 'm';
    assert RecordKey(date, reqId)[|b|] == 'r' && InputKey(date, reqId)[|b| + 1] == 'n';
    assert InputKey(date, reqId)[..|b|] == b && ImageKey(date, reqId)[..|b|] == b && RecordKey(date, reqId)[..|b|] == b;
  }

  /** The key `get_image_record` probes, formatted on its own. */
  function ProbeKey(date: Date, imageId: string): string {
    "requests/" + YearField(date) + "/" + MonthField(date) + "/" + DayField(date) + "/" + imageId + "/record.json"
  }

  /** The lookup key for a date is the record key a save on that date writes. */
  lemma ProbeKeyIsRecordKey(date: Date, id: string)
    ensures ProbeKey(date, id) == RecordKey(date, id)
  {
  }

  /** `users/{user_id}/image/history/{yyyy}/{mm}/{dd}.jsonl`. */
  function IndexKey(userId: string, date: Date): (k: string)
    ensures StartsWith(k, "users/" + userId + "/image/history/") && EndsWith(k, ".jsonl")
  {
    var prefix := "users/" + userId + "/image/history/";
    var k := prefix + YearField(date) + "/" + MonthField(date) + "/" + DayField(date) + ".jsonl";
    assert k[..|prefix|] == prefix;
    assert k[|k| - 6..] == ".jsonl";
    k
  }

  /** The number of bytes of the UTF-8 encoding (`len(s.encode())`). */
  function Utf8Length(s: string): (n: nat)
    ensures |s| <= n <= 4 * |s|
  {
    if s == [] then 0
    else
      var c := s[0] as int;
      (if c < 0x80 then 1 else if c < 0x800 then 2 else if c < 0x10000 then 3 else 4) + Utf8Length(s[1..])
  }

  /** A metadata value, or `default` when absent. */
  function StrOr(metadata: Dict<string, Json>, name: string, default: string): Json {
    GetOr(metadata, name, JStr(default))
  }

  /** The generation parameters both documents repeat: `size`, `seed`, `model`. */
  datatype ImageParams = ImageParams(size: Json, seed: Json, model: Json)

  function ParamsOf(metadata: Dict<string, Json>): (p: ImageParams)
    ensures !HasKey(metadata, "size") ==> p.size == JStr("1024x1024")
    ensures !HasKey(metadata, "seed") ==> p.seed == JNull
    ensures !HasKey(metadata, "model") ==> p.model == JStr("flux")
    ensures HasKey(metadata, "size") ==> p.size == Get(metadata, "size").value
    ensures HasKey(metadata, "seed") ==> p.seed == Get(metadata, "seed").value
    ensures HasKey(metadata, "model") ==> p.model == Get(metadata, "model").value
  {
    ImageParams(StrOr(metadata, "size", "1024x1024"), GetOr(metadata, "seed", JNull), StrOr(metadata, "model", "flux"))
  }

  /** `record.json`, field by field (`tokens` is always zero in and out, `cost.usd` 0.0). */
  datatype ImageRecord = ImageRecord(
    id: string,
    userId: string,
    username: string,
    service: string,
    provider: Json,
    model: Json,
    prompt: string,
    promptHash: string,
    status: int,
    latencyMs: int,
    tokensIn: int,
    tokensOut: int,
    inputBytes: nat,
    outputBytes: nat,
    costUsd: real,
    createdAt: string,
    imageArtifact: string,
    params: ImageParams)

  /** The JSON documents the service stores: `input.json` and `record.json`. */
  datatype ImageDocument = InputDocument(prompt: string, params: ImageParams) | RecordDocument(record: ImageRecord)

  /** The record of a request: its id, the key the image went to, the UTF-8 size of the
      prompt, the image size, and a creation time in ISO format marked `Z` for UTC. */
  function RecordOf(reqId: string, userId: string, username: string, prompt: string, promptDigest: string,
                    imageSize: nat, metadata: Dict<string, Json>, latencyMs: int, now: DateTime): (r: ImageRecord)
    ensures r.id == reqId && r.userId == userId && r.prompt == prompt
    ensures r.imageArtifact == ImageKey(now.date, reqId)
    ensures r.inputBytes == Utf8Length(prompt) && r.outputBytes == imageSize
    ensures EndsWith(r.createdAt, "Z") && StartsWith(r.createdAt, IsoFormat(now))
    ensures r.promptHash == "sha256:" + promptDigest && r.status == 200
  {
    var createdAt := IsoFormat(now) + "Z";
    assert createdAt[|createdAt| - 1..] == "Z" && createdAt[..|IsoFormat(now)|] == IsoFormat(now);
    ImageRecord(reqId, userId, username, "image", StrOr(metadata, "provider", "pollinations"),
                StrOr(metadata, "model", "flux"), prompt, "sha256:" + promptDigest, 200, latencyMs, 0, 0,
                Utf8Length(prompt), imageSize, 0.0, createdAt, ImageKey(now.date, reqId), ParamsOf(metadata))
  }

  /** The index entry: `json.dumps({"id", "record", "timestamp"}) + "\n"`. */
  function IndexLine(reqId: string, recordKey: string, date: Date): (line: string)
    ensures Count(line, '\n') == 1 && EndsWith(line, "\n")
    ensures ParseObject(line[..|line| - 1]) == Some([("id", reqId), ("record", recordKey),
      ("timestamp", YearField(date) + "-" + MonthField(date) + "-" + DayField(date))])
  {
    DumpsLine([("id", reqId), ("record", recordKey),
               ("timestamp", YearField(date) + "-" + MonthField(date) + "-" + DayField(date))])
  }

  /** Appending an entry keeps the old index as a prefix and adds exactly one line. */
  lemma IndexGrowsByOneLine(existing: string, reqId: string, recordKey: string, date: Date)
    ensures var updated := existing + IndexLine(reqId, recordKey, date);
      && StartsWith(updated, existing)
      && Count(updated, '\n') == Count(existing, '\n') + 1
      && EndsWith(updated, "\n")
  {
    var line := IndexLine(reqId, recordKey, date);
    CountConcat(existing, line, '\n');
    assert (existing + line)[..|existing|] == existing;
    assert (existing + line)[|existing + line| - 1..] == line[|line| - 1..];
  }

  /** The index text read back: nothing for a missing index, the text of a text object. */
  function ExistingIndex<D>(r: Result<StoredObject<D>, string>): Result<string, string> {
    match r
    case Failure(code) => if code == NoSuchKey then Success("") else Failure(code)
    case Success(obj) =>
      match obj.body
      case Text(content) => Success(content)
      case Bytes(data) => if data == [] then Success("") else Failure("UnicodeDecodeError")
      case Document(_) => Failure("UnicodeDecodeError")
  }

  /** The `s3` part of the response: the id and the keys of the record and the image. */
  datatype SaveReceipt = SaveReceipt(id: string, record: string, image: string)

  class ImageHistoryService {
    const store: Bucket<ImageDocument>

    constructor(store: Bucket<ImageDocument>)
      ensures this.store == store
    {
      this.store := store;
    }

    /** `_update_user_index`: reads the day's index (empty when missing), appends one line
        and writes the whole text back. */
    method UpdateUserIndex(userId: string, reqId: string, recordKey: string, date: Date) returns (error: Option<string>)
      modifies store
      ensures var key := IndexKey(userId, date);
        match ExistingIndex(old(store.Lookup(key)))
        case Failure(code) => error == Some(code) && store.objects == old(store.objects)
        case Success(existing) =>
          if key in store.faults then error == Some(store.faults[key]) && store.objects == old(store.objects)
          else error.None? && store.objects == old(store.objects)[key :=
            StoredObject(Text(existing + IndexLine(reqId, recordKey, date)), "application/jsonl")]
    {
      var indexKey := IndexKey(userId, date);
      var existingData := store.GetObject(indexKey);
      var existingContent := ExistingIndex(existingData);
      if existingContent.Failure? {
        return Some(existingContent.error);
      }
      var newLine := IndexLine(reqId, recordKey, date);
      var updatedContent := existingContent.value + newLine;
      error := store.PutObject(indexKey, Text(updatedContent), "application/jsonl");
    }

    /** `save_image_history`: input, image, record and index, in that order; the first
        failing write (or a failing read of the index) ends the save with its error, and the
        writes before it stay in place. */
    method SaveImageHistory(userId: string, username: string, prompt: string, imageBytes: seq<bv8>,
                            metadata: Dict<string, Json>, latencyMs: int, reqId: string, now: DateTime,
                            sha256Hex: string -> string)
      returns (r: Result<SaveReceipt, string>)
      modifies store
      ensures var inputKey, imageKey, recordKey := InputKey(now.date, reqId), ImageKey(now.date, reqId), RecordKey(now.date, reqId);
        var indexKey := IndexKey(userId, now.date);
        r.Success? <==>
          && inputKey !in store.faults && imageKey !in store.faults && recordKey !in store.faults
          && ExistingIndex(old(store.Lookup(indexKey))).Success? && indexKey !in store.faults
      ensures var inputKey, imageKey, recordKey := InputKey(now.date, reqId), ImageKey(now.date, reqId), RecordKey(now.date, reqId);
        var indexKey := IndexKey(userId, now.date);
        var afterInput := old(store.objects)[inputKey := StoredObject(Document(InputDocument(prompt, ParamsOf(metadata))), "application/json")];
        var afterImage := afterInput[imageKey := StoredObject(Bytes(imageBytes), ContentType(metadata))];
        var afterRecord := afterImage[recordKey := StoredObject(Document(RecordDocument(
              RecordOf(reqId, userId, username, prompt, sha256Hex(prompt), |imageBytes|, metadata, latencyMs, now))),
              "application/json")];
        var existing := ExistingIndex(old(store.Lookup(indexKey)));
        if inputKey in store.faults then r == Failure(store.faults[inputKey]) && store.objects == old(store.objects)
        else if imageKey in store.faults then r == Failure(store.faults[imageKey]) && store.objects == afterInput
        else if recordKey in store.faults then r == Failure(store.faults[recordKey]) && store.objects == afterImage
        else if existing.Failure? then r == Failure(existing.error) && store.objects == afterRecord
        else if indexKey in store.faults then r == Failure(store.faults[indexKey]) && store.objects == afterRecord
        else
          && r == Success(SaveReceipt(reqId, recordKey, imageKey))
          && store.objects == afterRecord[indexKey :=
               StoredObject(Text(existing.value + IndexLine(reqId, recordKey, now.date)), "application/jsonl")]
    {
      var date := now.date;
      var inputKey := InputKey(date, reqId);
      var error := store.PutObject(inputKey, Document(InputDocument(prompt, ParamsOf(metadata))), "application/json");
      if error.Some? {
        return Failure(error.value);
      }
      var imageKey := ImageKey(date, reqId);
      error := store.PutObject(imageKey, Bytes(imageBytes), ContentType(metadata));
      if error.Some? {
        return Failure(error.value);
      }
      var record := RecordOf(reqId, userId, username, prompt, sha256Hex(prompt), |imageBytes|, metadata, latencyMs, now);
      var recordKey := RecordKey(date, reqId);
      error := store.PutObject(recordKey, Document(RecordDocument(record)), "application/json");
      if error.Some? {
        return Failure(error.value);
      }
      IndexKeyIsNotARequestKey(userId, date, reqId);
      assert store.Lookup(IndexKey(userId, date)) == old(store.Lookup(IndexKey(userId, date)));
      error := UpdateUserIndex(userId, reqId, recordKey, date);
      if error.Some? {
        return Failure(error.value);
      }
      r := Success(SaveReceipt(reqId, recordKey, imageKey));
    }

    /** `get_image_record`: probes the record key for today and each of the six days before,
        in that order, and returns the first record that reads as JSON; every failed read
        counts as a miss. */
    method GetImageRecord(imageId: string, today: Date) returns (r: Option<ImageDocument>)
      requires ProbeableDate(today)
      ensures r == Probe(store.objects, store.faults, imageId, today)
    {
      ghost var keys := ProbeKeys(today, imageId);
      for daysBack := 0 to 7
        invariant Probe(store.objects, store.faults, imageId, today) == FirstReadable(store.objects, store.faults, keys[daysBack..])
      {
        var searchDate := ProbeDate(today, daysBack);
        var recordKey := ProbeKey(searchDate, imageId);
        assert recordKey == keys[daysBack..][0] && keys[daysBack..][1..] == keys[daysBack + 1..];
        var recordData := store.GetObject(recordKey);
        var parsed := JsonBody(recordData);
        if parsed.Some? {
          return parsed;
        }
      }
      r := None;
    }
  }

  /** `content_type` from the metadata, `image/png` by default. */
  function ContentType(metadata: Dict<string, Json>): string {
    var t := Get(metadata, "content_type");
    if t.Some? && t.value.JStr? then t.value.s else "image/png"
  }

  /** `get_json`: the document of a readable JSON object. */
  function JsonBody<D>(r: Result<StoredObject<D>, string>): Option<D> {
    if r.Success? && r.value.body.Document? then Some(r.value.body.doc) else None
  }

  /** A date from which `datetime` can step back the six days `get_image_record` probes:
      on or after 7 January of year 1. */
  predicate ProbeableDate(today: Date) {
    ValidDate(today) && !Before(today, Date(1, 1, 7))
  }

  /** The date `daysBack` days before `today`, one of the seven probed. */
  function ProbeDate(today: Date, daysBack: nat): (d: Date)
    requires ProbeableDate(today) && daysBack < 7
    ensures ValidDate(d)
    ensures daysBack == 0 ==> d == today
    ensures daysBack > 0 ==> Before(d, today)
  {
    DaysBackAvailable(today, daysBack);
    DaysBefore(today, daysBack)
  }

  /** Each further probe reaches a strictly earlier date, so no date is probed twice. */
  lemma ProbeDatesDecreasing(today: Date, j: nat, k: nat)
    requires ProbeableDate(today) && j < k < 7
    ensures Before(ProbeDate(today, k), ProbeDate(today, j))
  {
    DaysBackAvailable(today, k);
    DaysBeforeStrictlyDecreasing(today, j, k);
  }

  /** The record key `get_image_record` reads `daysBack` days before `today`. */
  function ProbeKeyAt(today: Date, imageId: string, daysBack: nat): string
    requires ProbeableDate(today) && daysBack < 7
  {
    ProbeKey(ProbeDate(today, daysBack), imageId)
  }

  /** The seven record keys `get_image_record` probes, today's first. */
  function ProbeKeys(today: Date, imageId: string): (keys: seq<string>)
    requires ProbeableDate(today)
    ensures |keys| == 7
  {
    seq(7, daysBack requires 0 <= daysBack < 7 => ProbeKeyAt(today, imageId, daysBack))
  }

  /** The first readable JSON document among `keys`, read in order. */
  function FirstReadable(objects: map<string, StoredObject<ImageDocument>>, faults: map<string, string>,
                         keys: seq<string>): Option<ImageDocument>
  {
    if keys == [] then None
    else
      match JsonBody(ReadAt(objects, faults, keys[0]))
      case Some(doc) => Some(doc)
      case None => FirstReadable(objects, faults, keys[1..])
  }

  /** The probe of `get_image_record`: the first readable record over the seven days. */
  function Probe(objects: map<string, StoredObject<ImageDocument>>, faults: map<string, string>, imageId: string,
                 today: Date): Option<ImageDocument>
    requires ProbeableDate(today)
  {
    FirstReadable(objects, faults, ProbeKeys(today, imageId))
  }

  /** `Bucket.Lookup` on a snapshot of a bucket's state. */
  function ReadAt<D>(objects: map<string, StoredObject<D>>, faults: map<string, string>, key: string): Result<StoredObject<D>, string> {
    if key in faults then Failure(faults[key]) else if key in objects then Success(objects[key]) else Failure(NoSuchKey)
  }

  /** Each of the seven probe dates exists. */
  lemma DaysBackAvailable(today: Date, daysBack: nat)
    requires ProbeableDate(today) && daysBack < 7
    ensures HasDaysBefore(today, daysBack)
  {
    LateEnoughHasDaysBefore(today, daysBack);
  }
  /** Index keys live under `users/`, request keys under `requests/`. */
  lemma IndexKeyIsNotARequestKey(userId: string, date: Date, reqId: string)
    ensures IndexKey(userId, date) !in {InputKey(date, reqId), ImageKey(date, reqId), RecordKey(date, reqId)}
  {
    assert IndexKey(userId, date)[1] == 's';
    assert InputKey(date, reqId)[1] == 'e' && ImageKey(date, reqId)[1] == 'e' && RecordKey(date, reqId)[1] == 'e';
  }

  /** Reading keys in order finds the document at position `k` when every other key that
      is present in the store is that same key. */
  lemma {:induction false} FirstReadableFinds(objects: map<string, StoredObject<ImageDocument>>, faults: map<string, string>,
                                              keys: seq<string>, k: nat, record: ImageDocument)
    requires k < |keys| && keys[k] !in faults && keys[k] in objects && objects[keys[k]].body == Document(record)
    requires forall i :: 0 <= i < |keys| && keys[i] in objects ==> keys[i] == keys[k]
    ensures FirstReadable(objects, faults, keys) == Some(record)
  {
    if keys[0] !in objects {
      assert keys[1..][k - 1] == keys[k];
      FirstReadableFinds(objects, faults, keys[1..], k - 1, record);
    }
  }

  /** The key probed `daysBack` days back is the record key of that date. */
  lemma ProbeKeyAtIsRecordKey(today: Date, id: string, daysBack: nat)
    requires ProbeableDate(today) && daysBack < 7
    ensures ProbeKeyAt(today, id, daysBack) == RecordKey(ProbeDate(today, daysBack), id)
  {
    ProbeKeyIsRecordKey(ProbeDate(today, daysBack), id);
  }

  /** A record saved `k < 7` days before `today` is what the probe returns, provided its key
      does not fail and every record key of that id in the store is that key: whichever day
      the probe first hits, the key written on the save date is the one read. */
  lemma ProbeFindsSavedRecord(objects: map<string, StoredObject<ImageDocument>>, faults: map<string, string>,
                              id: string, today: Date, k: nat, record: ImageDocument)
    requires ProbeableDate(today) && k < 7
    requires var saved := RecordKey(ProbeDate(today, k), id);
      saved !in faults && saved in objects && objects[saved].body == Document(record)
    requires forall d :: ValidDate(d) && RecordKey(d, id) in objects ==> RecordKey(d, id) == RecordKey(ProbeDate(today, k), id)
    ensures Probe(objects, faults, id, today) == Some(record)
  {
    var keys := ProbeKeys(today, id);
    ProbeKeyAtIsRecordKey(today, id, k);
    forall i | 0 <= i < |keys| && keys[i] in objects
      ensures keys[i] == keys[k]
    {
      ProbeKeyAtIsRecordKey(today, id, i);
    }
    FirstReadableFinds(objects, faults, keys, k, record);
  }

  /** A record key never coincides with another kind of key, whatever the dates. */
  lemma RecordKeyIsOnlyARecordKey(d: Date, e: Date, id: string, userId: string)
    ensures RecordKey(d, id) != InputKey(e, id) && RecordKey(d, id) != ImageKey(e, id)
    ensures RecordKey(d, id) != IndexKey(userId, e)
  {
    RecordKeyIsNotInputKey(d, e, id);
    RecordKeyIsNotImageKey(d, e, id);
    RecordKeyIsNotIndexKey(d, e, id, userId);
  }

  lemma RecordKeyIsNotInputKey(d: Date, e: Date, id: string)
    ensures RecordKey(d, id) != InputKey(e, id)
  {
    var r, i := RecordKey(d, id), InputKey(e, id);
    assert r[|r| - 6] == 'd' && i[|i| - 6] == 't';
  }

  lemma RecordKeyIsNotImageKey(d: Date, e: Date, id: string)
    ensures RecordKey(d, id) != ImageKey(e, id)
  {
    var r, m := RecordKey(d, id), ImageKey(e, id);
    assert m[|m| - 1] == 'g' && r[|r| - 1] == 'n';
  }

  lemma RecordKeyIsNotIndexKey(d: Date, e: Date, id: string, userId: string)
    ensures RecordKey(d, id) != IndexKey(userId, e)
  {
    assert RecordKey(d, id)[1] == 'e' && IndexKey(userId, e)[1] == 's';
  }

  /** The writes of a save for an id with no record yet, with or without the index, leave
      its record key as the only record key of that id, holding the record written. */
  lemma SaveLeavesOneRecordKey(before: map<string, StoredObject<ImageDocument>>, after: map<string, StoredObject<ImageDocument>>,
                               userId: string, reqId: string, date: Date,
                               input: StoredObject<ImageDocument>, image: StoredObject<ImageDocument>,
                               record: StoredObject<ImageDocument>, index: StoredObject<ImageDocument>)
    requires forall d :: ValidDate(d) ==> RecordKey(d, reqId) !in before
    requires var written := before[InputKey(date, reqId) := input][ImageKey(date, reqId) := image][RecordKey(date, reqId) := record];
      after == written || after == written[IndexKey(userId, date) := index]
    ensures RecordKey(date, reqId) in after && after[RecordKey(date, reqId)] == record
    ensures forall d :: ValidDate(d) && RecordKey(d, reqId) in after ==> RecordKey(d, reqId) == RecordKey(date, reqId)
  {
    IndexKeyIsNotARequestKey(userId, date, reqId);
    forall d | ValidDate(d) && RecordKey(d, reqId) in after
      ensures RecordKey(d, reqId) == RecordKey(date, reqId)
    {
      RecordKeyIsOnlyARecordKey(d, date, reqId, userId);
    }
  }

  /** Save, then look the id up on the same day or up to six days later: whenever the save
      got as far as writing the record, that record is what the lookup returns, when the id
      is fresh and its record key readable. A save that fails at the index still leaves the
      record to be found. */
  method SaveThenLookUp(service: ImageHistoryService, userId: string, username: string, prompt: string,
                        imageBytes: seq<bv8>, metadata: Dict<string, Json>, latencyMs: int, reqId: string,
                        now: DateTime, sha256Hex: string -> string, today: Date, k: nat)
    returns (saved: Result<SaveReceipt, string>, found: Option<ImageDocument>)
    requires ProbeableDate(today) && k < 7 && ProbeDate(today, k) == now.date
    requires RecordKey(now.date, reqId) !in service.store.faults
    requires forall d :: ValidDate(d) ==> RecordKey(d, reqId) !in service.store.objects
    modifies service.store
    ensures InputKey(now.date, reqId) !in service.store.faults && ImageKey(now.date, reqId) !in service.store.faults ==>
      found == Some(RecordDocument(RecordOf(reqId, userId, username, prompt, sha256Hex(prompt), |imageBytes|,
                                            metadata, latencyMs, now)))
  {
    saved := service.SaveImageHistory(userId, username, prompt, imageBytes, metadata, latencyMs, reqId, now, sha256Hex);
    found := service.GetImageRecord(reqId, today);
    if InputKey(now.date, reqId) !in service.store.faults && ImageKey(now.date, reqId) !in service.store.faults {
      var record := RecordDocument(RecordOf(reqId, userId, username, prompt, sha256Hex(prompt), |imageBytes|,
                                            metadata, latencyMs, now));
      var indexKey := IndexKey(userId, now.date);
      SaveLeavesOneRecordKey(old(service.store.objects), service.store.objects, userId, reqId, now.date,
        StoredObject(Document(InputDocument(prompt, ParamsOf(metadata))), "application/json"),
        StoredObject(Bytes(imageBytes), ContentType(metadata)),
        StoredObject(Document(record), "application/json"),
        if indexKey in service.store.objects then service.store.objects[indexKey] else StoredObject(Text(""), ""));
      ProbeFindsSavedRecord(service.store.objects, service.store.faults, reqId, today, k, record);
    }
  }
}
