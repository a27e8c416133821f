/** The gateway's settings: the `CORS_ORIGINS` value turned into the list of allowed origins. */
module GatewayConfig {
  import opened Text

  /** `Settings.cors_origins_list`: the wildcard alone stays a one-element list; any other
      value is split at every comma and each field is stripped of surrounding whitespace. */
  function CorsOriginsList(corsOrigins: string): (origins: seq<string>)
    ensures corsOrigins == "*" ==> origins == ["*"]
    ensures corsOrigins != "*" ==>
      && |origins| == Count(corsOrigins, ',') + 1
      && forall k :: 0 <= k < |origins| ==> origins[k] == PyStrip(Split(corsOrigins, ',')[k])
  {
    if corsOrigins == "*" then ["*"]
    else
      var fields := Split(corsOrigins, ',');
      seq(|fields|, k requires 0 <= k < |fields| => PyStrip(fields[k]))
  }

  /** Every origin is free of leading and trailing whitespace, and none contains a comma. */
  lemma OriginsTrimmed(corsOrigins: string)
    ensures forall k :: 0 <= k < |CorsOriginsList(corsOrigins)| ==>
      var o := CorsOriginsList(corsOrigins)[k];
      && (o == [] || (!IsPySpace(o[0]) && !IsPySpace(o[|o| - 1])))
      && ',' !in o
  {
    var origins := CorsOriginsList(corsOrigins);
    if corsOrigins != "*" {
      var fields := Split(corsOrigins, ',');
      forall k | 0 <= k < |origins| ensures ',' !in origins[k] {
        if ',' in origins[k] {
          StripKeepsCharacters(fields[k], Python, ',');
        }
      }
    }
  }

  /** An empty setting gives one empty origin. */
  lemma EmptySettingGivesOneEmptyOrigin()
    ensures CorsOriginsList("") == [""]
  {
    assert Split("", ',') == [""];
  }

  /** Order is preserved: when no field carries surrounding whitespace, joining the origins
      with commas gives the setting back. */
  lemma {:induction false} OriginsRejoin(corsOrigins: string)
    requires forall k :: 0 <= k < |Split(corsOrigins, ',')| ==>
      var f := Split(corsOrigins, ',')[k];
      f == [] || (!IsPySpace(f[0]) && !IsPySpace(f[|f| - 1]))
    ensures Join(CorsOriginsList(corsOrigins), ',') == corsOrigins
  {
    if corsOrigins != "*" {
      var fields := Split(corsOrigins, ',');
      forall k | 0 <= k < |fields| ensures PyStrip(fields[k]) == fields[k] {
        StripUnpadded(fields[k], Python);
      }
      assert CorsOriginsList(corsOrigins) == fields;
      JoinSplit(corsOrigins, ',');
    }
  }
}
