/**
 * The argument checks of `PeerMetrics` (src/index.ts and src/index.js): the
 * constructor's options with the meta tags it sanitises, the custom events
 * of `addEvent`, and the length rules for peer names.
 *
 * Lengths are counted in characters; the source counts UTF-16 code units.
 */
module Validation {
  import opened JsValues
  import opened Delivery

  const MetaLength: nat := 5
  const MetaKeyLength: nat := 64
  const AcceptedMetaTypes: set<string> := {"number", "string", "boolean"}
  const AppVersionLength: nat := 16
  const CustomEventNameLength: nat := 120
  const CustomEventBodyLength: nat := 2048
  const PeerNameLength: nat := 64
  const LegacyPeerNameLength: nat := 120

  const InvalidArgument := "Invalid argument. Expected object, got something else."
  const MissingApiKey := "Missing argument apiKey"
  const MissingConferenceId := "Missing argument conferenceId"
  const AppVersionNotString := "appVersion must be a string"
  const AppVersionTooLong := "appVersion must have a max length of 16"
  const MetaNotObject := "The meta attribute should be of type object"
  const TooManyMetaTags := "Argument meta should only have a maximum of 5 attributes"
  const AddEventNotObject := "Parameter for addEvent() should be an object."
  const EventNameTooLong := "eventName should be shorter than 120."
  const NotSerializable := "Custom event is not serializable."

  /** `DEFAULT_OPTIONS` of each SDK; only `pageEvents` differs. */
  function DefaultOptions(v: Variant): map<string, Json>
  {
    map[
      "pageEvents" := (if v == Current then JObj(map["pageVisibility" := JBool(false)])
                       else JObj(map["refresh" := JBool(true), "pageVisibility" := JBool(false),
                                     "fullScreen" := JBool(false)])),
      "apiRoot" := JStr("https://api.peermetrics.io/v1"),
      "debug" := JBool(false),
      "mockRequests" := JBool(false),
      "remote" := JBool(true),
      "getStatsInterval" := JNum(5000)]
  }

  /** The argument after the older SDK's `options = {}` default. */
  function Given(options: Json, v: Variant): Json
  {
    if v == Legacy && options.JUndefined? then JObj(map[]) else options
  }

  /** `{...DEFAULT_OPTIONS, ...options}` */
  function WithDefaults(options: Json, v: Variant): map<string, Json>
  {
    DefaultOptions(v) + OwnEntries(Given(options, v))
  }

  /** A meta tag survives when its key has at most 64 characters and its
      value is a number, a string or a boolean. */
  predicate KeptTag(key: string, value: Json)
  {
    |key| <= MetaKeyLength && TypeOf(value) in AcceptedMetaTypes
  }

  /** The constructor's loop over the meta keys, deleting the tags that are
      too long or of another type; it reports nothing. */
  method SanitiseMeta(meta: map<string, Json>) returns (kept: map<string, Json>)
    ensures forall k :: k in kept <==> k in meta && KeptTag(k, meta[k])
    ensures forall k :: k in kept ==> kept[k] == meta[k]
  {
    kept := meta;
    var keys := meta.Keys;
    while keys != {}
      invariant keys <= meta.Keys
      invariant forall k :: k in kept ==> k in meta && kept[k] == meta[k]
      invariant forall k :: k in keys ==> k in kept
      invariant forall k :: k in meta && k !in keys ==> (k in kept <==> KeptTag(k, meta[k]))
      decreases keys
    {
      var key :| key in keys;
      if |key| > MetaKeyLength {
        kept := kept - {key};
      } else if TypeOf(kept[key]) !in AcceptedMetaTypes {
        kept := kept - {key};
      }
      keys := keys - {key};
    }
  }

  /** `Object.keys(meta).length`: the indices of an array, the own
      properties of an object. */
  function MetaKeyCount(meta: Json): nat
  {
    if meta.JArr? then |meta.items| else |OwnEntries(meta)|
  }

  /** `appVersion` is absent, or a string of at most 16 characters. */
  predicate AppVersionValid(o: map<string, Json>)
  {
    "appVersion" in o ==> o["appVersion"].JStr? && |o["appVersion"].s| <= AppVersionLength
  }

  /** The checks the constructor makes, in order, and the options it keeps:
      the defaults overridden by the caller's options, with the meta tags
      sanitised. */
  method ValidateOptions(options: Json, v: Variant) returns (r: Result<Json>)
    ensures var o := WithDefaults(options, v);
      var meta := if "meta" in o then o["meta"] else JUndefined;
      && (TypeOf(Given(options, v)) != "object" ==> r == Fail(Thrown(InvalidArgument)))
      && (TypeOf(Given(options, v)) == "object" ==>
          && (!Truthy(Get(JObj(o), "apiKey")) ==> r == Fail(Thrown(MissingApiKey)))
          && (Truthy(Get(JObj(o), "apiKey")) && !Truthy(Get(JObj(o), "conferenceId")) ==>
                r == Fail(Thrown(MissingConferenceId)))
          && (Truthy(Get(JObj(o), "apiKey")) && Truthy(Get(JObj(o), "conferenceId")) ==>
                && ("appVersion" in o && !o["appVersion"].JStr? ==> r == Fail(Thrown(AppVersionNotString)))
                && ("appVersion" in o && o["appVersion"].JStr? && |o["appVersion"].s| > AppVersionLength ==>
                      r == Fail(Thrown(AppVersionTooLong)))
                && (AppVersionValid(o) && "meta" in o && !(Truthy(meta) && TypeOf(meta) == "object") ==>
                      r == Fail(Thrown(MetaNotObject)))
                && ((AppVersionValid(o) && "meta" in o && Truthy(meta) && TypeOf(meta) == "object" &&
                     MetaKeyCount(meta) > MetaLength) ==> r == Fail(Thrown(TooManyMetaTags)))))
      && (r.Ok? <==>
          && TypeOf(Given(options, v)) == "object"
          && Truthy(Get(JObj(o), "apiKey")) && Truthy(Get(JObj(o), "conferenceId"))
          && AppVersionValid(o)
          && ("meta" in o ==> Truthy(meta) && TypeOf(meta) == "object" && MetaKeyCount(meta) <= MetaLength))
      && (r.Fail? ==> r.error.Thrown?)
      && (r.Ok? ==>
          && r.value.JObj?
          && r.value.fields.Keys == o.Keys
          && (forall k :: k in o && k != "meta" ==> r.value.fields[k] == o[k])
          && (meta.JObj? ==>
                && r.value.fields["meta"].JObj?
                && (forall k :: k in r.value.fields["meta"].fields <==> k in meta.fields && KeptTag(k, meta.fields[k]))
                && (forall k :: k in r.value.fields["meta"].fields ==> r.value.fields["meta"].fields[k] == meta.fields[k]))
          && ("meta" in o && !meta.JObj? ==> r.value.fields["meta"] == meta))
  {
    var given := Given(options, v);
    if TypeOf(given) != "object" {
      return Fail(Thrown(InvalidArgument));
    }
    var o := WithDefaults(options, v);
    if !Truthy(Get(JObj(o), "apiKey")) {
      return Fail(Thrown(MissingApiKey));
    }
    if !Truthy(Get(JObj(o), "conferenceId")) {
      return Fail(Thrown(MissingConferenceId));
    }
    if "appVersion" in o {
      if !o["appVersion"].JStr? {
        return Fail(Thrown(AppVersionNotString));
      }
      if |o["appVersion"].s| > AppVersionLength {
        return Fail(Thrown(AppVersionTooLong));
      }
    }
    if "meta" in o {
      var meta := o["meta"];
      if !Truthy(meta) || TypeOf(meta) != "object" {
        return Fail(Thrown(MetaNotObject));
      }
      if MetaKeyCount(meta) > MetaLength {
        return Fail(Thrown(TooManyMetaTags));
      }
      if meta.JObj? {
        var kept := SanitiseMeta(meta.fields);
        o := o["meta" := JObj(kept)];
      }
    }
    r := Ok(JObj(o));
  }

  /** `x.length > n` for the values whose `length` the model knows: strings,
      arrays, and objects with a numeric `length` property. */
  predicate LengthOver(x: Json, n: nat)
  {
    match x
    case JStr(s) => |s| > n
    case JArr(items) => |items| > n
    case JObj(_) => Get(x, "length").JNum? && Get(x, "length").n > n
    case _ => false
  }

  /** The checks of `addEvent`. `serialised` is the length of
      `JSON.stringify(options)`, or None when it throws. The result is the
      object handed to `sendCustomEvent`. */
  function CustomEventCheck(options: Json, serialised: Option<nat>, v: Variant): (r: Result<Json>)
    ensures var given := Given(options, v);
      && (v == Current && TypeOf(given) != "object" ==> r == Fail(Thrown(AddEventNotObject)))
      && ((v == Legacy || TypeOf(given) == "object") && given.JNull? ==> r == Fail(TypeError))
      && (r.Ok? <==>
          && (v == Current ==> TypeOf(given) == "object")
          && !given.JNull?
          && !(Truthy(Get(given, "eventName")) && LengthOver(Get(given, "eventName"), CustomEventNameLength))
          && serialised.Some? && serialised.value <= CustomEventBodyLength)
      && (r.Ok? ==> r.value == given)
      && (!given.JNull? && (v == Legacy || TypeOf(given) == "object")
          && Truthy(Get(given, "eventName")) && LengthOver(Get(given, "eventName"), CustomEventNameLength)
          ==> r == Fail(Thrown(EventNameTooLong)))
      && (!given.JNull? && (v == Legacy || TypeOf(given) == "object")
          && !(Truthy(Get(given, "eventName")) && LengthOver(Get(given, "eventName"), CustomEventNameLength))
          && (serialised.None? || serialised.value > CustomEventBodyLength)
          ==> r == Fail(Thrown(NotSerializable)))
  {
    var given := Given(options, v);
    if v == Current && TypeOf(given) != "object" then Fail(Thrown(AddEventNotObject))
    else if given.JNull? then Fail(TypeError)
    else if Truthy(Get(given, "eventName")) && LengthOver(Get(given, "eventName"), CustomEventNameLength) then
      Fail(Thrown(EventNameTooLong))
    else if serialised.None? || serialised.value > CustomEventBodyLength then Fail(Thrown(NotSerializable))
    else Ok(given)
  }

  /** `peerName.slice(64)`: a name longer than 64 characters keeps what comes
      after its first 64 characters. */
  function TrimPeerName(name: string): string
  {
    if |name| > PeerNameLength then name[PeerNameLength..] else name
  }

  /** The trimmed name is within 64 characters exactly when the original had
      at most 128; past that the rule lets longer names through, and a name
      of 65 to 128 characters loses its first 64. */
  lemma TrimPeerNameBound(name: string)
    ensures |TrimPeerName(name)| <= PeerNameLength <==> |name| <= 2 * PeerNameLength
    ensures |name| > PeerNameLength ==> |TrimPeerName(name)| == |name| - PeerNameLength
    ensures |name| > PeerNameLength ==> name == name[..PeerNameLength] + TrimPeerName(name)
  {
  }

  /** `peerName.substr(0, 120)` in the older SDK: the first 120 characters. */
  function CutPeerName(name: string): (r: string)
    ensures |r| <= LegacyPeerNameLength
    ensures r <= name
    ensures |name| <= LegacyPeerNameLength ==> r == name
    ensures |name| > LegacyPeerNameLength ==> r == name[..LegacyPeerNameLength]
  {
    if |name| > LegacyPeerNameLength then name[..LegacyPeerNameLength] else name
  }
}
