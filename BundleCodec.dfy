/**
 * The JSON form of a pre-key bundle: ids as numbers, keys and signatures as
 * Base64 text, optional parts as null. `serializePreKeyBundle` and
 * `deserializePreKeyBundle`.
 */
module BundleCodec {
  import opened Wrappers
  import opened SignalTypes
  import Base64
  import ProtocolManager

  /** `SerializedPreKeyBundle`; `None` stands for null. */
  datatype SerializedPreKeyBundle = SerializedPreKeyBundle(
    registrationId: nat,
    deviceId: nat,
    preKeyId: Option<nat>,
    preKey: Option<string>,
    signedPreKeyId: nat,
    signedPreKey: string,
    signedPreKeySignature: string,
    identityKey: string,
    kyberPreKeyId: Option<nat>,
    kyberPreKey: Option<string>,
    kyberPreKeySignature: Option<string>)

  /** `value || null`: an absent value and the empty string both become null. */
  function OrNull(value: Option<string>): (r: Option<string>)
    ensures r.Some? <==> value.Some? && value.value != ""
    ensures r.Some? ==> r == value
  {
    if value.Some? && value.value != "" then value else None
  }

  /** An optional byte field on the wire: `field?.toString('base64') || null`. */
  function EncodeOptional(field: Option<Bytes>): (r: Option<string>)
    ensures r.Some? <==> field.Some? && field.value != []
    ensures r.Some? ==> r.value == Base64.Encode(field.value)
  {
    Base64.EncodeEmptyIff(if field.Some? then field.value else []);
    OrNull(if field.Some? then Some(Base64.Encode(field.value)) else None)
  }

  /** `serializePreKeyBundle`: ids copied as they are, byte fields as Base64 text. */
  function SerializePreKeyBundle(bundle: PreKeyBundle): (s: SerializedPreKeyBundle)
    ensures s.registrationId == bundle.registrationId && s.deviceId == bundle.deviceId
    ensures s.preKeyId == bundle.preKeyId && s.signedPreKeyId == bundle.signedPreKeyId
    ensures s.kyberPreKeyId == bundle.kyberPreKeyId
    ensures Base64.Decode(s.signedPreKey) == Some(bundle.signedPreKey.serialized)
    ensures Base64.Decode(s.signedPreKeySignature) == Some(bundle.signedPreKeySignature)
    ensures Base64.Decode(s.identityKey) == Some(bundle.identityKey.serialized)
    ensures s.preKey.None? <==> bundle.preKey.None? || bundle.preKey.value.serialized == []
    ensures s.kyberPreKey.None? <==> bundle.kyberPreKey.None? || bundle.kyberPreKey.value.serialized == []
    ensures s.kyberPreKeySignature.None? <==> bundle.kyberPreKeySignature.None? || bundle.kyberPreKeySignature.value == []
    ensures s.preKey.Some? ==> Base64.Decode(s.preKey.value) == Some(bundle.preKey.value.serialized)
    ensures s.kyberPreKey.Some? ==> Base64.Decode(s.kyberPreKey.value) == Some(bundle.kyberPreKey.value.serialized)
    ensures s.kyberPreKeySignature.Some? ==> Base64.Decode(s.kyberPreKeySignature.value) == Some(bundle.kyberPreKeySignature.value)
  {
    Base64.DecodeEncode(bundle.signedPreKey.serialized);
    Base64.DecodeEncode(if bundle.preKey.Some? then bundle.preKey.value.serialized else []);
    Base64.DecodeEncode(if bundle.kyberPreKey.Some? then bundle.kyberPreKey.value.serialized else []);
    Base64.DecodeEncode(if bundle.kyberPreKeySignature.Some? then bundle.kyberPreKeySignature.value else []);
    Base64.DecodeEncode(bundle.signedPreKeySignature);
    Base64.DecodeEncode(bundle.identityKey.serialized);
    SerializedPreKeyBundle(
      bundle.registrationId,
      bundle.deviceId,
      bundle.preKeyId,
      EncodeOptional(if bundle.preKey.Some? then Some(bundle.preKey.value.serialized) else None),
      bundle.signedPreKeyId,
      Base64.Encode(bundle.signedPreKey.serialized),
      Base64.Encode(bundle.signedPreKeySignature),
      Base64.Encode(bundle.identityKey.serialized),
      bundle.kyberPreKeyId,
      EncodeOptional(if bundle.kyberPreKey.Some? then Some(bundle.kyberPreKey.value.serialized) else None),
      EncodeOptional(bundle.kyberPreKeySignature))
  }

  /** A mandatory Base64 field. */
  function DecodeField(text: string, field: string): (r: Result<Bytes, Error>)
    ensures r.Success? <==> Base64.Decode(text).Some?
    ensures r.Success? ==> Base64.Encode(r.value) == text
    ensures r.Failure? ==> r.error == InvalidBase64(field)
  {
    match Base64.Decode(text)
    case Some(bytes) =>
      Base64.EncodeDecode(text);
      Success(bytes)
    case None => Failure(InvalidBase64(field))
  }

  /** An optional field is acceptable when it is null, "" or Base64 text. */
  predicate OptionalDecodes(text: Option<string>) {
    text.None? || text.value == "" || Base64.Decode(text.value).Some?
  }

  /** An optional Base64 field, `text ? decode(text) : null`: null and "" both mean absent. */
  function DecodeOptional(text: Option<string>, field: string): (r: Result<Option<Bytes>, Error>)
    ensures text.None? || text.value == "" ==> r == Success(None)
    ensures r.Success? <==> OptionalDecodes(text)
    ensures r.Success? ==> (r.value.Some? <==> text.Some? && text.value != "")
    ensures r.Success? && r.value.Some? ==> text.Some? && Base64.Encode(r.value.value) == text.value
    ensures r.Failure? ==> r.error == InvalidBase64(field)
  {
    if text.None? || text.value == "" then Success(None)
    else
      match DecodeField(text.value, field)
      case Success(bytes) => Success(Some(bytes))
      case Failure(error) => Failure(error)
  }

  /**
   * `deserializePreKeyBundle`: ids copied back, Base64 fields decoded and
   * read as keys and signatures. Fields are decoded in argument order and the
   * first one that is not Base64 is reported.
   */
  function DeserializePreKeyBundle(s: SerializedPreKeyBundle): (r: Result<PreKeyBundle, Error>)
    ensures r.Success? ==>
      && r.value.registrationId == s.registrationId && r.value.deviceId == s.deviceId
      && r.value.preKeyId == s.preKeyId && r.value.signedPreKeyId == s.signedPreKeyId
      && r.value.kyberPreKeyId == s.kyberPreKeyId
    ensures r.Success? ==>
      && Base64.Encode(r.value.signedPreKey.serialized) == s.signedPreKey
      && Base64.Encode(r.value.signedPreKeySignature) == s.signedPreKeySignature
      && Base64.Encode(r.value.identityKey.serialized) == s.identityKey
    ensures r.Success? ==>
      && (r.value.preKey.None? <==> s.preKey.None? || s.preKey.value == "")
      && (r.value.kyberPreKey.None? <==> s.kyberPreKey.None? || s.kyberPreKey.value == "")
      && (r.value.kyberPreKeySignature.None? <==> s.kyberPreKeySignature.None? || s.kyberPreKeySignature.value == "")
    ensures r.Success? && r.value.preKey.Some? ==> Base64.Encode(r.value.preKey.value.serialized) == s.preKey.value
    ensures r.Success? && r.value.kyberPreKey.Some? ==> Base64.Encode(r.value.kyberPreKey.value.serialized) == s.kyberPreKey.value
    ensures r.Success? && r.value.kyberPreKeySignature.Some? ==>
      Base64.Encode(r.value.kyberPreKeySignature.value) == s.kyberPreKeySignature.value
    ensures r.Success? <==>
      && Base64.Decode(s.signedPreKey).Some? && Base64.Decode(s.signedPreKeySignature).Some?
      && Base64.Decode(s.identityKey).Some?
      && OptionalDecodes(s.preKey) && OptionalDecodes(s.kyberPreKey) && OptionalDecodes(s.kyberPreKeySignature)
    ensures r.Failure? ==> r.error.InvalidBase64?
    ensures !OptionalDecodes(s.preKey) ==> r == Failure(InvalidBase64("preKey"))
  {
    var preKey :- DecodeOptional(s.preKey, "preKey");
    var signedPreKey :- DecodeField(s.signedPreKey, "signedPreKey");
    var signature :- DecodeField(s.signedPreKeySignature, "signedPreKeySignature");
    var identityKey :- DecodeField(s.identityKey, "identityKey");
    var kyberPreKey :- DecodeOptional(s.kyberPreKey, "kyberPreKey");
    var kyberSignature :- DecodeOptional(s.kyberPreKeySignature, "kyberPreKeySignature");
    Success(PreKeyBundle(
      s.registrationId,
      s.deviceId,
      s.preKeyId,
      if preKey.Some? then Some(PublicKey(preKey.value)) else None,
      s.signedPreKeyId,
      PublicKey(signedPreKey),
      signature,
      PublicKey(identityKey),
      s.kyberPreKeyId,
      if kyberPreKey.Some? then Some(KemPublicKey(kyberPreKey.value)) else None,
      kyberSignature))
  }

  /** The bundle with every optional key or signature whose bytes are empty dropped, as `|| null` does. */
  function DropEmptyOptionals(bundle: PreKeyBundle): (r: PreKeyBundle)
    ensures r.preKey.None? <==> bundle.preKey.None? || bundle.preKey.value.serialized == []
    ensures r.kyberPreKey.None? <==> bundle.kyberPreKey.None? || bundle.kyberPreKey.value.serialized == []
    ensures r.kyberPreKeySignature.None? <==> bundle.kyberPreKeySignature.None? || bundle.kyberPreKeySignature.value == []
    ensures r.preKey.Some? ==> r.preKey == bundle.preKey
    ensures r.kyberPreKey.Some? ==> r.kyberPreKey == bundle.kyberPreKey
    ensures r.kyberPreKeySignature.Some? ==> r.kyberPreKeySignature == bundle.kyberPreKeySignature
    ensures r.(preKey := bundle.preKey, kyberPreKey := bundle.kyberPreKey,
               kyberPreKeySignature := bundle.kyberPreKeySignature) == bundle
  {
    bundle.(
      preKey := if bundle.preKey.Some? && bundle.preKey.value.serialized != [] then bundle.preKey else None,
      kyberPreKey := if bundle.kyberPreKey.Some? && bundle.kyberPreKey.value.serialized != [] then bundle.kyberPreKey else None,
      kyberPreKeySignature :=
        if bundle.kyberPreKeySignature.Some? && bundle.kyberPreKeySignature.value != [] then bundle.kyberPreKeySignature else None)
  }

  /** Decoding an optional field undoes encoding it. */
  lemma OptionalRoundTrip(field: Option<Bytes>, name: string)
    ensures DecodeOptional(EncodeOptional(field), name)
         == Success(if field.Some? && field.value != [] then field else None)
  {
    if field.Some? && field.value != [] {
      Base64.DecodeEncode(field.value);
    }
  }

  /**
   * A bundle survives the trip through JSON: every id and every mandatory
   * key and signature comes back unchanged, and each optional key or
   * signature comes back unless its bytes were empty.
   */
  lemma SerializeRoundTrip(bundle: PreKeyBundle)
    ensures DeserializePreKeyBundle(SerializePreKeyBundle(bundle)) == Success(DropEmptyOptionals(bundle))
  {
    Base64.DecodeEncode(bundle.signedPreKey.serialized);
    Base64.DecodeEncode(bundle.signedPreKeySignature);
    Base64.DecodeEncode(bundle.identityKey.serialized);
    OptionalRoundTrip(if bundle.preKey.Some? then Some(bundle.preKey.value.serialized) else None, "preKey");
    OptionalRoundTrip(if bundle.kyberPreKey.Some? then Some(bundle.kyberPreKey.value.serialized) else None, "kyberPreKey");
    OptionalRoundTrip(bundle.kyberPreKeySignature, "kyberPreKeySignature");
  }

  /** With no empty optional part, the trip through JSON is exact. */
  lemma SerializeRoundTripExact(bundle: PreKeyBundle)
    requires bundle.preKey.Some? ==> bundle.preKey.value.serialized != []
    requires bundle.kyberPreKey.Some? ==> bundle.kyberPreKey.value.serialized != []
    requires bundle.kyberPreKeySignature.Some? ==> bundle.kyberPreKeySignature.value != []
    ensures DeserializePreKeyBundle(SerializePreKeyBundle(bundle)) == Success(bundle)
  {
    SerializeRoundTrip(bundle);
  }

  /** The JSON with every empty optional string replaced by null. */
  function NullEmptyStrings(s: SerializedPreKeyBundle): (r: SerializedPreKeyBundle)
    ensures r.preKey == OrNull(s.preKey) && r.kyberPreKey == OrNull(s.kyberPreKey)
    ensures r.kyberPreKeySignature == OrNull(s.kyberPreKeySignature)
  {
    s.(preKey := OrNull(s.preKey), kyberPreKey := OrNull(s.kyberPreKey),
       kyberPreKeySignature := OrNull(s.kyberPreKeySignature))
  }

  /**
   * The other direction: JSON that deserializes is reproduced by serializing
   * the result, except that an empty optional string comes back as null.
   */
  lemma DeserializeRoundTrip(s: SerializedPreKeyBundle)
    requires DeserializePreKeyBundle(s).Success?
    ensures SerializePreKeyBundle(DeserializePreKeyBundle(s).value) == NullEmptyStrings(s)
  {
    var b := DeserializePreKeyBundle(s).value;
    OptionalInverse(s.preKey, "preKey");
    OptionalInverse(s.kyberPreKey, "kyberPreKey");
    OptionalInverse(s.kyberPreKeySignature, "kyberPreKeySignature");
  }

  /** Encoding a decoded optional field gives back the text, with "" turned to null. */
  lemma OptionalInverse(text: Option<string>, name: string)
    requires DecodeOptional(text, name).Success?
    ensures EncodeOptional(DecodeOptional(text, name).value) == OrNull(text)
  {
    if text.Some? && text.value != "" {
      var bytes := DecodeOptional(text, name).value.value;
      Base64.EncodeEmptyIff(bytes);
    }
  }

  /** `validatePreKeyBundle` gives the same verdict on a bundle before and after the trip through JSON. */
  lemma ValidationSurvivesTransport(lib: Library, bundle: PreKeyBundle)
    ensures DeserializePreKeyBundle(SerializePreKeyBundle(bundle)).Success?
    ensures ProtocolManager.ValidatePreKeyBundle(lib, DeserializePreKeyBundle(SerializePreKeyBundle(bundle)).value)
         == ProtocolManager.ValidatePreKeyBundle(lib, bundle)
  {
    SerializeRoundTrip(bundle);
  }
}
