/** The playground's example convertible type, `CameraConfig`, with its
    serializer and its permissive failable initialiser, and the usage script
    that drives it through an `AnyStore` over an in-memory dictionary store. */
module Playground {
  import opened Transport
  import opened TypedDefaults

  /** `CameraConfig.Size`, an `Int`-backed enumeration with implicit raw values. */
  datatype Size = Large | Medium | Small

  /** `size.rawValue`: the declaration order, counted from zero. */
  function RawValue(s: Size): (n: int)
    ensures 0 <= n <= 2
    ensures [Large, Medium, Small][n] == s
  {
    match s
    case Large => 0
    case Medium => 1
    case Small => 2
  }

  /** `Size(rawValue:)`: defined exactly on the raw values 0, 1 and 2. */
  function SizeFromRawValue(n: int): (r: Option<Size>)
    ensures r.Some? <==> 0 <= n <= 2
    ensures r.Some? ==> RawValue(r.value) == n
  {
    if n == 0 then Some(Large)
    else if n == 1 then Some(Medium)
    else if n == 2 then Some(Small)
    else None
  }

  datatype CameraConfig = CameraConfig(saveToCameraRoll: bool, size: Size)

  const CameraRollKey: string := "cameraRoll"
  const SizeKey: string := "size"

  /** `init?(_ object:)`: fails only when the payload is not a dictionary; a
      missing or non-Boolean "cameraRoll" entry defaults to `true`, and a
      missing, non-integer or out-of-range "size" entry to `.Medium`. */
  function Decode(payload: Value): (r: Option<CameraConfig>)
    ensures r.Some? <==> payload.VDict?
    ensures r.Some? ==>
      (!r.value.saveToCameraRoll <==> CameraRollKey in payload.entries && payload.entries[CameraRollKey] == VBool(false))
    ensures r.Some? ==>
      (r.value.size != Medium ==> SizeKey in payload.entries && payload.entries[SizeKey] == VInt(RawValue(r.value.size)))
  {
    match AsDictionary(payload)
    case None => None
    case Some(dict) =>
      var saveToCameraRoll :=
        match BoolEntry(dict, CameraRollKey)
        case Some(b) => b
        case None => true;
      var size :=
        match IntEntry(dict, SizeKey)
        case Some(rawSize) =>
          (match SizeFromRawValue(rawSize)
           case Some(s) => s
           case None => Medium)
        case None => Medium;
      Some(CameraConfig(saveToCameraRoll, size))
  }

  /** `serialize()`: a dictionary with exactly the two entries "cameraRoll"
      (a Boolean) and "size" (the raw value, an integer). */
  function Encode(c: CameraConfig): (r: Value)
    ensures r.VDict? && r.entries.Keys == {CameraRollKey, SizeKey}
    ensures r.entries[CameraRollKey].VBool? && r.entries[SizeKey].VInt?
  {
    VDict(map[CameraRollKey := VBool(c.saveToCameraRoll), SizeKey := VInt(RawValue(c.size))])
  }

  /** `CameraConfig` as a convertible type. */
  const Converter: Convertible<CameraConfig> := Convertible(Decode, Encode)

  /** Every configuration survives serialization and deserialization. */
  lemma RoundTrip(c: CameraConfig)
    ensures Decode(Encode(c)) == Some(c)
  {
  }

  /** The convertible contract's round-trip law holds for `CameraConfig`. */
  lemma ConverterRoundTrips()
    ensures RoundTrips(Converter)
  {
    forall c: CameraConfig
      ensures Converter.decode(Converter.encode(c)) == Some(c)
    {
      RoundTrip(c);
    }
  }

  /** `CameraConfig([:])` is the default configuration: saved to the camera
      roll, medium size. */
  lemma EmptyDictionaryDefaults()
    ensures Decode(VDict(map[])) == Some(CameraConfig(true, Medium))
  {
  }

  /** A Boolean "cameraRoll" entry is taken as is; any other entry, or none,
      means `true`. */
  lemma CameraRollRule(entries: map<string, Value>)
    ensures Decode(VDict(entries)).Some?
    ensures CameraRollKey in entries && entries[CameraRollKey].VBool? ==>
      Decode(VDict(entries)).value.saveToCameraRoll == entries[CameraRollKey].b
    ensures !(CameraRollKey in entries && entries[CameraRollKey].VBool?) ==>
      Decode(VDict(entries)).value.saveToCameraRoll
  {
  }

  /** An integer "size" entry in 0..2 picks Large, Medium or Small in that
      order; anything else, or no entry, means Medium. */
  lemma SizeRule(entries: map<string, Value>)
    ensures Decode(VDict(entries)).Some?
    ensures Decode(VDict(entries)).value.size ==
      if SizeKey in entries && entries[SizeKey].VInt? && 0 <= entries[SizeKey].i <= 2
      then [Large, Medium, Small][entries[SizeKey].i]
      else Medium
  {
  }

  /** Deserialization looks at the "cameraRoll" and "size" entries only. */
  lemma IgnoresOtherKeys(entries: map<string, Value>, other: map<string, Value>)
    requires forall k :: k in {CameraRollKey, SizeKey} ==> (k in entries <==> k in other)
    requires forall k :: k in {CameraRollKey, SizeKey} && k in entries ==> entries[k] == other[k]
    ensures Decode(VDict(entries)) == Decode(VDict(other))
  {
    assert CameraRollKey in {CameraRollKey, SizeKey};
    assert SizeKey in {CameraRollKey, SizeKey};
  }

  /** The usage script: store the default configuration through an `AnyStore`
      over an in-memory store, read it back through the handle and through
      the store itself, then remove it and read again. */
  method UsageScript(key: string)
    returns (rollAfterSet: Option<bool>, sizeAfterSet: Option<Size>,
             innerAfterSet: Option<CameraConfig>, afterRemove: Option<CameraConfig>)
    ensures rollAfterSet == Some(true) && sizeAfterSet == Some(Medium)
    ensures innerAfterSet == Some(CameraConfig(true, Medium))
    ensures afterRemove == None
  {
    var memoryStore := new DictionaryStore(Converter, key);
    var anyStore := new AnyStore(memoryStore);

    var initial := Decode(VDict(map[]));
    anyStore.Set(initial.value);

    var got := anyStore.Get();
    rollAfterSet := if got.Some? then Some(got.value.saveToCameraRoll) else None;
    got := anyStore.Get();
    sizeAfterSet := if got.Some? then Some(got.value.size) else None;
    innerAfterSet := memoryStore.Get();

    anyStore.Remove();
    afterRemove := anyStore.Get();
  }
}
