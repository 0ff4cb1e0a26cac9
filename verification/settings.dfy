/**
 * The component's configuration record and the JSON document `getConfig`
 * emits for it. JSON text itself is not modelled: a document is the record
 * of the keys it holds.
 */
module Settings {

  /** `SunriseSunset_config`: latitude and longitude are stored and echoed unchanged. */
  datatype Config = Config(
    lat: real,
    lng: real,
    timezoneString: string,
    timezoneOffsetSeconds: int,
    automaticTimezoneOffset: bool)

  /** The document `getConfig` emits: four keys, `automatic_timezone_offset` is not among them. */
  datatype ConfigDoc = ConfigDoc(lat: real, lng: real, timezoneString: string, timezoneOffsetSeconds: int)

  /** The settings installed on first start, when no stored file exists. */
  const Defaults: Config := Config(40.0, -73.0, "America/New_York", -18000, false)

  /** getConfig: the document holding the four serialised fields. */
  function Serialize(c: Config): (d: ConfigDoc) {
    ConfigDoc(c.lat, c.lng, c.timezoneString, c.timezoneOffsetSeconds)
  }

  /**
   * What setConfig reads from a document that `Serialize` produced: the four
   * keys as written, and `automatic_timezone_offset`, being absent, as false.
   */
  function ParseDoc(d: ConfigDoc): (c: Config) {
    Config(d.lat, d.lng, d.timezoneString, d.timezoneOffsetSeconds, false)
  }

  /** Serialising and reading back keeps a configuration exactly when its automatic flag is off. */
  lemma SerializeParseRoundTrip(c: Config)
    ensures ParseDoc(Serialize(c)) == c <==> !c.automaticTimezoneOffset
    ensures ParseDoc(Serialize(c)) == c.(automaticTimezoneOffset := false)
  {
  }

  /** Every emitted document is reproduced by reading it back and emitting it again. */
  lemma ParseSerializeRoundTrip(d: ConfigDoc)
    ensures Serialize(ParseDoc(d)) == d
  {
  }

  /** Emitting loses the automatic flag and nothing else. */
  lemma SerializeForgetsOnlyAutomatic(c1: Config, c2: Config)
    ensures Serialize(c1) == Serialize(c2) <==> c1.(automaticTimezoneOffset := c2.automaticTimezoneOffset) == c2
  {
  }
}
