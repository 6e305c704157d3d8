/**
 * The interceptor's configuration value (src/options.rs): the name of the
 * header that carries an inbound trace id and a flag reserved for verbose
 * service names. Both types are plain values; their fields are crate-private
 * and have no setters, so a value never changes after it is built.
 */
module Config {

  /** The name of the trace-id header (the newtype `Header(String)`). */
  datatype Header = Header(name: string)

  datatype Options = Options(header: Header, verboseName: bool)

  /** `Header::default()`: the conventional trace header. */
  function DefaultHeader(): (h: Header)
    ensures h.name == "x-trace-id"
  {
    Header("x-trace-id")
  }

  /**
   * The derived `Options::default()`: every field takes its own type's
   * default, so the header is `Header::default()` and the flag is `false`.
   */
  function DefaultOptions(): (o: Options)
    ensures o.header == DefaultHeader()
    ensures o.header.name == "x-trace-id"
    ensures !o.verboseName
  {
    Options(DefaultHeader(), false)
  }

  /** The derived `Clone`: each field is cloned in turn. */
  function CloneOptions(o: Options): (c: Options)
    ensures c == o
  {
    Options(Header(o.header.name), o.verboseName)
  }
}
