/**
 * Trace-id resolution (`extract`, src/lib.rs:148-157): the value of the
 * configured header when the request carries it, otherwise a freshly
 * generated id. Generating a random id is not modelled; the id is an input.
 */
module Trace {
  import opened Wrappers
  import opened Config
  import opened Http

  /**
   * `extract` as written: look the header up, read its value as text and
   * `unwrap` that reading, falling back to the generated id only when the
   * header is absent. A present value that is not text panics.
   */
  function Extract(req: Request, header: Header, generated: string): (r: Outcome<string>)
    ensures header.name !in req.headers ==> r == Done(generated)
    ensures header.name in req.headers ==> (r.Done? <==> ToStr(req.headers[header.name]).Some?)
    ensures header.name in req.headers && r.Done? ==> r.value == ToStr(req.headers[header.name]).value
  {
    var found := if header.name in req.headers then Some(req.headers[header.name]) else None;
    match found
    case None => Done(generated)
    case Some(v) =>
      match ToStr(v)
      case Some(text) => Done(text)
      case None => Panic
  }

  /** A caller's trace id set as header text comes back unchanged. */
  lemma ExtractEchoesHeader(req: Request, header: Header, id: string, generated: string)
    requires IsHeaderText(id)
    requires header.name in req.headers && req.headers[header.name] == FromText(id)
    ensures Extract(req, header, generated) == Done(id)
  {
    ToStrFromText(id);
  }

  /**
   * The `unwrap` is reachable: a default-configured trace header holding the
   * byte 0x80 makes `extract` panic instead of falling back.
   */
  lemma ExtractPanicsOnNonText(generated: string)
    ensures Extract(Request("/", map[DefaultHeader().name := HeaderValue([0x80])], None),
                    DefaultHeader(), generated) == Panic
  {
    var v := HeaderValue([0x80]);
    assert !IsVisible(v.bytes[0]);
  }

  /**
   * Trace-id resolution as intended: an unreadable header value falls back to
   * the generated id like an absent one, so resolution never panics.
   */
  function ResolveTraceId(req: Request, header: Header, generated: string): (id: string)
    ensures header.name in req.headers && ToStr(req.headers[header.name]).Some? ==>
              id == ToStr(req.headers[header.name]).value
    ensures header.name !in req.headers || ToStr(req.headers[header.name]).None? ==>
              id == generated
  {
    if header.name in req.headers then
      match ToStr(req.headers[header.name])
      case Some(text) => text
      case None => generated
    else
      generated
  }

  /** Wherever `extract` does not panic, the corrected resolution agrees with it. */
  lemma ResolveAgreesWithExtract(req: Request, header: Header, generated: string)
    ensures Extract(req, header, generated).Done? ==>
              ResolveTraceId(req, header, generated) == Extract(req, header, generated).value
    ensures Extract(req, header, generated).Panic? ==>
              ResolveTraceId(req, header, generated) == generated
  {
  }
}
