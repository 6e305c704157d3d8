/**
 * The part of an HTTP request that the interceptor touches: the path of its
 * URI, its header map and the `u32` slot of its extension map. Header values
 * are raw bytes; `ToStr` is the check that turns one into text.
 */
module Http {
  import opened Wrappers

  newtype byte = b: int | 0 <= b < 256

  /** A header value as it arrives on the wire. */
  datatype HeaderValue = HeaderValue(bytes: seq<byte>)

  /** The bytes `to_str` accepts: a horizontal tab or visible ASCII. */
  predicate IsVisible(b: byte) {
    b == 9 || (32 <= b && b < 127)
  }

  /** Text that a header value can carry unchanged. */
  predicate IsHeaderText(s: string) {
    forall i :: 0 <= i < |s| ==> s[i] == '\t' || (' ' <= s[i] && s[i] <= '~')
  }

  /**
   * `HeaderValue::to_str`: the value as text when every byte is visible,
   * otherwise no text at all.
   */
  function ToStr(v: HeaderValue): (r: Option<string>)
    ensures r.Some? <==> forall i :: 0 <= i < |v.bytes| ==> IsVisible(v.bytes[i])
    ensures r.Some? ==> |r.value| == |v.bytes| && IsHeaderText(r.value)
    ensures r.Some? ==> forall i :: 0 <= i < |v.bytes| ==> r.value[i] as int == v.bytes[i] as int
  {
    if forall i :: 0 <= i < |v.bytes| ==> IsVisible(v.bytes[i]) then
      Some(seq(|v.bytes|, i requires 0 <= i < |v.bytes| => v.bytes[i] as int as char))
    else
      None
  }

  /** The header value holding the given text, one byte per character. */
  function FromText(s: string): (v: HeaderValue)
    requires IsHeaderText(s)
    ensures |v.bytes| == |s|
    ensures forall i :: 0 <= i < |s| ==> v.bytes[i] as int == s[i] as int
  {
    HeaderValue(seq(|s|, i requires 0 <= i < |s| => s[i] as int as byte))
  }

  /** Header text survives a trip through a header value. */
  lemma ToStrFromText(s: string)
    requires IsHeaderText(s)
    ensures ToStr(FromText(s)) == Some(s)
  {
    var v := FromText(s);
    forall i | 0 <= i < |v.bytes| ensures IsVisible(v.bytes[i]) {
      assert v.bytes[i] as int == s[i] as int;
    }
    var r := ToStr(v);
    assert r.value == s;
  }

  /** A header value that reads as text is the value of that text. */
  lemma FromTextToStr(v: HeaderValue)
    requires ToStr(v).Some?
    ensures IsHeaderText(ToStr(v).value) && FromText(ToStr(v).value) == v
  {
  }

  /**
   * A request: the path of its URI, its headers keyed by name, and the `u32`
   * entry of its type-keyed extension map (absent until someone inserts one).
   */
  datatype Request = Request(path: string, headers: map<string, HeaderValue>, marker: Option<nat>)
}
