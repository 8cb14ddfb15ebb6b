/** Value types shared by the three websocket nodes: optional and failing results,
    the JSON values `json.loads` can produce, bytes, and the Python exceptions
    that escape a node to the host. */
module Values {

  datatype Option<+T> = None | Some(value: T)

  /** The outcome of a step that either yields a value or raises an exception
      that the node does not catch. */
  datatype Result<+T> = Ok(value: T) | Err(error: PyError)

  newtype byte = x: int | 0 <= x < 256

  type Bytes = seq<byte>

  /** A value as `json.loads` returns it. Python's `int` and `float` are folded
      into `JNumber`: no branch of the nodes depends on the distinction, but a
      number handed back by the field node loses it. */
  datatype Json =
    | JNull
    | JBool(b: bool)
    | JNumber(n: real)
    | JString(s: string)
    | JArray(items: seq<Json>)
    | JObject(members: map<string, Json>)

  /** Exceptions that propagate out of a node (none of these is caught). */
  datatype PyError =
    | TypeError          // `"image" in data` on a JSON number, boolean or null
    | AttributeError     // `data.get` on a JSON value that is not an object
    | ImageDecodeFailed  // the lazy full decode in `image.convert("RGB")`
    | ValueError         // `Image.fromarray` failed with TypeError, re-raised
    | JpegWriteFailed    // `img.save(..., format="JPEG")` refused the image
    | ConnectionFailed   // `websocket.create_connection` could not connect
    | ConnectionClosed   // `recv` or `send` on a connection the peer dropped
}
