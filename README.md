# OxleyCustomNode websocket nodes — a Dafny model

This project models the decision logic of the three websocket nodes in
`oxleycustomnode.py`, a ComfyUI custom-node package that moves images and JSON
fields between the host's tensor pipeline and a websocket endpoint:

- **`download_image_ws`** connects, receives one message, closes, parses it as
  JSON, takes the `"image"` string, strips a data-URI prefix with
  `split(",")[1]`, Base64-decodes, opens the image and returns a `(1, H, W, 3)`
  tensor. It returns `None` when the message is not JSON, has no `"image"`, or
  the image data fails inside the `try`.
- **`receive_json_ws`** connects, receives one message, closes, and returns three
  fields of the JSON object, each defaulting to `"N/A"`. A message that is not
  JSON gives the fixed triple `("Error: Non-JSON message received", "", "")`.
- **`push_image_ws`** squeezes the tensor, moves a leading channel axis last,
  quantises to `uint8`, encodes JPEG and Base64, then connects, sends
  `{"image": <base64>}` once, closes and returns `"Image sent successfully"`.

Modules:

- `values.dfy` (`Values`): `Option`, `Result`, a tagged `Json` value, bytes, and
  the Python exceptions that escape a node.
- `data_uri.dfy` (`DataUri`): Python's `split(",")` and the index-1 segment.
- `inbound.dfy` (`Inbound`): what the two receiving nodes do with the parsed
  message. This includes Python's own behaviour on JSON values that are not
  objects: `in` on a list, a string or a scalar, and `.get` on a non-dict.
- `push_encoding.dfy` (`PushEncoding`): shapes, `squeeze`, `transpose(1, 2, 0)`
  on row-major data, clamped quantisation, and the JPEG encode step.
- `transport.dfy` (`Transport`): a `Session` class that keeps a log of
  connect, receive/send and close events, with methods whose preconditions
  allow one exchange per session.
- `nodes.dfy` (`Nodes`): the three nodes as methods over a `Session`, plus
  lemmas relating the push node's message to the receiving nodes.

Library calls are parameters: `json.loads` is a `string -> Option<Json>`
(`None` for `JSONDecodeError`), `json.dumps`, `base64` and the PIL calls are
fields of `ImageLib` and `PushLib`. The remote endpoint is a `Peer` value. It
says whether the endpoint accepts the connection, what it sends, and whether it
takes what is sent to it.

Three consequences of the code as written, each kept in the model:

- A string without a comma gives no result, because `split(",")[1]` raises
  IndexError. A bare Base64 string is therefore rejected, including the push
  node's own message (`Nodes.PushedImageRejectedByDownload`).
- `recv` and `send` are not in a `try`/`finally`, so `close` is skipped when
  they raise; the node methods leave the session `Open` in those cases.
- `Image.open` only reads the header inside the `try`. The pixels are decoded
  by `image.convert("RGB")` at line 67, outside it. A corrupt image body
  therefore raises out of `download_image_ws` rather than returning `None`
  (`PullRaised(ImageDecodeFailed)`).

## Model

| member | source | states |
|---|---|---|
| `DataUri.Split` | oxleycustomnode.py:55 | `split(",")` gives at least one segment, no segment contains a comma, and there is a single segment exactly when the string has no comma |
| `DataUri.JoinSplit` | oxleycustomnode.py:55 | re-joining the segments with commas gives back the original string |
| `DataUri.SplitJoin` | oxleycustomnode.py:55 | splitting comma-free segments joined with commas gives back those segments |
| `DataUri.ImagePayload` | oxleycustomnode.py:55-60 | the index-1 segment is missing (the caught `IndexError`) exactly when the string has no comma; a present one contains no comma |
| `DataUri.ImagePayloadByIndex` | oxleycustomnode.py:55 | the payload is the text after the first comma, up to the next comma or the end |
| `DataUri.DataUriPayload` | oxleycustomnode.py:55 | for `<prefix>,<payload>` with comma-free parts, possibly followed by more comma-separated text, the result is exactly the payload |
| `Inbound.PyContains` | oxleycustomnode.py:51 | `"image" in data` raises TypeError exactly on numbers, booleans and null; on an object it tests key membership |
| `Inbound.OpenImageField` | oxleycustomnode.py:53-60 | an opened image is produced only from an object whose `"image"` member is a string containing a comma |
| `Inbound.PullImage` | oxleycustomnode.py:43-79 | the non-JSON result occurs exactly when parsing failed; only TypeError or the deferred decode failure can escape; a tensor always has shape `(1, H, W, 3)` |
| `Inbound.PullImageOnObject` | oxleycustomnode.py:43-64 | on a JSON object: no result for a missing key exactly when `"image"` is absent; no result for bad data exactly when strip, decode or open fails; a tensor of the opened image's size exactly when all succeed and the full decode succeeds; never TypeError |
| `Inbound.PullImageOnNonObject` | oxleycustomnode.py:45-60 | a JSON value that is not an object never yields a tensor, and raises exactly when it is a number, boolean or null |
| `Inbound.PyGet` | oxleycustomnode.py:178-180 | `data.get(key, "N/A")` raises AttributeError exactly on non-objects, and otherwise gives the member or `"N/A"` when it is absent |
| `Inbound.PullFields` | oxleycustomnode.py:169-183 | a parse failure gives exactly the error triple; an exception (AttributeError) occurs exactly when the parsed value is not an object |
| `Inbound.PullFieldsOnObject` | oxleycustomnode.py:177-183 | on an object, each slot is the member of its requested name or `"N/A"` |
| `Inbound.PullFieldsIndependent` | oxleycustomnode.py:178-180 | each slot depends only on its own name: the same name gives the same value in any slot, whatever the other names are |
| `PushEncoding.Squeeze` | oxleycustomnode.py:106 | no axis of length 1 survives, and the rank never grows |
| `PushEncoding.SqueezeProduct` | oxleycustomnode.py:106 | squeezing keeps the number of samples, so the row-major data is unchanged |
| `PushEncoding.SqueezeMultiset` | oxleycustomnode.py:106 | exactly the axes of length 1 are removed; every other length keeps its multiplicity |
| `PushEncoding.SqueezeAppend` | oxleycustomnode.py:106 | squeezing distributes over concatenation, so the kept axes keep their order |
| `PushEncoding.SqueezeIdempotent` | oxleycustomnode.py:106 | a shape without length-1 axes is unchanged, and squeezing twice equals squeezing once |
| `PushEncoding.ChannelFirstAfterSqueeze` | oxleycustomnode.py:106-109 | after `squeeze` the channel-first test holds only for a leading axis of 3; the `1` of `{1, 3}` can never match |
| `PushEncoding.RotateShape` | oxleycustomnode.py:112 | `transpose(1, 2, 0)` on a rank-3 shape keeps the multiset of axis lengths and the sample count |
| `PushEncoding.IsChannelFirst` | oxleycustomnode.py:109 | the transpose test: rank 3 with a leading axis of 1 or 3 |
| `PushEncoding.TransposeToChannelLast` | oxleycustomnode.py:112 | the data side of `transpose(1, 2, 0)`: the same number of samples, with sample (c, h, w) landing at (h, w, c), see `TransposeAt` |
| `PushEncoding.TransposeAt` | oxleycustomnode.py:112 | the sample at channel c, row h, column w moves from row-major `(c, h, w)` to row-major `(h, w, c)` |
| `PushEncoding.ToImageLayout` | oxleycustomnode.py:106-112 | the array stays well formed, has no length-1 axis, and keeps every axis length other than 1 with its multiplicity |
| `PushEncoding.ToImageLayoutCases` | oxleycustomnode.py:109-112 | the result is permuted to `(axis1, axis2, 3)`, its data being the transposed samples, exactly when the squeezed shape has rank 3 and leads with 3; otherwise the squeezed shape and data are kept |
| `PushEncoding.ChannelLastImageKept` | oxleycustomnode.py:103-112 | a batch of one channel-last image `(1, h, w, 3)` with h not 1 or 3 and w not 1 becomes `(h, w, 3)` with its data unchanged |
| `PushEncoding.ChannelFirstImageTransposed` | oxleycustomnode.py:103-112 | a batch of one channel-first image `(1, 3, h, w)` with h and w not 1 becomes `(h, w, 3)` |
| `PushEncoding.ChannelLastMisread` | oxleycustomnode.py:106-112 | with w not 1, a channel-last image of height 3 is wrongly transposed to `(w, 3, 3)`; one of height 1 becomes the 2-D `(w, 3)` |
| `PushEncoding.ChannelFirstRowMisread` | oxleycustomnode.py:106-112 | with w not 1, a channel-first image of height 1, `(1, 3, 1, w)`, is not transposed and stays the 2-D `(3, w)` with its data unchanged, a 3-row grayscale picture |
| `PushEncoding.Quantise` | oxleycustomnode.py:118 | a sample in [0, 1] maps to the floor of 255 times it, below 0 to 0, above 1 to 255 |
| `PushEncoding.QuantiseMonotone` | oxleycustomnode.py:118 | quantisation is monotone |
| `PushEncoding.QuantiseAll` | oxleycustomnode.py:118 | every sample is quantised element by element, each at its own index, keeping the count |
| `PushEncoding.ToPixels` | oxleycustomnode.py:106-118 | the uint8 array given to `Image.fromarray` has one byte per sample of its shape and no length-1 axis |
| `PushEncoding.EncodeJpeg` | oxleycustomnode.py:120-127 | encoding fails exactly when `fromarray` or the JPEG save fails; a failed `fromarray` is reported as ValueError, a failed save as the save's error |
| `PushEncoding.PushEnvelope` | oxleycustomnode.py:136 | the message object has the single key `"image"`, holding the Base64 text |
| `PushEncoding.PushMessage` | oxleycustomnode.py:128-136 | the serialised single-key envelope `{"image": <base64>}` of the JPEG's Base64 text |
| `PushEncoding.Base64HasNoComma` | oxleycustomnode.py:128-129 | Base64 output contains no comma |
| `Transport.ShutSessionIsSingleShot` | oxleycustomnode.py:37-41 | a closed session connected first, closed last, and did at most one receive or send |
| `Transport.Session.Connect` | oxleycustomnode.py:37 | opens the session and logs the connection exactly when the endpoint is reachable |
| `Transport.Session.Recv` | oxleycustomnode.py:40 | the one receive returns the peer's message and logs it, and may only happen once in an open session |
| `Transport.Session.Send` | oxleycustomnode.py:139 | the one send logs the message when the peer takes it, and may only happen once in an open session |
| `Transport.Session.Close` | oxleycustomnode.py:41 | closing shuts an open session and logs it; closing again changes nothing |
| `Nodes.DownloadImageWs` | oxleycustomnode.py:35-79 | on a received message the log is exactly connect, receive, close, and the result is `PullImage` of the parse; a connection failure raises with no session; a dropped peer raises with the session left open |
| `Nodes.ReceiveJsonWs` | oxleycustomnode.py:161-183 | the same ordering as the download node, with `PullFields` of the parse as the result |
| `Nodes.PushImageWs` | oxleycustomnode.py:102-142 | an encoding error raises before any connection; otherwise the log is exactly connect, send of `{"image": <base64>}`, close, and the status is `"Image sent successfully"`; a failed send leaves the session open |
| `Nodes.PushedImageRejectedByDownload` | oxleycustomnode.py:51-60 | the push node's own message gives no result at the download node (bad image data) |
| `Nodes.PushedImageReadByFields` | oxleycustomnode.py:177-178 | the field node asked for `"image"` returns the push node's Base64 text |
| `Nodes.DataUriReachesDecoder` | oxleycustomnode.py:53-56 | for a data URI with comma-free parts, exactly the payload is handed to the Base64 decoder and then to `Image.open` |

## Left out

- Network I/O (`websocket.create_connection`, `recv`, `send`, `close`): the endpoint is a `Peer` value, and only the connect, receive, send and close events are logged.
- No timeout is set on `create_connection` or `recv` (lines 37-40, 163-166), so a peer that never answers blocks the node forever; a `Peer` always replies or drops the connection, so that case is not represented.
- `json.loads` and `json.dumps`, `base64`, `Image.open`, `convert`, `fromarray` and the JPEG writer: foreign library code, taken as uninterpreted parameters that succeed or fail. That `loads(dumps(x)) == x` is not modelled.
- A binary websocket frame (`bytes`) and the `UnicodeDecodeError` that `json.loads` can raise on it are not modelled; every message is text.
- The float32 normalisation `/ 255.0` and the torch tensor construction (lines 67-76): floating-point numerics and foreign types. Only the `(1, H, W, 3)` shape of the result is modelled.
- Quantise: samples are exact reals, so float32 rounding of `x * 255`, NaN and infinities are not modelled.
- EncodeJpeg: whether `Image.fromarray` accepts an array is taken to depend on its shape only (the dtype is always `uint8`). Any exception it raises other than TypeError would propagate unchanged rather than as ValueError; the model reports every such failure as ValueError.
- TransposeToChannelLast: stated sample by sample (`TransposeAt`); that it is a bijection of the samples is not stated as a multiset equality.
- The `print` diagnostics: only the reason for a `None` result is kept (`PullFailure`).
- `OxleyCustomNode.invert` (lines 203-205): element-wise float arithmetic.
- `OxleyDownloadImageNode.download_image` (lines 220-243): an HTTP GET followed by PIL, with no logic of its own.
- `INPUT_TYPES`, `RETURN_TYPES`, `FUNCTION`, `CATEGORY` and `IS_CHANGED` (wall-clock timestamps): host registration and clock access.
- The `sys.path` setup (lines 1-11): environment configuration.
- Python's `int`/`float` distinction for JSON numbers is folded into one `JNumber` case: no branch of the nodes depends on it, but a number returned by `receive_json_ws` loses its int/float type. `JNumber` holds a real, so the `NaN`, `Infinity` and `-Infinity` values that `json.loads` accepts are not represented.
