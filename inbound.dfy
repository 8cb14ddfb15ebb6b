/** What the two receiving nodes do with the one message they received:
    `download_image_ws` (oxleycustomnode.py:43-79) and `receive_json_ws`
    (oxleycustomnode.py:169-183). `json.loads`, `base64.b64decode` and the PIL
    calls are library code and enter as parameters. */
module Inbound {
  import opened Values
  import opened DataUri

  /** An image as `Image.open` returns it: the header has been read, so the size
      is known, but the pixels are decoded only later, on first use. */
  datatype OpenedImage = OpenedImage(width: nat, height: nat, file: Bytes)

  /** The library calls of the download path. */
  datatype ImageLib = ImageLib(
    b64decode: string -> Option<Bytes>,   // `base64.b64decode`; None: it raised
    open: Bytes -> Option<OpenedImage>,   // `Image.open(BytesIO(...))`; None: it raised
    convertRgb: OpenedImage -> bool)      // `image.convert("RGB")`: false when the deferred decode fails

  /** The tensor handed to the host; only its shape is modelled. */
  datatype Tensor = Tensor(shape: seq<nat>)

  /** Why `download_image_ws` returned `None` (the diagnostic it prints). */
  datatype PullFailure =
    | NotJson        // "Received non-JSON message"
    | NoImageField   // "No image data found in the received message"
    | BadImageData   // "Error processing image data"

  datatype PullOutcome =
    | Image(tensor: Tensor)
    | NoResult(why: PullFailure)
    | PullRaised(error: PyError)

  /** Python's `key in data` for a parsed JSON value; None stands for the
      TypeError raised for a number, a boolean or null. */
  function PyContains(data: Json, key: string): (r: Option<bool>)
    ensures r.None? <==> (data.JNull? || data.JBool? || data.JNumber?)
    ensures data.JObject? ==> r == Some(key in data.members)
  {
    match data
    case JObject(m) => Some(key in m)
    case JArray(items) => Some(JString(key) in items)
    case JString(s) => Some(IsSubstring(key, s))
    case _ => None
  }

  /** Python's `needle in hay` on strings: `needle` occurs at some offset of `hay`. */
  predicate IsSubstring(needle: string, hay: string) {
    needle <= hay || (|hay| > 0 && IsSubstring(needle, hay[1..]))
  }

  /** The body of the `try` at oxleycustomnode.py:53-60: `data["image"]`, the
      prefix strip, the Base64 decode and `Image.open`. Every failure in it,
      including the TypeError of subscripting a list or a string and the
      AttributeError of `.split` on a non-string, is caught: None. */
  function OpenImageField(data: Json, lib: ImageLib): (r: Option<OpenedImage>)
    ensures r.Some? ==> data.JObject? && "image" in data.members && data.members["image"].JString?
    ensures r.Some? ==> ',' in data.members["image"].s
  {
    if !data.JObject? || "image" !in data.members then None
    else
      match data.members["image"]
      case JString(s) =>
        (match ImagePayload(s)
         case None => None
         case Some(payload) =>
           match lib.b64decode(payload)
           case None => None
           case Some(bytes) => lib.open(bytes))
      case _ => None
  }

  /** `download_image_ws` after the connection is closed, given the result of
      `json.loads` on the received message (None: JSONDecodeError). */
  function PullImage(parsed: Option<Json>, lib: ImageLib): (r: PullOutcome)
    ensures r == NoResult(NotJson) <==> parsed.None?
    ensures r.PullRaised? ==> parsed.Some? && (r.error == TypeError || r.error == ImageDecodeFailed)
    ensures r.Image? ==> |r.tensor.shape| == 4 && r.tensor.shape[0] == 1 && r.tensor.shape[3] == 3
  {
    match parsed
    case None => NoResult(NotJson)
    case Some(data) =>
      match PyContains(data, "image")
      case None => PullRaised(TypeError)
      case Some(false) => NoResult(NoImageField)
      case Some(true) =>
        match OpenImageField(data, lib)
        case None => NoResult(BadImageData)
        case Some(img) =>
          if lib.convertRgb(img) then Image(Tensor([1, img.height, img.width, 3]))
          else PullRaised(ImageDecodeFailed)
  }

  /** The chain of successful library calls on an `"image"` string. */
  ghost predicate DecodesTo(s: string, lib: ImageLib, img: OpenedImage) {
    exists payload, bytes ::
      ImagePayload(s) == Some(payload) && lib.b64decode(payload) == Some(bytes) && lib.open(bytes) == Some(img)
  }

  /** For a JSON object, the node yields no result exactly when the `"image"` key is
      missing or the string under it fails to strip, Base64-decode or open, and it
      yields a tensor exactly when all three succeed and the deferred decode does too. */
  lemma PullImageOnObject(m: map<string, Json>, lib: ImageLib)
    ensures var r := PullImage(Some(JObject(m)), lib);
      && (r == NoResult(NoImageField) <==> "image" !in m)
      && (r == NoResult(BadImageData) <==>
            "image" in m && !(m["image"].JString? && exists img :: DecodesTo(m["image"].s, lib, img)))
      && (r.Image? <==>
            "image" in m && m["image"].JString? &&
            exists img :: DecodesTo(m["image"].s, lib, img) && lib.convertRgb(img) &&
                          r.tensor == Tensor([1, img.height, img.width, 3]))
      && !(r.PullRaised? && r.error == TypeError)
  {
    var r := PullImage(Some(JObject(m)), lib);
    if "image" in m && m["image"].JString? {
      var s := m["image"].s;
      match ImagePayload(s)
      case None =>
        assert forall img :: !DecodesTo(s, lib, img);
      case Some(payload) =>
        match lib.b64decode(payload)
        case None =>
          assert forall img :: !DecodesTo(s, lib, img);
        case Some(bytes) =>
          match lib.open(bytes)
          case None =>
            assert forall img :: !DecodesTo(s, lib, img);
          case Some(img) =>
            assert DecodesTo(s, lib, img);
            assert forall img' :: DecodesTo(s, lib, img') ==> img' == img;
    }
  }

  /** A JSON value that is not an object never yields a tensor: a list or a string
      naming `"image"` fails inside the `try`, anything else misses the key or raises. */
  lemma PullImageOnNonObject(data: Json, lib: ImageLib)
    requires !data.JObject?
    ensures var r := PullImage(Some(data), lib);
      && !r.Image?
      && (r.PullRaised? <==> (data.JNull? || data.JBool? || data.JNumber?))
  {
  }

  const NotAvailable: string := "N/A"
  const NonJsonError: string := "Error: Non-JSON message received"

  /** The three values `receive_json_ws` returns, or the exception it raises. */
  datatype FieldsOutcome = Fields(first: Json, second: Json, third: Json) | FieldsRaised(error: PyError)

  /** Python's `data.get(key, "N/A")`; AttributeError when `data` is not a dict. */
  function PyGet(data: Json, key: string): (r: Result<Json>)
    ensures r.Err? <==> !data.JObject?
    ensures r.Ok? && key in data.members ==> r.value == data.members[key]
    ensures r.Ok? && key !in data.members ==> r.value == JString(NotAvailable)
  {
    match data
    case JObject(m) => Ok(if key in m then m[key] else JString(NotAvailable))
    case _ => Err(AttributeError)
  }

  /** `receive_json_ws` after the connection is closed, given the result of
      `json.loads` on the received message (None: JSONDecodeError). */
  function PullFields(parsed: Option<Json>, first: string, second: string, third: string): (r: FieldsOutcome)
    ensures parsed.None? ==> r == Fields(JString(NonJsonError), JString(""), JString(""))
    ensures r.FieldsRaised? <==> parsed.Some? && !parsed.value.JObject?
    ensures r.FieldsRaised? ==> r.error == AttributeError
  {
    match parsed
    case None => Fields(JString(NonJsonError), JString(""), JString(""))
    case Some(data) =>
      match PyGet(data, first)
      case Err(e) => FieldsRaised(e)
      case Ok(v1) =>
        var v2 := PyGet(data, second).value;
        var v3 := PyGet(data, third).value;
        Fields(v1, v2, v3)
  }

  /** The value a field takes in the reply to a JSON object. */
  function FieldOf(m: map<string, Json>, name: string): Json {
    if name in m then m[name] else JString(NotAvailable)
  }

  /** For a JSON object, each slot holds the member of the requested name, or
      `"N/A"` when it is absent; each slot depends on its own name only. */
  lemma PullFieldsOnObject(m: map<string, Json>, first: string, second: string, third: string)
    ensures PullFields(Some(JObject(m)), first, second, third)
         == Fields(FieldOf(m, first), FieldOf(m, second), FieldOf(m, third))
  {
  }

  /** Two requests that share a name get the same value in the slots that use it,
      whatever the other names are. */
  lemma PullFieldsIndependent(m: map<string, Json>, a: string, b: string, c: string, b': string, c': string)
    ensures PullFields(Some(JObject(m)), a, b, c).first == PullFields(Some(JObject(m)), a, b', c').first
    ensures PullFields(Some(JObject(m)), a, b, c).second == PullFields(Some(JObject(m)), b, a, c').first
    ensures PullFields(Some(JObject(m)), a, b, c).third == PullFields(Some(JObject(m)), c, b', a).first
  {
  }
}
