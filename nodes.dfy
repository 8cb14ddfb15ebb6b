/** The three websocket nodes of oxleycustomnode.py as imperative methods over a
    `Session`: the order of connect, the one receive or send, close, and the
    decision logic of `Inbound` and `PushEncoding`. */
module Nodes {
  import opened Values
  import opened DataUri
  import opened Inbound
  import opened PushEncoding
  import opened Transport

  const SentStatus: string := "Image sent successfully"

  /** `download_image_ws` (oxleycustomnode.py:35-79); `loads` is `json.loads`,
      None standing for JSONDecodeError. */
  method DownloadImageWs(ws: Session, url: string, loads: string -> Option<Json>, lib: ImageLib)
    returns (r: PullOutcome)
    requires ws.Valid() && ws.phase == Unconnected
    modifies ws
    ensures ws.Valid()
    ensures !ws.peer.reachable ==>
      r == PullRaised(ConnectionFailed) && ws.phase == Unconnected && ws.log == []
    ensures ws.peer.reachable && ws.peer.reply.None? ==>
      r == PullRaised(ConnectionClosed) && ws.phase == Open && ws.log == [Connected(url)]
    ensures ws.peer.reachable && ws.peer.reply.Some? ==>
      && ws.phase == Shut
      && ws.log == [Connected(url), Received(ws.peer.reply.value), Closed]
      && r == PullImage(loads(ws.peer.reply.value), lib)
  {
    var connected := ws.Connect(url);
    if !connected {
      return PullRaised(ConnectionFailed);
    }
    var message := ws.Recv();
    if message.None? {
      return PullRaised(ConnectionClosed);
    }
    ws.Close();
    r := PullImage(loads(message.value), lib);
  }

  /** `receive_json_ws` (oxleycustomnode.py:161-183). */
  method ReceiveJsonWs(ws: Session, url: string, loads: string -> Option<Json>,
                       first: string, second: string, third: string)
    returns (r: FieldsOutcome)
    requires ws.Valid() && ws.phase == Unconnected
    modifies ws
    ensures ws.Valid()
    ensures !ws.peer.reachable ==>
      r == FieldsRaised(ConnectionFailed) && ws.phase == Unconnected && ws.log == []
    ensures ws.peer.reachable && ws.peer.reply.None? ==>
      r == FieldsRaised(ConnectionClosed) && ws.phase == Open && ws.log == [Connected(url)]
    ensures ws.peer.reachable && ws.peer.reply.Some? ==>
      && ws.phase == Shut
      && ws.log == [Connected(url), Received(ws.peer.reply.value), Closed]
      && r == PullFields(loads(ws.peer.reply.value), first, second, third)
  {
    var connected := ws.Connect(url);
    if !connected {
      return FieldsRaised(ConnectionFailed);
    }
    var message := ws.Recv();
    if message.None? {
      return FieldsRaised(ConnectionClosed);
    }
    ws.Close();
    r := PullFields(loads(message.value), first, second, third);
  }

  /** `push_image_ws` (oxleycustomnode.py:102-142): encoding happens before the
      connection is opened, so an encoding failure raises with no session. */
  method PushImageWs(ws: Session, url: string, image: NdArray, lib: PushLib)
    returns (r: Result<string>)
    requires WellFormed(image)
    requires ws.Valid() && ws.phase == Unconnected
    modifies ws
    ensures ws.Valid()
    ensures EncodeJpeg(image, lib).Err? ==>
      r == Err(EncodeJpeg(image, lib).error) && ws.phase == Unconnected && ws.log == []
    ensures EncodeJpeg(image, lib).Ok? && !ws.peer.reachable ==>
      r == Err(ConnectionFailed) && ws.phase == Unconnected && ws.log == []
    ensures EncodeJpeg(image, lib).Ok? && ws.peer.reachable && !ws.peer.acceptsSend ==>
      r == Err(ConnectionClosed) && ws.phase == Open && ws.log == [Connected(url)]
    ensures EncodeJpeg(image, lib).Ok? && ws.peer.reachable && ws.peer.acceptsSend ==>
      && r == Ok(SentStatus)
      && ws.phase == Shut
      && ws.log == [Connected(url), Sent(PushMessage(EncodeJpeg(image, lib).value, lib)), Closed]
  {
    var encoded := EncodeJpeg(image, lib);
    if encoded.Err? {
      return Err(encoded.error);
    }
    var b64 := lib.b64encode(encoded.value);
    var connected := ws.Connect(url);
    if !connected {
      return Err(ConnectionFailed);
    }
    var message := lib.dumps(PushEnvelope(b64));
    var sent := ws.Send(message);
    if !sent {
      return Err(ConnectionClosed);
    }
    ws.Close();
    r := Ok(SentStatus);
  }

  /** The download node cannot take what the push node sends: plain Base64 text has
      no comma, so `split(",")[1]` fails and the download node returns no result. */
  lemma PushedImageRejectedByDownload(b64: string, lib: ImageLib)
    requires IsBase64Text(b64)
    ensures PullImage(Some(PushEnvelope(b64)), lib) == NoResult(BadImageData)
  {
    Base64HasNoComma(b64);
  }

  /** The field node does read it: asking for `"image"` gives back the Base64 text. */
  lemma PushedImageReadByFields(b64: string, second: string, third: string)
    ensures PullFields(Some(PushEnvelope(b64)), "image", second, third).first == JString(b64)
  {
  }

  /** A data-URI `"image"` string with a comma-free prefix and payload is handed
      to the Base64 decoder as exactly that payload. */
  lemma DataUriReachesDecoder(prefix: string, payload: string, lib: ImageLib)
    requires ',' !in prefix && ',' !in payload
    ensures OpenImageField(JObject(map["image" := JString(prefix + [','] + payload)]), lib)
         == match lib.b64decode(payload)
            case None => None
            case Some(bytes) => lib.open(bytes)
  {
    DataUriPayload(prefix, payload, []);
    assert prefix + [','] + payload + [] == prefix + [','] + payload;
  }
}
