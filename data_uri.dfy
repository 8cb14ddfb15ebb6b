/** The data-URI prefix strip of the download node: the `"image"` string is cut
    with `split(",")` and the segment at index 1 is kept. */
module DataUri {
  import opened Values

  /** Python's `s.split(",")`: the comma-free segments of `s`, in order. */
  function Split(s: string): (parts: seq<string>)
    ensures |parts| >= 1
    ensures forall i :: 0 <= i < |parts| ==> ',' !in parts[i]
    ensures |parts| == 1 <==> ',' !in s
  {
    if |s| == 0 then [""]
    else
      var rest := Split(s[1..]);
      assert s == [s[0]] + s[1..];
      if s[0] == ',' then [""] + rest
      else [[s[0]] + rest[0]] + rest[1..]
  }

  /** Python's `",".join(parts)`, the inverse of `Split`. */
  function Join(parts: seq<string>): string
    requires |parts| >= 1
  {
    if |parts| == 1 then parts[0] else parts[0] + [','] + Join(parts[1..])
  }

  /** Index of the first comma of `s`, as `s.find(",")` gives it. */
  function FirstComma(s: string): (r: Option<nat>)
    ensures r.None? <==> ',' !in s
    ensures r.Some? ==> r.value < |s| && s[r.value] == ',' && ',' !in s[..r.value]
  {
    if |s| == 0 then None
    else if s[0] == ',' then Some(0)
    else
      match FirstComma(s[1..])
      case None =>
        assert s == [s[0]] + s[1..];
        None
      case Some(i) =>
        assert s[..i + 1] == [s[0]] + s[1..][..i];
        Some(i + 1)
  }

  /** The part of `s` before its first comma (all of `s` when it has none). */
  function UpToComma(s: string): (t: string)
    ensures ',' !in t
  {
    match FirstComma(s)
    case None => s
    case Some(i) => s[..i]
  }

  /** `s.split(",")[1]` on the `"image"` string: `None` stands for the
      `IndexError` raised when `s` has no comma. */
  function ImagePayload(s: string): (r: Option<string>)
    ensures r.None? <==> ',' !in s
    ensures r.Some? ==> ',' !in r.value
  {
    var parts := Split(s);
    if |parts| < 2 then None else Some(parts[1])
  }

  lemma {:induction false} SplitNoComma(p: string)
    requires ',' !in p
    ensures Split(p) == [p]
  {
    if |p| > 0 {
      assert p == [p[0]] + p[1..];
      SplitNoComma(p[1..]);
    }
  }

  /** A comma-free head followed by a comma is split off as the first segment. */
  lemma {:induction false} SplitAfterComma(p: string, q: string)
    requires ',' !in p
    ensures Split(p + [','] + q) == [p] + Split(q)
  {
    var s := p + [','] + q;
    if |p| == 0 {
      assert s == [','] + q;
      assert s[1..] == q;
    } else {
      assert p == [p[0]] + p[1..];
      assert s[1..] == p[1..] + [','] + q;
      SplitAfterComma(p[1..], q);
    }
  }

  /** The first segment of `Split` is the text before the first comma. */
  lemma SplitHead(s: string)
    ensures Split(s)[0] == UpToComma(s)
  {
    match FirstComma(s)
    case None =>
      SplitNoComma(s);
    case Some(i) =>
      assert s == s[..i] + [','] + s[i + 1..];
      SplitAfterComma(s[..i], s[i + 1..]);
  }

  /** Reference definition: the payload is what follows the first comma, up to the
      next comma or the end, and there is none when the string has no comma. */
  lemma ImagePayloadByIndex(s: string)
    ensures ImagePayload(s) == match FirstComma(s)
                               case None => None
                               case Some(i) => Some(UpToComma(s[i + 1..]))
  {
    match FirstComma(s)
    case None =>
    case Some(i) =>
      assert s == s[..i] + [','] + s[i + 1..];
      SplitAfterComma(s[..i], s[i + 1..]);
      SplitHead(s[i + 1..]);
  }

  /** A data URI `<prefix>,<payload>` whose two parts are comma-free yields exactly
      the payload, and so does one where further comma-separated text follows. */
  lemma DataUriPayload(prefix: string, payload: string, tail: string)
    requires ',' !in prefix && ',' !in payload
    requires tail == [] || tail[0] == ','
    ensures ImagePayload(prefix + [','] + payload + tail) == Some(payload)
  {
    var s := prefix + [','] + payload + tail;
    assert s == prefix + [','] + (payload + tail);
    SplitAfterComma(prefix, payload + tail);
    if tail == [] {
      assert payload + tail == payload;
      SplitNoComma(payload);
    } else {
      assert payload + tail == payload + [','] + tail[1..];
      SplitAfterComma(payload, tail[1..]);
    }
  }

  lemma {:induction false} JoinSplit(s: string)
    ensures Join(Split(s)) == s
  {
    if |s| > 0 {
      var rest := Split(s[1..]);
      JoinSplit(s[1..]);
      assert s == [s[0]] + s[1..];
      if s[0] == ',' {
        assert ([""] + rest)[1..] == rest;
      } else {
        var parts := [[s[0]] + rest[0]] + rest[1..];
        if |rest| > 1 {
          assert parts[1..] == rest[1..];
          assert Join(rest) == rest[0] + [','] + Join(rest[1..]);
        }
      }
    }
  }

  lemma {:induction false} SplitJoin(parts: seq<string>)
    requires |parts| >= 1
    requires forall i :: 0 <= i < |parts| ==> ',' !in parts[i]
    ensures Split(Join(parts)) == parts
  {
    if |parts| == 1 {
      SplitNoComma(parts[0]);
    } else {
      SplitJoin(parts[1..]);
      SplitAfterComma(parts[0], Join(parts[1..]));
      assert parts == [parts[0]] + parts[1..];
    }
  }
}
