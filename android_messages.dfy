/**
 * Messages exchanged with the remote-control client: the closed set of
 * header values, the header/data record, its two-key encoding and decoder,
 * and the subclasses whose header is fixed.
 */
module AndroidMessages {
  import opened Wrappers
  import opened PyStr
  import opened Helper

  /** `BluetoothHeader`: a string-valued enumeration. */
  datatype BluetoothHeader = RobotControl | RobotStatusHeader | ItemLocation | RobotLocation | ImageInfo | ImageResult

  function HeaderValue(h: BluetoothHeader): (v: string)
    ensures HeaderOfValue(v) == Some(h)
  {
    match h
    case RobotControl => "ROBOT_CONTROL"
    case RobotStatusHeader => "ROBOT_STATUS"
    case ItemLocation => "ITEM_LOCATION"
    case RobotLocation => "ROBOT_LOCATION"
    case ImageInfo => "IMAGE_INFO"
    case ImageResult => "IMAGE_RESULT"
  }

  /** `BluetoothHeader(v)`: lookup by value. */
  function HeaderOfValue(v: string): Option<BluetoothHeader>
  {
    if v == "ROBOT_CONTROL" then Some(RobotControl)
    else if v == "ROBOT_STATUS" then Some(RobotStatusHeader)
    else if v == "ITEM_LOCATION" then Some(ItemLocation)
    else if v == "ROBOT_LOCATION" then Some(RobotLocation)
    else if v == "IMAGE_INFO" then Some(ImageInfo)
    else if v == "IMAGE_RESULT" then Some(ImageResult)
    else None
  }

  /** The six members carry pairwise distinct strings. */
  lemma HeaderValuesDistinct(a: BluetoothHeader, b: BluetoothHeader)
    ensures HeaderValue(a) == HeaderValue(b) <==> a == b
  {
    assert HeaderOfValue(HeaderValue(a)) == Some(a);
  }

  /**
   * What a message's header or data may hold: a string, an int, a status
   * enumeration member (the source passes `RobotStatus` members as values),
   * or a dictionary with its keys in insertion order.
   */
  datatype Value = Str(s: string) | Int(i: int) | Status(status: RobotStatus) | Dict(entries: seq<(string, Value)>)

  /** `AndroidMessage`: an immutable header (`category`) and data (`value`) pair. */
  datatype AndroidMessage = AndroidMessage(category: Value, value: Value)

  /** The dictionary `json` serialises: exactly the keys "header" and "data". */
  function Json(m: AndroidMessage): (d: map<string, Value>)
    ensures d.Keys == {"header", "data"}
    ensures d["header"] == m.category && d["data"] == m.value
  {
    map["header" := m.category, "data" := m.value]
  }

  /**
   * `from_json`: reads "header" first, then "data"; a missing key is the
   * `KeyError` Python raises, named by the key. Other keys are ignored.
   */
  function FromJson(d: map<string, Value>): (r: Result<AndroidMessage, string>)
    ensures r.Success? <==> "header" in d && "data" in d
    ensures r.Failure? ==> r.error == if "header" !in d then "header" else "data"
    ensures r.Success? ==> r.value.category == d["header"] && r.value.value == d["data"]
  {
    if "header" !in d then Failure("header")
    else if "data" !in d then Failure("data")
    else Success(AndroidMessage(d["header"], d["data"]))
  }

  /** Decoding an encoded message gives the message back. */
  lemma FromJsonOfJson(m: AndroidMessage)
    ensures FromJson(Json(m)) == Success(m)
  {
  }

  /** Encoding a decoded dictionary gives back its "header" and "data" entries and nothing else. */
  lemma JsonOfFromJson(d: map<string, Value>)
    requires FromJson(d).Success?
    ensures Json(FromJson(d).value) == map k | k in d && k in {"header", "data"} :: d[k]
  {
  }

  function InfoMessage(v: Value): (m: AndroidMessage)
    ensures m.category == Str("ROBOT_STATUS") && m.value == v
  {
    AndroidMessage(Str(HeaderValue(RobotStatusHeader)), v)
  }

  /** `str(d)` of a dictionary with string keys and int values. */
  function RenderIntDict(entries: seq<(string, int)>): string
  {
    "{" + RenderEntries(entries) + "}"
  }

  function RenderEntries(entries: seq<(string, int)>): string
    decreases |entries|, 1
  {
    if |entries| == 0 then ""
    else KeyPrefix(entries[0].0) + (IntToString(entries[0].1) + MoreEntries(entries[1..]))
  }

  /** `'k': `, the key as `repr` writes a key without quotes or backslashes. */
  function KeyPrefix(k: string): string
  {
    "'" + k + "': "
  }

  /** The entries after the first, each preceded by a comma separator. */
  function MoreEntries(entries: seq<(string, int)>): (r: string)
    ensures |entries| > 0 ==> |r| > 0 && r[0] == ','
    ensures |entries| == 0 ==> r == ""
    decreases |entries|, 2
  {
    if |entries| == 0 then "" else ", " + RenderEntries(entries)
  }

  /** `RobotLocMessage`: the location dictionary rendered with `str`, under ROBOT_LOCATION. */
  function RobotLocMessage(entries: seq<(string, int)>): (m: AndroidMessage)
    ensures m.category == Str("ROBOT_LOCATION") && m.value == Str(RenderIntDict(entries))
  {
    AndroidMessage(Str(HeaderValue(RobotLocation)), Str(RenderIntDict(entries)))
  }

  function ImageMessage(v: string): (m: AndroidMessage)
    ensures m.category == Str("IMAGE_INFO") && m.value == Str(v)
  {
    AndroidMessage(Str(HeaderValue(ImageInfo)), Str(v))
  }

  /** The rendered location fields, in the order the location dictionary was filled. */
  function LocEntries(x: int, y: int, d: int): seq<(string, int)>
  {
    [("x", x), ("y", y), ("d", d)]
  }

  lemma {:induction false} NatToStringHasNoPunctuation(n: nat)
    ensures ',' !in NatToString(n) && '}' !in NatToString(n)
  {
    if n >= 10 {
      NatToStringHasNoPunctuation(n / 10);
    }
  }

  lemma IntToStringHasNoPunctuation(n: int)
    ensures ',' !in IntToString(n) && '}' !in IntToString(n)
  {
    NatToStringHasNoPunctuation(if n < 0 then -n else n);
  }

  /** Two words free of `stop`, each followed by text starting with `stop`, split the same way. */
  lemma SplitAtStop(a1: string, r1: string, a2: string, r2: string, stop: char)
    requires a1 + r1 == a2 + r2
    requires stop !in a1 && stop !in a2
    requires |r1| > 0 && r1[0] == stop && |r2| > 0 && r2[0] == stop
    ensures a1 == a2 && r1 == r2
  {
    assert a1 == (a1 + r1)[..|a1|];
    assert a2 == (a2 + r2)[..|a2|];
  }

  lemma IntToStringInjective(a: int, b: int)
    requires IntToString(a) == IntToString(b)
    ensures a == b
  {
    IntToStringRoundTrip(a);
    IntToStringRoundTrip(b);
  }

  /**
   * With the keys fixed, the rendering determines every value: rendering a
   * dictionary of ints with `str` loses no information.
   */
  lemma {:induction false} RenderEntriesInjective(e1: seq<(string, int)>, e2: seq<(string, int)>)
    requires |e1| == |e2|
    requires forall i :: 0 <= i < |e1| ==> e1[i].0 == e2[i].0
    requires RenderEntries(e1) == RenderEntries(e2)
    ensures e1 == e2
    decreases |e1|
  {
    if |e1| > 0 {
      var p := KeyPrefix(e1[0].0);
      var s1, s2 := IntToString(e1[0].1), IntToString(e2[0].1);
      var r1, r2 := MoreEntries(e1[1..]), MoreEntries(e2[1..]);
      assert RenderEntries(e1) == p + (s1 + r1);
      assert RenderEntries(e2) == p + (s2 + r2);
      assert s1 + r1 == (p + (s1 + r1))[|p|..];
      assert s2 + r2 == (p + (s2 + r2))[|p|..];
      IntToStringHasNoPunctuation(e1[0].1);
      IntToStringHasNoPunctuation(e2[0].1);
      if |e1| == 1 {
        assert s1 == s1 + r1;
        assert s2 == s2 + r2;
      } else {
        SplitAtStop(s1, r1, s2, r2, ',');
        assert RenderEntries(e1[1..]) == r1[2..];
        assert RenderEntries(e2[1..]) == r2[2..];
        RenderEntriesInjective(e1[1..], e2[1..]);
      }
      IntToStringInjective(e1[0].1, e2[0].1);
      assert e1 == [e1[0]] + e1[1..];
      assert e2 == [e2[0]] + e2[1..];
    }
  }

  /** A location message determines the location it was made from: no coordinate is lost. */
  lemma RobotLocMessageInjective(x1: int, y1: int, d1: int, x2: int, y2: int, d2: int)
    requires RobotLocMessage(LocEntries(x1, y1, d1)) == RobotLocMessage(LocEntries(x2, y2, d2))
    ensures x1 == x2 && y1 == y2 && d1 == d2
  {
    var e1, e2 := LocEntries(x1, y1, d1), LocEntries(x2, y2, d2);
    assert RenderEntries(e1) == RenderIntDict(e1)[1..|RenderIntDict(e1)| - 1];
    assert RenderEntries(e2) == RenderIntDict(e2)[1..|RenderIntDict(e2)| - 1];
    RenderEntriesInjective(e1, e2);
    assert e1[0] == e2[0] && e1[1] == e2[1] && e1[2] == e2[2];
  }
}
