/**
 The response decorator of grpcep/handler.go, on parsed JSON.

 The fast path streams over the top-level fields; the legacy path works on a map. They are
 compared as JSON values: code, msg, the data object and the request id. For documents with
 distinct top-level keys they agree exactly when the fast path meets neither both spellings of
 CommonResp nor a CommonResp in an object with bytes left over behind it.
*/
module Decorator {
  import opened Common

  datatype Json =
    | Null
    | Bool(b: bool)
    | Num(n: real)
    | Str(s: string)
    | Arr(items: seq<Json>)
    | Obj(fields: seq<(string, Json)>)

  /**
   A response body: the value it begins with, or none when it does not begin with valid JSON;
   whether bytes other than blanks follow that value; and whether the bytes contain one of the two
   CommonResp spellings in quotes.
  */
  datatype Body = Body(leading: Option<Json>, leftover: bool, mentions: bool)

  /** The value of the whole body, as Unmarshal reads it: bytes left over are an error. */
  function Whole(body: Body): Option<Json> {
    if body.leftover then None else body.leading
  }

  datatype Data = NoData | Fields(m: map<string, Json>) | Raw(body: Body)

  datatype Response = Response(code: int, msg: string, data: Data, requestId: string)

  const COMMON_RESP := "CommonResp"
  const COMMON_RESP_V2 := "common_resp"
  const SUCCESS_CODE := 20000
  const SUCCESS_DESC := "success"

  /** How a float64 becomes an int32; out-of-range results depend on the platform. */
  type ToInt32 = real -> int

  // ---------------------------------------------------------------- decoding

  /** Decoding an object into a map keeps the last value of a repeated key. */
  function ToMap(fs: seq<(string, Json)>): map<string, Json> {
    if |fs| == 0 then map[] else ToMap(fs[..|fs| - 1])[fs[|fs| - 1].0 := fs[|fs| - 1].1]
  }

  function Lookup(m: map<string, Json>, key: string): Json {
    if key in m then m[key] else Null
  }

  function DecodeCode(conv: ToInt32, v: Json, default: int): (int, bool) {
    if v.Num? then (conv(v.n), true) else (default, false)
  }

  function DecodeString(v: Json, default: string): (string, bool) {
    if v.Str? then (v.s, true) else (default, false)
  }

  function DecodeCommonResp(conv: ToInt32, v: Json, code: int, msg: string): (int, string) {
    if v.Obj? then
      var m := ToMap(v.fields);
      (DecodeCode(conv, Lookup(m, "code"), code).0, DecodeString(Lookup(m, "msg"), msg).0)
    else (code, msg)
  }

  // ---------------------------------------------------------------- the fast path

  predicate IsCommonResp(key: string) {
    key == COMMON_RESP || key == COMMON_RESP_V2
  }

  /** What the streaming pass has gathered: code, msg, whether a CommonResp was seen, other fields. */
  datatype Scan = Scan(code: int, msg: string, found: bool, others: seq<(string, Json)>)

  function ScanField(conv: ToInt32, s: Scan, f: (string, Json)): Scan {
    if IsCommonResp(f.0) then
      var d := DecodeCommonResp(conv, f.1, s.code, s.msg);
      s.(code := d.0, msg := d.1, found := true)
    else s.(others := s.others + [f])
  }

  function ScanFields(conv: ToInt32, fs: seq<(string, Json)>): Scan {
    if |fs| == 0 then Scan(SUCCESS_CODE, SUCCESS_DESC, false, [])
    else ScanField(conv, ScanFields(conv, fs[..|fs| - 1]), fs[|fs| - 1])
  }

  /** The pass reads one object from the front and never asks whether it was the whole body. */
  function Fast(conv: ToInt32, body: Body, traceID: string): Option<Response> {
    if !body.mentions || body.leading.None? || !body.leading.value.Obj? then None
    else
      var s := ScanFields(conv, body.leading.value.fields);
      if !s.found then None
      else Some(Response(s.code, s.msg, if s.others == [] then NoData else Fields(ToMap(s.others)), traceID))
  }

  /** The streaming loop over the top-level fields. */
  method ResponseDecoratorFastPath(conv: ToInt32, body: Body, traceID: string) returns (result: Option<Response>)
    ensures result == Fast(conv, body, traceID)
  {
    if !body.mentions || body.leading.None? || !body.leading.value.Obj? {
      return None;
    }
    var fs := body.leading.value.fields;
    var code, msg := SUCCESS_CODE, SUCCESS_DESC;
    var foundCommonResp := false;
    var data: seq<(string, Json)> := [];
    var i := 0;
    while i < |fs|
      invariant 0 <= i <= |fs|
      invariant Scan(code, msg, foundCommonResp, data) == ScanFields(conv, fs[..i])
    {
      if IsCommonResp(fs[i].0) {
        foundCommonResp := true;
        var decoded := DecodeCommonResp(conv, fs[i].1, code, msg);
        code, msg := decoded.0, decoded.1;
      } else {
        data := data + [fs[i]];
      }
      assert fs[..i + 1][..i] == fs[..i];
      i := i + 1;
    }
    assert fs[..i] == fs;
    if !foundCommonResp {
      return None;
    }
    return Some(Response(code, msg, if data == [] then NoData else Fields(ToMap(data)), traceID));
  }

  // ---------------------------------------------------------------- the legacy path

  function Enclose(m: map<string, Json>): Data {
    if m == map[] then NoData else Fields(m)
  }

  function Legacy(conv: ToInt32, body: Body, traceID: string): Response {
    var plain := Response(SUCCESS_CODE, SUCCESS_DESC, Raw(body), traceID);
    if Whole(body).None? || !Whole(body).value.Obj? then plain
    else
      var m := ToMap(Whole(body).value.fields);
      if COMMON_RESP in m then LegacyCommon(conv, m, COMMON_RESP, traceID)
      else if COMMON_RESP_V2 in m then LegacyCommon(conv, m, COMMON_RESP_V2, traceID)
      else
        var code := DecodeCode(conv, Lookup(m, "code"), SUCCESS_CODE);
        var msg := DecodeString(Lookup(m, "message"), SUCCESS_DESC);
        if code.1 || msg.1 then Response(code.0, msg.0, Enclose(m - {"code", "message"}), traceID) else plain
  }

  function LegacyCommon(conv: ToInt32, m: map<string, Json>, key: string, traceID: string): Response
    requires key in m
  {
    var d := DecodeCommonResp(conv, m[key], SUCCESS_CODE, SUCCESS_DESC);
    Response(d.0, d.1, Enclose(m - {key}), traceID)
  }

  method ResponseDecoratorLegacy(conv: ToInt32, body: Body, traceID: string) returns (result: Response)
    ensures result == Legacy(conv, body, traceID)
  {
    var code, msg := SUCCESS_CODE, SUCCESS_DESC;
    var hasCommonResp, hasCodeAndMsg := false, false;
    var dataMap: map<string, Json> := map[];
    if !body.leftover && body.leading.Some? && body.leading.value.Obj? {
      dataMap := ToMap(body.leading.value.fields);
      if COMMON_RESP in dataMap {
        hasCommonResp := true;
        var d := DecodeCommonResp(conv, dataMap[COMMON_RESP], code, msg);
        code, msg := d.0, d.1;
        dataMap := dataMap - {COMMON_RESP};
      } else if COMMON_RESP_V2 in dataMap {
        hasCommonResp := true;
        var d := DecodeCommonResp(conv, dataMap[COMMON_RESP_V2], code, msg);
        code, msg := d.0, d.1;
        dataMap := dataMap - {COMMON_RESP_V2};
      } else {
        if "code" in dataMap {
          var d := DecodeCode(conv, dataMap["code"], code);
          code := d.0;
          if d.1 { hasCodeAndMsg := true; }
        }
        if "message" in dataMap {
          var d := DecodeString(dataMap["message"], msg);
          msg := d.0;
          if d.1 { hasCodeAndMsg := true; }
        }
        if hasCodeAndMsg {
          dataMap := dataMap - {"code"};
          dataMap := dataMap - {"message"};
          assert dataMap == ToMap(body.leading.value.fields) - {"code", "message"};
        }
      }
    }
    var data := if hasCommonResp || hasCodeAndMsg then Enclose(dataMap) else Raw(body);
    return Response(code, msg, data, traceID);
  }

  /** The decorator tries the fast path first. */
  function Decorate(conv: ToInt32, body: Body, traceID: string): Response {
    var fast := Fast(conv, body, traceID);
    if fast.Some? then fast.value else Legacy(conv, body, traceID)
  }

  // ---------------------------------------------------------------- agreement

  ghost predicate DistinctKeys(fs: seq<(string, Json)>) {
    forall i, j | 0 <= i < j < |fs| :: fs[i].0 != fs[j].0
  }

  /** The fields that are not CommonResp, in either spelling. */
  lemma {:induction false} ScanKeepsOthers(conv: ToInt32, fs: seq<(string, Json)>)
    ensures var s := ScanFields(conv, fs);
      && ToMap(s.others) == ToMap(fs) - {COMMON_RESP, COMMON_RESP_V2}
      && (s.found <==> COMMON_RESP in ToMap(fs) || COMMON_RESP_V2 in ToMap(fs))
  {
    hide DecodeCommonResp;
    if |fs| > 0 {
      var init, f := fs[..|fs| - 1], fs[|fs| - 1];
      ScanKeepsOthers(conv, init);
      var others := ScanFields(conv, init).others;
      RemoveAfterUpdate(ToMap(init), f.0, f.1, {COMMON_RESP, COMMON_RESP_V2});
      assert (others + [f])[..|others|] == others;
    }
  }

  lemma RemoveAfterUpdate(m: map<string, Json>, k: string, v: Json, keys: set<string>)
    ensures m[k := v] - keys == if k in keys then m - keys else (m - keys)[k := v]
  {
  }

  lemma {:induction false} ScanWithoutCommon(conv: ToInt32, fs: seq<(string, Json)>)
    requires forall i | 0 <= i < |fs| :: !IsCommonResp(fs[i].0)
    ensures ScanFields(conv, fs).code == SUCCESS_CODE && ScanFields(conv, fs).msg == SUCCESS_DESC
  {
    if |fs| > 0 { ScanWithoutCommon(conv, fs[..|fs| - 1]); }
  }

  /** With a single CommonResp field the pass decodes it once, from the defaults. */
  lemma {:induction false} ScanDecodesOnce(conv: ToInt32, fs: seq<(string, Json)>, key: string)
    requires DistinctKeys(fs) && IsCommonResp(key) && key in ToMap(fs)
    requires forall i | 0 <= i < |fs| :: IsCommonResp(fs[i].0) ==> fs[i].0 == key
    ensures var s := ScanFields(conv, fs);
      (s.code, s.msg) == DecodeCommonResp(conv, ToMap(fs)[key], SUCCESS_CODE, SUCCESS_DESC)
  {
    var init, f := fs[..|fs| - 1], fs[|fs| - 1];
    if f.0 == key {
      assert forall i | 0 <= i < |init| :: init[i].0 == fs[i].0 != key;
      ScanWithoutCommon(conv, init);
    } else {
      ScanDecodesOnce(conv, init, key);
    }
  }

  lemma EmptyMapMeansNoFields(fs: seq<(string, Json)>)
    ensures ToMap(fs) == map[] <==> fs == []
  {
    if fs != [] { assert fs[|fs| - 1].0 in ToMap(fs); }
  }

  lemma {:induction false} KeyPresent(fs: seq<(string, Json)>, i: nat)
    requires i < |fs|
    ensures fs[i].0 in ToMap(fs)
  {
    if i < |fs| - 1 { KeyPresent(fs[..|fs| - 1], i); }
  }

  lemma SingleSpelling(conv: ToInt32, fs: seq<(string, Json)>, key: string, other: string, mentions: bool, traceID: string)
    requires DistinctKeys(fs) && key in ToMap(fs) && other !in ToMap(fs)
    requires (key == COMMON_RESP && other == COMMON_RESP_V2) || (key == COMMON_RESP_V2 && other == COMMON_RESP)
    requires mentions
    ensures Fast(conv, Body(Some(Obj(fs)), false, mentions), traceID)
      == Some(Legacy(conv, Body(Some(Obj(fs)), false, mentions), traceID))
  {
    ScanKeepsOthers(conv, fs);
    forall i | 0 <= i < |fs| ensures fs[i].0 != other { KeyPresent(fs, i); }
    ScanDecodesOnce(conv, fs, key);
    var s := ScanFields(conv, fs);
    EmptyMapMeansNoFields(s.others);
    assert ToMap(fs) - {COMMON_RESP, COMMON_RESP_V2} == ToMap(fs) - {key};
  }

  /** The fields of the object the body begins with. */
  function LeadingFields(body: Body): seq<(string, Json)> {
    if body.leading.Some? && body.leading.value.Obj? then body.leading.value.fields else []
  }

  ghost predicate BothSpellings(body: Body) {
    COMMON_RESP in ToMap(LeadingFields(body)) && COMMON_RESP_V2 in ToMap(LeadingFields(body))
  }

  ghost predicate EitherSpelling(body: Body) {
    COMMON_RESP in ToMap(LeadingFields(body)) || COMMON_RESP_V2 in ToMap(LeadingFields(body))
  }

  /** The legacy path leaves the second spelling in the data, the fast path does not. */
  lemma BothSpellingsDisagree(conv: ToInt32, body: Body, traceID: string)
    requires body.mentions && BothSpellings(body)
    ensures Decorate(conv, body, traceID) != Legacy(conv, body, traceID)
  {
    var fs := LeadingFields(body);
    ScanKeepsOthers(conv, fs);
    assert COMMON_RESP_V2 !in ToMap(ScanFields(conv, fs).others);
    if !body.leftover {
      var kept := ToMap(fs) - {COMMON_RESP};
      assert COMMON_RESP_V2 in kept;
      assert kept != map[] && Legacy(conv, body, traceID).data == Fields(kept);
    }
  }

  /**
   For every body whose leading object has distinct keys, the decorator returns what the legacy path
   would, unless the fast path meets both spellings, or meets one in an object with bytes left over.
  */
  lemma {:induction false} FastAgreesWithLegacy(conv: ToInt32, body: Body, traceID: string)
    requires DistinctKeys(LeadingFields(body))
    ensures Decorate(conv, body, traceID) == Legacy(conv, body, traceID)
       <==> !(body.mentions && (BothSpellings(body) || (body.leftover && EitherSpelling(body))))
  {
    var fs := LeadingFields(body);
    var v1, v2 := COMMON_RESP in ToMap(fs), COMMON_RESP_V2 in ToMap(fs);
    ScanKeepsOthers(conv, fs);
    if body.mentions && v1 && v2 {
      BothSpellingsDisagree(conv, body, traceID);
    } else if body.mentions && !body.leftover && v1 {
      SingleSpelling(conv, fs, COMMON_RESP, COMMON_RESP_V2, true, traceID);
    } else if body.mentions && !body.leftover && v2 {
      SingleSpelling(conv, fs, COMMON_RESP_V2, COMMON_RESP, true, traceID);
    }
  }

  /** A body such as {"CommonResp":{"code":7}} x: code 7 by one path, the raw body under 20000 by the other. */
  lemma LeftoverBytesDisagree(conv: ToInt32, traceID: string)
    ensures var body := Body(Some(Obj([(COMMON_RESP, Obj([("code", Num(7.0))]))])), true, true);
      && Decorate(conv, body, traceID) == Response(conv(7.0), SUCCESS_DESC, NoData, traceID)
      && Legacy(conv, body, traceID) == Response(SUCCESS_CODE, SUCCESS_DESC, Raw(body), traceID)
  {
    var inner: seq<(string, Json)> := [("code", Num(7.0))];
    var f := (COMMON_RESP, Obj(inner));
    assert inner[..0] == [] && ToMap(inner) == map["code" := Num(7.0)];
    assert [f][..0] == [];
    assert ScanFields(conv, []) == Scan(SUCCESS_CODE, SUCCESS_DESC, false, []);
    assert ScanFields(conv, [f]) == ScanField(conv, ScanFields(conv, []), f);
  }

  /** Distinct keys are needed: a repeated CommonResp is decoded once by one path and twice by the other. */
  lemma RepeatedKeyDisagrees(conv: ToInt32, traceID: string)
    ensures var body := Body(Some(Obj([
        (COMMON_RESP, Obj([("msg", Str("denied"))])), (COMMON_RESP, Obj([]))])), false, true);
      Decorate(conv, body, traceID).msg == "denied" && Legacy(conv, body, traceID).msg == SUCCESS_DESC
  {
    var inner: seq<(string, Json)> := [("msg", Str("denied"))];
    var none: seq<(string, Json)> := [];
    var a, b := (COMMON_RESP, Obj(inner)), (COMMON_RESP, Obj(none));
    var fs := [a, b];
    assert inner[..0] == [] && ToMap(inner) == map["msg" := Str("denied")];
    assert fs[..1] == [a] && [a][..0] == [];
    assert ScanFields(conv, []) == Scan(SUCCESS_CODE, SUCCESS_DESC, false, []);
    var s1 := ScanField(conv, ScanFields(conv, []), a);
    assert ScanFields(conv, [a]) == s1 && s1.msg == "denied";
    assert ScanFields(conv, fs) == ScanField(conv, s1, b);
    assert ToMap(none) == map[];
    assert ToMap(fs)[COMMON_RESP] == Obj(none);
  }

  // ---------------------------------------------------------------- what a service put in comes out

  /** How a service reports its status beside its data: in a nested object of either spelling, or flat. */
  datatype Style = Nested | NestedV2 | Flat

  /** A status value that need not be there, under its key. */
  function With(m: map<string, Json>, key: string, v: Option<Json>): map<string, Json> {
    if v.Some? then m[key := v.value] else m
  }

  /** The top-level fields of a reply: the data with the status added. */
  ghost predicate Carries(fs: seq<(string, Json)>, style: Style, data: map<string, Json>, code: Option<Json>, msg: Option<Json>) {
    match style
    case Flat => ToMap(fs) == With(With(data, "code", code), "message", msg)
    case Nested => exists inner :: ToMap(inner) == With(With(map[], "code", code), "msg", msg)
                     && ToMap(fs) == data["CommonResp" := Obj(inner)]
    case NestedV2 => exists inner :: ToMap(inner) == With(With(map[], "code", code), "msg", msg)
                       && ToMap(fs) == data["common_resp" := Obj(inner)]
  }

  function CodeGiven(conv: ToInt32, code: Option<Json>): int {
    if code.Some? && code.value.Num? then conv(code.value.n) else 20000
  }

  function MsgGiven(msg: Option<Json>): string {
    if msg.Some? && msg.value.Str? then msg.value.s else "success"
  }

  lemma StatusDecoded(conv: ToInt32, inner: seq<(string, Json)>, code: Option<Json>, msg: Option<Json>)
    requires ToMap(inner) == With(With(map[], "code", code), "msg", msg)
    ensures DecodeCommonResp(conv, Obj(inner), SUCCESS_CODE, SUCCESS_DESC) == (CodeGiven(conv, code), MsgGiven(msg))
  {
  }

  /** The names that data may not use: a status in an earlier style takes precedence. */
  function Reserved(style: Style): set<string> {
    match style
    case Nested => {"CommonResp"}
    case NestedV2 => {"CommonResp", "common_resp"}
    case Flat => {"CommonResp", "common_resp", "code", "message"}
  }

  /** The legacy path: a nested status counts before a flat one, CommonResp before common_resp. */
  lemma LegacyOpens(conv: ToInt32, fs: seq<(string, Json)>, mentions: bool, style: Style, data: map<string, Json>, code: Option<Json>,
                    msg: Option<Json>, traceID: string)
    requires data.Keys !! Reserved(style) && Carries(fs, style, data, code, msg)
    ensures var body := Body(Some(Obj(fs)), false, mentions);
      Legacy(conv, body, traceID) == Response(CodeGiven(conv, code), MsgGiven(msg),
        if style.Flat? && !(code.Some? && code.value.Num?) && !(msg.Some? && msg.value.Str?) then Raw(body)
        else if data == map[] then NoData else Fields(data), traceID)
  {
    hide DecodeCommonResp, ToMap;
    match style
    case Flat =>
      assert ToMap(fs) - {"code", "message"} == data;
    case Nested =>
      var inner :| ToMap(inner) == With(With(map[], "code", code), "msg", msg) && ToMap(fs) == data["CommonResp" := Obj(inner)];
      StatusDecoded(conv, inner, code, msg);
      assert ToMap(fs) - {"CommonResp"} == data;
    case NestedV2 =>
      var inner :| ToMap(inner) == With(With(map[], "code", code), "msg", msg) && ToMap(fs) == data["common_resp" := Obj(inner)];
      StatusDecoded(conv, inner, code, msg);
      assert ToMap(fs) - {"common_resp"} == data;
  }

  /**
   The round trip, for every style, any order of the fields and whichever path is taken: the decorated
   reply has the code and message that the service put in, 20000 and success for those it left out or
   mistyped, and exactly its data. Only a flat reply with neither is passed on as it came.
  */
  lemma {:induction false} StatusRoundTrip(conv: ToInt32, fs: seq<(string, Json)>, mentions: bool, style: Style,
                                           data: map<string, Json>, code: Option<Json>, msg: Option<Json>, traceID: string)
    requires DistinctKeys(fs) && data.Keys !! {"CommonResp", "common_resp", "code", "message"}
    requires Carries(fs, style, data, code, msg)
    ensures var body := Body(Some(Obj(fs)), false, mentions);
      Decorate(conv, body, traceID) == Response(CodeGiven(conv, code), MsgGiven(msg),
        if style.Flat? && !(code.Some? && code.value.Num?) && !(msg.Some? && msg.value.Str?) then Raw(body)
        else if data == map[] then NoData else Fields(data), traceID)
  {
    hide Decorate, Legacy, ToMap;
    var body := Body(Some(Obj(fs)), false, mentions);
    LegacyOpens(conv, fs, mentions, style, data, code, msg, traceID);
    OneSpelling(body, style, data, code, msg);
    FastAgreesWithLegacy(conv, body, traceID);
  }

  lemma OneSpelling(body: Body, style: Style, data: map<string, Json>, code: Option<Json>, msg: Option<Json>)
    requires data.Keys !! {"CommonResp", "common_resp", "code", "message"}
    requires Carries(LeadingFields(body), style, data, code, msg)
    ensures !BothSpellings(body)
  {
  }

  /** A body that is not one object, and holds no CommonResp in front, is passed on whole as a success. */
  lemma OtherBodiesPass(conv: ToInt32, body: Body, traceID: string)
    requires Whole(body).None? || !Whole(body).value.Obj?
    requires !EitherSpelling(body)
    ensures Decorate(conv, body, traceID) == Response(20000, "success", Raw(body), traceID)
  {
    ScanKeepsOthers(conv, LeadingFields(body));
  }
}
