/** The default codec: every answer is a 200 with a JSON body; an error becomes a
    {"code", "message"} object split out of the error's description. */
module GinCodec {
  import opened Strings
  import opened GinValues

  /** What the body encodes: the error object, a protobuf message through jsonpb (defaults
      emitted), or any other value through encoding/json. */
  datatype Body = ErrorBody(code: string, message: string) | ProtoJson(fields: map<string, string>) | PlainJson(value: Value)

  datatype Response = Response(status: int, contentType: string, body: Body)

  /** The error branch: split the description on ':'. With at least one colon, the code is the
      trimmed text before the first one and the message the trimmed rest, its pieces re-joined
      with ": ". Without a colon the code is empty and the message is err.Error() as it is. */
  function CodeMessage(e: Error): (string, string)
  {
    var parts := Split(ErrorDesc(e), ':');
    if |parts| > 1 then (TrimSpace(parts[0]), TrimSpace(Join(parts[1..], ": ")))
    else ("", ErrorText(e))
  }

  /** Encode: the status and the content type never depend on the value; an error always takes
      the error branch, a protobuf message goes to jsonpb, anything else to plain JSON. */
  function Encode(v: Value): (r: Response)
    ensures r.status == 200 && r.contentType == "application/json"
    ensures r.body.ErrorBody? <==> v.ErrorValue?
    ensures r.body.ProtoJson? <==> v.ProtoMessage?
    ensures v.ErrorValue? ==> (r.body.code, r.body.message) == CodeMessage(v.err)
  {
    var body :=
      match v
      case ErrorValue(e) => var cm := CodeMessage(e); ErrorBody(cm.0, cm.1)
      case ProtoMessage(fields) => ProtoJson(fields)
      case _ => PlainJson(v);
    Response(200, "application/json", body)
  }

  /** The code never holds a colon. */
  lemma CodeHasNoColon(e: Error)
    ensures ':' !in CodeMessage(e).0
  {
    var parts := Split(ErrorDesc(e), ':');
    if |parts| > 1 {
      TrimSpaceCount(parts[0], ':');
      CountZero(parts[0], ':');
      CountZero(TrimSpace(parts[0]), ':');
    }
  }

  lemma ColonsOfRest(parts: seq<string>)
    requires |parts| > 1
    requires forall i :: 0 <= i < |parts| ==> ':' !in parts[i]
    ensures Count(Join(parts[1..], ": "), ':') == |parts| - 2
  {
    var rest := parts[1..];
    forall i | 0 <= i < |rest|
      ensures ':' !in rest[i]
    {
      assert rest[i] == parts[i + 1];
    }
    CountJoin(rest, ": ", ':');
    assert Count(": ", ':') == 1 by {
      assert ": "[1..] == " ";
      assert " "[1..] == "";
    }
  }

  /** With colons in the description, the message keeps all of them but the first. */
  lemma MessageColons(e: Error)
    requires ':' in ErrorDesc(e)
    ensures Count(CodeMessage(e).1, ':') == Count(ErrorDesc(e), ':') - 1
  {
    var d := ErrorDesc(e);
    var parts := Split(d, ':');
    CountZero(d, ':');
    ColonsOfRest(parts);
    TrimSpaceCount(Join(parts[1..], ": "), ':');
  }

  /** Without a colon the code is empty and the message is the full error text, untrimmed. */
  lemma NoColon(e: Error)
    requires ':' !in ErrorDesc(e)
    ensures CodeMessage(e) == ("", ErrorText(e))
  {
    CountZero(ErrorDesc(e), ':');
  }

  /** Formatting "code: message" and splitting it gives the parts back, when neither holds a
      colon or white space at its ends. */
  lemma SplitsFormatted(e: Error, code: string, msg: string)
    requires ErrorDesc(e) == code + ": " + msg
    requires ':' !in code && ':' !in msg && Trimmed(code) && Trimmed(msg)
    ensures CodeMessage(e) == (code, msg)
  {
    var tail := " " + msg;
    SplitAtColon(code, msg);
    var parts := [code, tail];
    assert parts[1..] == [tail];
    TrimSpaceAfterSpace(code);
    TrimSpaceAfterSpace(msg);
  }

  /** "code: message" splits at its one colon into the code and the message with its space. */
  lemma SplitAtColon(code: string, msg: string)
    requires ':' !in code && ':' !in msg
    ensures Split(code + ": " + msg, ':') == [code, " " + msg]
  {
    var d := code + ": " + msg;
    var tail := " " + msg;
    assert d == code + [':'] + tail;
    assert d[..|code|] == code;
    assert d[|code| + 1..] == tail;
    IndexOfAt(d, ':', |code|);
    assert ':' !in tail;
    CountZero(tail, ':');
    assert Split(tail, ':') == [tail];
  }

  /** "NOT_FOUND: item missing" gives code "NOT_FOUND" and message "item missing". */
  lemma NotFoundExample()
    ensures CodeMessage(PlainError("NOT_FOUND: item missing")) == ("NOT_FOUND", "item missing")
  {
    var code, msg := "NOT_FOUND", "item missing";
    assert "NOT_FOUND: item missing" == code + ": " + msg;
    assert ':' !in code && ':' !in msg;
    SplitsFormatted(PlainError("NOT_FOUND: item missing"), code, msg);
  }
}
