/** Classification of one line of a server-sent event stream. */
module Sse {
  import opened Machine
  import opened Backends
  import opened Text

  datatype Json =
    | Null
    | Bool(b: bool)
    | Whole(n: int)
    | Fractional(x: real)
    | Str(s: string)
    | Array(items: seq<Json>)
    | Object(fields: map<string, Json>)
  {
    function Get(key: string): Option<Json> {
      if Object? && key in fields then Some(fields[key]) else None
    }

    function AsStr(): Option<string> {
      if Str? then Some(s) else None
    }

    /** `as_u64` followed by `as u32`: larger counts lose their high bits. */
    function AsU32(): Option<uint32> {
      if Whole? && 0 <= n < 0x1_0000_0000_0000_0000 then Some(WrapU32(n)) else None
    }
  }

  datatype ParsedLine = DoneLine | JsonLine(v: Json)

  datatype Frame =
    | RoleHeader
    | Content(text: string)
    | EmptyContent
    | Usage(promptTokens: uint32, completionTokens: uint32)
    | Error(message: string)
    | Done

  /** JSON parsing itself is a parameter. */
  function ParseLine(parse: string -> Option<Json>, line: string): Option<ParsedLine> {
    var line := Trim(line);
    if line == "" then None
    else if line == "[DONE]" then Some(DoneLine)
    else
      match parse(line)
      case Some(v) => Some(JsonLine(v))
      case None => None
  }

  function UsageField(usage: Option<Json>, name: string): uint32 {
    match usage
    case None => 0
    case Some(u) =>
      match u.Get(name)
      case None => 0
      case Some(t) => GetOr(t.AsU32(), 0)
  }

  function Classify(parsed: ParsedLine): Option<Frame> {
    match parsed
    case DoneLine => Some(Done)
    case JsonLine(v) =>
      match v.Get("error")
      case Some(err) =>
        var message := match err.Get("message")
                       case Some(m) => GetOr(m.AsStr(), "unknown error")
                       case None => "unknown error";
        Some(Error(message))
      case None =>
        match v.Get("choices")
        case Some(Array(choices)) =>
          if choices == [] then
            var usage := v.Get("usage");
            Some(Usage(UsageField(usage, "prompt_tokens"), UsageField(usage, "completion_tokens")))
          else ClassifyDelta(choices[0].Get("delta"))
        case _ => None
  }

  function ClassifyDelta(delta: Option<Json>): Option<Frame> {
    match delta
    case None => None
    case Some(d) =>
      if d.Get("role").Some? then Some(RoleHeader)
      else
        match d.Get("content")
        case Some(Str(text)) => if text != "" then Some(Content(text)) else Some(EmptyContent)
        case _ => Some(EmptyContent)
  }

  // ----- what an event says, read off its JSON

  /** The first delta of an event that carries no error, if there is one. */
  function FirstDelta(o: Json): Option<Json> {
    if o.Get("error").Some? then None
    else
      match o.Get("choices")
      case Some(Array(choices)) => if choices == [] then None else choices[0].Get("delta")
      case _ => None
  }

  /** A delta with plain, non-empty text and no role. */
  predicate IsToken(delta: Json) {
    delta.Get("role") == None && HasText(delta)
  }

  predicate HasText(delta: Json) {
    match delta.Get("content")
    case Some(Str(text)) => text != ""
    case _ => false
  }

  /** An event without error and with an empty list of choices reports usage. */
  predicate IsUsage(o: Json) {
    o.Get("error") == None && o.Get("choices") == Some(Array([]))
  }

  /** The integer stored under a name of the usage object, 0 if there is none. */
  function Stored(o: Json, name: string): uint32 {
    match o.Get("usage")
    case Some(Object(usage)) =>
      if name !in usage then 0
      else
        (match usage[name]
         case Whole(n) => if 0 <= n < 0x1_0000_0000_0000_0000 then n % U32_MOD else 0
         case _ => 0)
    case _ => 0
  }

  /** The error text of an event: a string under `message`, or a stock phrase. */
  function ErrorText(o: Json): string {
    match o.Get("error")
    case Some(Object(error)) =>
      if "message" in error && error["message"].Str? then error["message"].s else "unknown error"
    case _ => "unknown error"
  }

  /** The classification says of an event what its JSON says: the error before
      anything else, then usage, then the first delta. */
  lemma ClassifyReadsEvent(o: Json)
    ensures var f := Classify(JsonLine(o));
            && ((f.Some? && f.value.Error?) <==> o.Get("error").Some?)
            && ((f.Some? && f.value.Content?) <==> FirstDelta(o).Some? && IsToken(FirstDelta(o).value))
            && ((f.Some? && f.value.Usage?) <==> IsUsage(o))
            && (IsUsage(o) ==> f == Some(Usage(Stored(o, "prompt_tokens"), Stored(o, "completion_tokens"))))
            && (o.Get("error").Some? ==> f == Some(Error(ErrorText(o))))
            && (FirstDelta(o).Some? ==>
                  var delta := FirstDelta(o).value;
                  f == Some(if delta.Get("role").Some? then RoleHeader
                            else if HasText(delta) then Content(delta.Get("content").value.s)
                            else EmptyContent))
            && (f == None <==> o.Get("error") == None && !IsUsage(o) && FirstDelta(o) == None)
  {
  }

  const PREFIX := "data:"

  /** The text of one raw line that is parsed: trimmed, prefix dropped if there. */
  function Payload(line: string): string {
    var line := Trim(line);
    Trim(GetOr(StripPrefix(line, PREFIX), line))
  }

  /** What the relay makes of one raw line. */
  function FrameOf(parse: string -> Option<Json>, line: string): Option<Frame> {
    match ParseLine(parse, Payload(line))
    case Some(parsed) => Classify(parsed)
    case None => None
  }

  /** For a line that starts with the prefix the payload is the rest, trimmed. */
  lemma PayloadOfData(rest: string)
    ensures Payload(PREFIX + rest) == Trim(rest)
  {
    assert (PREFIX + rest)[0] == 'd';
    TrimEndKeepsHead(PREFIX, rest);
    assert Trim(PREFIX + rest) == PREFIX + TrimEnd(rest);
    assert (PREFIX + TrimEnd(rest))[|PREFIX|..] == TrimEnd(rest);
    TrimOfTrimEnd(rest);
  }

  /** The event a raw line carries, if any. Payloads are trimmed again before
      they are parsed. */
  function EventOf(parse: string -> Option<Json>, line: string): Option<Json> {
    match ParseLine(parse, Payload(line))
    case Some(JsonLine(v)) => Some(v)
    case _ => None
  }

  /** A text as one event line of a stream. */
  function EventLine(text: string): string {
    PREFIX + (" " + text + "\n")
  }

  /** Text that the line format leaves as it is. */
  ghost predicate IsPlain(text: string) {
    text != "" && '\n' !in text && !IsWhitespace(text[0]) && !IsWhitespace(text[|text| - 1])
  }

  lemma PayloadOfEventLine(text: string)
    requires IsPlain(text)
    ensures Payload(EventLine(text)) == Trim(text) == text
  {
    PayloadOfData(" " + text + "\n");
    assert (" " + text + "\n")[1..] == text + "\n";
    assert (text + "\n")[..|text|] == text;
    assert TrimStart(" " + text + "\n") == TrimStart(text + "\n") == text + "\n";
    assert TrimEnd(text + "\n") == TrimEnd(text) == text;
    assert TrimStart(text) == text;
  }

  lemma EventOfEventLine(parse: string -> Option<Json>, text: string)
    requires IsPlain(text)
    ensures EventOf(parse, EventLine(text)) == if text == "[DONE]" then None else parse(text)
  {
    PayloadOfEventLine(text);
  }

  /** What a raw line is to the relay: an event, the end marker, or nothing. */
  lemma FrameReadsLine(parse: string -> Option<Json>, line: string)
    ensures FrameOf(parse, line) ==
            if Payload(line) == "[DONE]" then Some(Done)
            else
              match EventOf(parse, line)
              case Some(o) => Classify(JsonLine(o))
              case None => None
    ensures Payload(line) == "[DONE]" ==> EventOf(parse, line) == None
  {
    var bare := Trim(line);
    TrimTwice(GetOr(StripPrefix(bare, PREFIX), bare));
    hide Trim;
  }

  /** A bare plain text is its own payload. */
  lemma PayloadOfPlain(text: string)
    requires IsPlain(text) && !(PREFIX <= text)
    ensures Payload(text) == text
  {
    assert TrimStart(text) == TrimEnd(text) == text;
  }
}
