/** Tool results as messages (agent/graph.go) and as Anthropic request blocks (llms/anthropic/anthropic.go). */
module ToolMessages {
  import JsonText
  import JsonWriter
  import opened Text
  import opened Values

  const HITL_REJECTED := "hitl_rejected"
  const EXECUTION_ERROR := "tool_execution_error"
  const SERIALIZATION_ERROR := "serialization_error"

  /** What a tool returned, as encoding/json sees it. */
  datatype Data = NoData | JsonData(v: Any) | Unprintable(error: string)

  datatype ToolResult = ToolResult(
    tool: string, toolCallId: string, ok: bool, data: Data, error: string, code: string)

  datatype Message = Message(role: string, content: string)

  /** The JSON object of a result; empty fields are left out except `tool` and `ok`. */
  function Encode(r: ToolResult): Object
    requires !r.data.Unprintable?
  {
    var o: Object := map["tool" := Str(r.tool), "ok" := Bool(r.ok)];
    var o := if r.toolCallId == "" then o else o["tool_call_id" := Str(r.toolCallId)];
    var o := if r.data.NoData? then o else o["data" := r.data.v];
    var o := if r.error == "" then o else o["error" := Str(r.error)];
    if r.code == "" then o else o["code" := Str(r.code)]
  }

  function ReplaceQuotes(s: string): string {
    if s == "" then "" else [if s[0] == '"' then '\'' else s[0]] + ReplaceQuotes(s[1..])
  }

  /** The text written by hand when a result cannot be printed. */
  function FallbackText(tool: string, error: string): string {
    "{\"tool\":\"" + tool + "\",\"ok\":false,\"error\":\"" + ReplaceQuotes(error)
    + "\",\"code\":\"" + SERIALIZATION_ERROR + "\"}"
  }

  function FormatToolMessage(json: Json, r: ToolResult): string {
    match r.data
    case Unprintable(error) => FallbackText(r.tool, error)
    case _ => json.print_(Map(Encode(r)))
  }

  /* ---------- Anthropic ---------- */

  datatype ContentBlock = TextBlock(text: string) | ToolResultBlock(toolUseId: string, text: string)

  datatype RequestMessage = RequestMessage(role: string, block: ContentBlock)

  function StringAt(o: Object, key: string): string {
    if key in o && o[key].Str? then o[key].s else ""
  }

  function ParseToolResultBlock(json: Json, content: string): Option<ContentBlock> {
    match json.parse(content)
    case Some(Map(payload)) =>
      var id := StringAt(payload, "tool_call_id");
      if Blank(id) then None
      else if "ok" in payload && payload["ok"] == Bool(true) then
        Some(ToolResultBlock(id, if "data" in payload then json.print_(payload["data"]) else "ok"))
      else
        var e := StringAt(payload, "error");
        Some(ToolResultBlock(id, if Blank(e) then "tool execution failed" else e))
    case _ => None
  }

  /** What the reader shows of a result: data as it is printed again once it has been read. */
  function Shown(json: Json, r: ToolResult): string {
    if r.ok then (if r.data.JsonData? then json.print_(Decoded(json.round, r.data.v)) else "ok")
    else if Blank(r.error) then "tool execution failed"
    else r.error
  }

  predicate PrintableData(d: Data) {
    d.NoData? || (d.JsonData? && IsPrintable(d.v))
  }

  predicate Printable(r: ToolResult) {
    PrintableData(r.data)
  }

  /** The members of a tool message: the name and whether it is ok, and the others if they say anything. */
  predicate HasFields(r: ToolResult, o: Object) {
    && "tool" in o && o["tool"] == Str(r.tool) && "ok" in o && o["ok"] == Bool(r.ok)
    && (if r.toolCallId == "" then "tool_call_id" !in o
        else "tool_call_id" in o && o["tool_call_id"] == Str(r.toolCallId))
    && (if r.error == "" then "error" !in o else "error" in o && o["error"] == Str(r.error))
    && (if r.code == "" then "code" !in o else "code" in o && o["code"] == Str(r.code))
    && ("data" in o <==> r.data.JsonData?)
    && o.Keys <= {"tool", "tool_call_id", "ok", "data", "error", "code"}
  }

  lemma EncodedFields(r: ToolResult)
    requires Printable(r)
    ensures
      var o := Encode(r);
      && HasFields(r, o) && (r.data.JsonData? ==> o["data"] == r.data.v)
      && forall k | k in o :: o[k].Str? || o[k].Bool? || (k == "data" && r.data.JsonData?)
  {
    hide IsPrintable;
  }

  /** The object of a result as it is read back: only its data can change. */
  lemma {:induction false} DecodedFields(round: int -> nat, r: ToolResult)
    requires Printable(r)
    ensures IsPrintable(Map(Encode(r)))
    ensures Decoded(round, Map(Encode(r))).Map?
    ensures
      var o := Decoded(round, Map(Encode(r))).entries;
      HasFields(r, o) && (r.data.JsonData? ==> o["data"] == Decoded(round, r.data.v))
  {
    hide Encode;
    EncodedFields(r);
  }

  /** The text of a tool message is that of an object with the fields of the result. */
  lemma {:induction false} ToolMessageFields(json: Json, r: ToolResult)
    requires json.Faithful() && Printable(r)
    ensures
      var read := json.parse(FormatToolMessage(json, r));
      && read.Some? && read.value.Map? && HasFields(r, read.value.entries)
      && (r.data.JsonData? ==> read.value.entries["data"] == Decoded(json.round, r.data.v))
  {
    hide Encode, IsPrintable, Decoded, HasFields;
    DecodedFields(json.round, r);
    var v := Map(Encode(r));
    assert json.parse(json.print_(v)) == Some(Decoded(json.round, v));
  }

  /** Reading back a written result recovers the call ID, and the data as it is read, "ok" or the error text; a
      result without a call ID is not recognised. */
  lemma ToolResultRoundTrip(json: Json, r: ToolResult)
    requires json.Faithful() && Printable(r)
    ensures ParseToolResultBlock(json, FormatToolMessage(json, r)) ==
      if Blank(r.toolCallId) then None else Some(ToolResultBlock(r.toolCallId, Shown(json, r)))
  {
    hide FormatToolMessage, IsPrintable, Decoded;
    ToolMessageFields(json, r);
  }

  /** The data of a result comes back with the text that it was printed with if and only if every integer in it
      is printed again with its own digits. */
  lemma {:induction false} DataIsRecovered(n: JsonWriter.Numbers, r: ToolResult)
    requires n.Exact() && Printable(r) && r.ok && r.data.JsonData? && !Blank(r.toolCallId)
    ensures
      var json := JsonWriter.Library(n);
      var recovered := ToolResultBlock(r.toolCallId, json.print_(r.data.v));
      ParseToolResultBlock(json, FormatToolMessage(json, r)) == Some(recovered) <==> JsonWriter.AllSurvive(n, r.data.v)
  {
    hide FormatToolMessage, ParseToolResultBlock, JsonWriter.Write, JsonText.Read, Decoded, JsonWriter.AllSurvive,
      Blank;
    var json := JsonWriter.Library(n);
    JsonWriter.LibraryIsFaithful(n);
    ToolResultRoundTrip(json, r);
    JsonWriter.ReprintedAlike(n, r.data.v);
  }

  function WithInteger(r: ToolResult, k: int): ToolResult {
    r.(data := JsonData(Int(k)))
  }

  /** Results with integers that are read as the same float64 are sent alike: at most one of them comes back. */
  lemma {:induction false} IntegersCollide(n: JsonWriter.Numbers, r: ToolResult, j: int, k: int)
    requires n.Exact() && r.ok && !Blank(r.toolCallId) && Is64Bit(j) && Is64Bit(k) && j != k
    requires n.Round(j) == n.Round(k)
    ensures
      var json := JsonWriter.Library(n);
      var sent := ParseToolResultBlock(json, FormatToolMessage(json, WithInteger(r, j)));
      && sent.Some? && sent == ParseToolResultBlock(json, FormatToolMessage(json, WithInteger(r, k)))
      && json.print_(Int(j)) != json.print_(Int(k))
  {
    hide FormatToolMessage, ParseToolResultBlock, JsonText.Read, Blank, Is64Bit, JsonWriter.IntText;
    var json := JsonWriter.Library(n);
    JsonWriter.LibraryIsFaithful(n);
    ToolResultRoundTrip(json, WithInteger(r, j));
    ToolResultRoundTrip(json, WithInteger(r, k));
    if JsonWriter.IntText(j) == JsonWriter.IntText(k) {
      JsonWriter.IntTextInjective(j, k);
    }
  }

  /** Instead of 2^53 + 1 its neighbour 2^53 is sent. */
  lemma {:induction false} LargeIntegerIsLost(n: JsonWriter.Numbers, r: ToolResult)
    requires n.Exact() && r.ok && !Blank(r.toolCallId)
    requires n.Round(9007199254740993) == n.Round(9007199254740992) && JsonWriter.Survives(n, 9007199254740992)
    ensures
      var json := JsonWriter.Library(n);
      ParseToolResultBlock(json, FormatToolMessage(json, WithInteger(r, 9007199254740993))) ==
        Some(ToolResultBlock(r.toolCallId, JsonWriter.IntText(9007199254740992)))
  {
    hide FormatToolMessage, ParseToolResultBlock, JsonText.Read, Blank, JsonWriter.IntText;
    var json := JsonWriter.Library(n);
    JsonWriter.LibraryIsFaithful(n);
    ToolResultRoundTrip(json, WithInteger(r, 9007199254740993));
  }

  /** A message of a history as a request carries it. */
  function ToRequest(json: Json, m: Message): RequestMessage {
    if m.role == "tool" then
      RequestMessage("user", match ParseToolResultBlock(json, m.content)
                             case Some(b) => b
                             case None => TextBlock("Tool result: " + m.content))
    else RequestMessage(m.role, TextBlock(m.content))
  }

  /* ---------- The text written by hand ---------- */

  /** A JSON library that reads texts as encoding/json does. */
  ghost predicate ReadsTexts(json: Json, floats: JsonText.Floats) {
    forall text :: json.parse(text) == JsonText.Read(floats, text)
  }

  function Opening(tool: string): string {
    "{\"tool\":\"" + tool
  }

  /** A tool name that brings along the ID of a call: closed off as an object of its own, it has one. */
  predicate NamesCall(floats: JsonText.Floats, tool: string) {
    match JsonText.Read(floats, Opening(tool) + "\"}")
    case Some(Map(members)) => !Blank(StringAt(members, "tool_call_id"))
    case _ => false
  }

  /** Where the reader stands behind the name of the tool. */
  function AtName(floats: JsonText.Floats, tool: string): JsonText.Reader {
    JsonText.Feed(floats, JsonText.START, Opening(tool))
  }

  lemma {:induction false} ReplacedQuotes(s: string)
    ensures '"' !in ReplaceQuotes(s) && |ReplaceQuotes(s)| == |s|
    ensures forall i | 0 <= i < |s| :: ReplaceQuotes(s)[i] == if s[i] == '"' then '\'' else s[i]
  {
    if s != "" {
      ReplacedQuotes(s[1..]);
    }
  }

  /** The text written by hand, member by member. */
  lemma {:induction false} FallbackParts(tool: string, error: string)
    ensures FallbackText(tool, error) ==
      Opening(tool) + "\",\"ok\":" + "false,\"error\":\"" + ReplaceQuotes(error) + "\",\"code\":" +
        ("\"" + SERIALIZATION_ERROR) + "\"}"
  {
    var e := ReplaceQuotes(error);
    assert "\",\"ok\":" + "false,\"error\":\"" == "\",\"ok\":false,\"error\":\"";
    assert "\",\"code\":" + "\"" == "\",\"code\":\"";
    var code := SERIALIZATION_ERROR;
    assert Opening(tool) + "\",\"ok\":" + "false,\"error\":\"" + e + "\",\"code\":" + ("\"" + code) + "\"}"
      == Opening(tool) + ("\",\"ok\":" + "false,\"error\":\"") + e + ("\",\"code\":" + "\"") + code + "\"}";
  }

  /** The members found in that text. */
  function FallbackMembers(members: Object, e: string): Object {
    members["ok" := Bool(false)]["error" := Str(JsonText.Unquote(e))]["code" := Str("serialization_error")]
  }

  lemma {:induction false} NamesAndCode()
    ensures JsonText.IsName("ok") && JsonText.IsName("error") && JsonText.IsName("code") && JsonText.IsName("tool")
    ensures JsonText.IsName("tool_call_id") && JsonText.PlainText(SERIALIZATION_ERROR)
    ensures '\\' !in SERIALIZATION_ERROR
  {
  }

  /** From the name of the tool to the text of the error. */
  lemma {:induction false} ReadUpToError(floats: JsonText.Floats, q: JsonText.Reader, e: string)
    requires '"' !in e
    ensures
      var r := JsonText.Feed(floats,
        JsonText.Feed(floats, JsonText.Feed(floats, q, "\",\"ok\":"), "false,\"error\":\""), e);
      if JsonText.InMember(q) && JsonText.IsStringBody(e) then
        r == JsonText.Reader(JsonText.Enclosing(q) +
          [JsonText.InObject(JsonText.Members(q)["ok" := Bool(false)], "error")],
                             JsonText.Quoted(false, e))
      else !JsonText.InMember(r)
  {
    hide JsonText.Feed, JsonText.Members, JsonText.IsStringBody, JsonText.IsName;
    NamesAndCode();
    JsonText.NextMember(floats, q, "ok");
    assert "\",\"" + "ok" + "\":" == "\",\"ok\":" && "false,\"" + "error" + "\":\"" == "false,\"error\":\"";
    if JsonText.InMember(q) {
      var members := JsonText.Members(q);
      var open := JsonText.Enclosing(q) + [JsonText.InObject(members["ok" := Bool(false)], "error")];
      JsonText.FalseMember(floats, JsonText.Enclosing(q), members, "ok", "error");
      JsonText.FeedWithoutQuotes(floats, open, e);
      JsonText.BodyClosed(floats, open, "", e);
    } else {
      JsonText.FeedWrong(floats, "false,\"error\":\"");
      JsonText.FeedWrong(floats, e);
    }
  }

  /** From the text of the error to the end. */
  lemma {:induction false} ReadToEnd(floats: JsonText.Floats, r: JsonText.Reader)
    ensures
      var last := JsonText.Feed(floats, JsonText.Feed(floats, r, "\",\"code\":"), "\"" + SERIALIZATION_ERROR);
      JsonText.Finish(floats, JsonText.Feed(floats, last, "\"}")) ==
        if JsonText.InMember(r) && |r.open| == 1
          then Some(Map(JsonText.Members(r)["code" := Str(SERIALIZATION_ERROR)])) else None
  {
    hide JsonText.Feed, JsonText.IsName, JsonText.Unquote, JsonText.PlainText;
    NamesAndCode();
    JsonText.NextMember(floats, r, "code");
    assert "\",\"" + "code" + "\":" == "\",\"code\":";
    if JsonText.InMember(r) {
      var open := JsonText.Enclosing(r) + [JsonText.InObject(JsonText.Members(r), "code")];
      JsonText.OpenText(floats, open, SERIALIZATION_ERROR);
      JsonText.LastMember(floats, JsonText.Reader(open, JsonText.Quoted(false, SERIALIZATION_ERROR)));
      JsonText.UnquotePlain(SERIALIZATION_ERROR);
    } else {
      JsonText.FeedWrong(floats, "\"" + SERIALIZATION_ERROR);
      JsonText.FeedWrong(floats, "\"}");
    }
  }

  /** What reading finds in the text written by hand: its four members, and whatever the name of the tool
      brings along; or nothing, if that name or the error text breaks out of its string. */
  lemma {:induction false} FallbackIsRead(floats: JsonText.Floats, tool: string, error: string)
    ensures
      var q, e := AtName(floats, tool), ReplaceQuotes(error);
      JsonText.Read(floats, FallbackText(tool, error)) ==
        if JsonText.InMember(q) && |q.open| == 1 && JsonText.IsStringBody(e)
        then Some(Map(FallbackMembers(JsonText.Members(q), e))) else None
  {
    hide JsonText.Feed, JsonText.Finish, JsonText.IsStringBody, JsonText.Unquote, ReplaceQuotes, FallbackText, Opening;
    var q, e := AtName(floats, tool), ReplaceQuotes(error);
    ReplacedQuotes(error);
    FallbackParts(tool, error);
    var t1 := Opening(tool) + "\",\"ok\":";
    var t2 := t1 + "false,\"error\":\"";
    var t3 := t2 + e;
    var t4 := t3 + "\",\"code\":";
    var t5 := t4 + ("\"" + SERIALIZATION_ERROR);
    JsonText.FeedConcat(floats, JsonText.START, Opening(tool), "\",\"ok\":");
    JsonText.FeedConcat(floats, JsonText.START, t1, "false,\"error\":\"");
    JsonText.FeedConcat(floats, JsonText.START, t2, e);
    JsonText.FeedConcat(floats, JsonText.START, t3, "\",\"code\":");
    JsonText.FeedConcat(floats, JsonText.START, t4, "\"" + SERIALIZATION_ERROR);
    JsonText.FeedConcat(floats, JsonText.START, t5, "\"}");
    ReadUpToError(floats, q, e);
    ReadToEnd(floats, JsonText.Feed(floats, JsonText.START, t3));
  }

  /** The name of the tool, closed off as an object of its own. */
  lemma {:induction false} NameIsRead(floats: JsonText.Floats, tool: string)
    ensures
      var q := AtName(floats, tool);
      JsonText.Read(floats, Opening(tool) + "\"}") ==
        if JsonText.InMember(q) && |q.open| == 1 then Some(Map(JsonText.Members(q))) else None
  {
    JsonText.FeedConcat(floats, JsonText.START, Opening(tool), "\"}");
    JsonText.LastMember(floats, AtName(floats, tool));
  }

  /** A result that could not be printed is recognised as a tool result exactly if the name of its tool
      brings along a call ID and the error text can stand in a string. */
  lemma {:induction false} FallbackIsRecognised(json: Json, floats: JsonText.Floats, r: ToolResult)
    requires ReadsTexts(json, floats) && r.data.Unprintable?
    ensures ParseToolResultBlock(json, FormatToolMessage(json, r)).Some? <==>
      NamesCall(floats, r.tool) && JsonText.IsStringBody(ReplaceQuotes(r.data.error))
  {
    hide JsonText.Read, JsonText.Members, JsonText.IsStringBody, JsonText.Unquote, ReplaceQuotes, FallbackText,
      Opening, AtName, Blank;
    var text := FallbackText(r.tool, r.data.error);
    FallbackIsRead(floats, r.tool, r.data.error);
    NameIsRead(floats, r.tool);
    assert json.parse(text) == JsonText.Read(floats, text);
  }

  /** A tool whose name has no quotation mark brings nothing along: whatever the error text, the fallback is
      shown as legacy text. */
  lemma {:induction false} FallbackIsLegacyText(json: Json, floats: JsonText.Floats, r: ToolResult)
    requires ReadsTexts(json, floats) && r.data.Unprintable? && '"' !in r.tool
    ensures !NamesCall(floats, r.tool)
    ensures ParseToolResultBlock(json, FormatToolMessage(json, r)) == None
    ensures ToRequest(json, Message("tool", FormatToolMessage(json, r))) ==
      RequestMessage("user", TextBlock("Tool result: " + FormatToolMessage(json, r)))
  {
    hide JsonText.Feed, JsonText.Read, JsonText.IsName, JsonText.Unquote, FallbackText, ParseToolResultBlock, Blank;
    NamesAndCode();
    JsonText.FirstMember(floats, "tool");
    assert "{\"" + "tool" + "\":\"" == "{\"tool\":\"";
    JsonText.FeedConcat(floats, JsonText.START, "{\"tool\":\"", r.tool);
    JsonText.FeedWithoutQuotes(floats, [JsonText.InObject(map[], "tool")], r.tool);
    NameIsRead(floats, r.tool);
    EmptyIsBlank();
    FallbackIsRecognised(json, floats, r);
  }

  lemma {:induction false} EmptyIsBlank()
    ensures Blank("")
  {
  }

  lemma {:induction false} TwoMembers(floats: JsonText.Floats, first: string, a: string, name: string, x: string)
    requires JsonText.IsName(first) && JsonText.IsName(name) && JsonText.PlainText(a) && JsonText.PlainText(x)
    ensures JsonText.Feed(floats, JsonText.START, "{\"" + first + "\":\"" + a + ("\",\"" + name + "\":") +
      ("\"" + x)) ==
      JsonText.Reader([JsonText.InObject(map[first := Str(JsonText.Unquote(a))], name)], JsonText.Quoted(false, x))
  {
    hide JsonText.Feed, JsonText.IsName, JsonText.PlainText, JsonText.Unquote;
    var start, open := "{\"" + first + "\":\"", [JsonText.InObject(map[], first)];
    var q := JsonText.Reader(open, JsonText.Quoted(false, a));
    JsonText.FirstMember(floats, first);
    JsonText.FeedConcat(floats, JsonText.START, start, a);
    JsonText.FeedPlain(floats, open, false, "", a);
    assert "" + a == a;
    JsonText.FeedConcat(floats, JsonText.START, start + a, "\",\"" + name + "\":");
    JsonText.NextMember(floats, q, name);
    JsonText.FeedConcat(floats, JsonText.START, start + a + ("\",\"" + name + "\":"), "\"" + x);
    assert JsonText.Enclosing(q) == [];
    assert [] + [JsonText.InObject(JsonText.Members(q), name)] == [JsonText.InObject(JsonText.Members(q), name)];
    JsonText.OpenText(floats, [JsonText.InObject(JsonText.Members(q), name)], x);
  }

  /** A tool name that ends its own string and adds a member for the call ID x. */
  function NameWithCallId(a: string, x: string): string {
    a + "\",\"tool_call_id\":\"" + x
  }

  /** Such names do bring it along: with every error text that can stand in a string, the fallback is taken for the
      result of a call. */
  lemma {:induction false} NameWithCallIdIsRecognised(json: Json, floats: JsonText.Floats, r: ToolResult, a: string,
          x: string)
    requires ReadsTexts(json, floats) && r.data.Unprintable? && r.tool == NameWithCallId(a, x)
    requires JsonText.PlainText(a) && JsonText.PlainText(x) && !Blank(x)
    ensures NamesCall(floats, r.tool)
    ensures ParseToolResultBlock(json, FormatToolMessage(json, r)).Some? <==>
      JsonText.IsStringBody(ReplaceQuotes(r.data.error))
  {
    hide JsonText.Feed, JsonText.Read, JsonText.IsName, JsonText.PlainText, Blank, FallbackText, ParseToolResultBlock,
      FormatToolMessage, JsonText.IsStringBody;
    NamesAndCode();
    TwoMembers(floats, "tool", a, "tool_call_id", x);
    NameWithCallIdParts(a, x);
    PlainIsItself(x);
    NameIsRead(floats, r.tool);
    FallbackIsRecognised(json, floats, r);
  }

  lemma {:induction false} NameWithCallIdParts(a: string, x: string)
    ensures Opening(NameWithCallId(a, x)) ==
      "{\"" + "tool" + "\":\"" + a + ("\",\"" + "tool_call_id" + "\":") + ("\"" + x)
  {
    var m := "\",\"" + "tool_call_id" + "\":";
    assert "{\"" + "tool" + "\":\"" == "{\"tool\":\"" && m + "\"" == "\",\"tool_call_id\":\"";
    assert "{\"tool\":\"" + (a + (m + "\"") + x) == "{\"tool\":\"" + a + m + ("\"" + x);
  }

  lemma {:induction false} PlainIsItself(x: string)
    requires JsonText.PlainText(x)
    ensures JsonText.Unquote(x) == x
  {
    JsonText.UnquotePlain(x);
  }

  /* ---------- Folding a history into a request ---------- */

  /** The positions of the messages with some roles, in order. */
  ghost predicate Picks(history: seq<Message>, roles: set<string>, at: seq<nat>) {
    && (forall k: nat :: k in at <==> k < |history| && history[k].role in roles)
    && forall i, j | 0 <= i < j < |at| :: at[i] < at[j]
  }

  lemma {:induction false} PicksSnoc(history: seq<Message>, m: Message, roles: set<string>, at: seq<nat>)
    requires Picks(history, roles, at)
    ensures Picks(history + [m], roles, if m.role in roles then at + [|history|] else at)
  {
    var longer, at' := history + [m], if m.role in roles then at + [|history|] else at;
    assert forall i | 0 <= i < |at| :: at[i] in at;
    forall k: nat ensures k in at' <==> k < |longer| && longer[k].role in roles {
      assert k in at ==> k < |history|;
      assert k < |history| ==> longer[k] == history[k];
    }
  }

  /** What is sent for a message: text under its own role, or for the tool the result block it can be read as, from
      the user, or else its text, marked as a result. */
  ghost predicate SentFor(json: Json, m: Message, sent: RequestMessage) {
    && (m.role == "assistant" ==> sent == RequestMessage("assistant", TextBlock(m.content)))
    && (m.role == "user" ==> sent == RequestMessage("user", TextBlock(m.content)))
    && (m.role == "tool" ==>
          && sent.role == "user"
          && match json.parse(m.content)
             case Some(Map(o)) =>
               if "tool_call_id" in o && o["tool_call_id"].Str? && !Blank(o["tool_call_id"].s)
               then sent.block.ToolResultBlock? && sent.block.toolUseId == o["tool_call_id"].s
               else sent.block == TextBlock("Tool result: " + m.content)
             case _ => sent.block == TextBlock("Tool result: " + m.content))
  }

  lemma {:induction false} RequestIsSentFor(json: Json, m: Message)
    ensures SentFor(json, m, ToRequest(json, m))
  {
    hide Blank;
    EmptyIsBlank();
  }

  /** The request of a history: one message for every assistant, user and tool message, in order. */
  ghost predicate Folded(json: Json, history: seq<Message>, messages: seq<RequestMessage>) {
    exists at: seq<nat> :: Picks(history, {"assistant", "user", "tool"}, at) && SentForAll(json, history, at, messages)
  }

  ghost predicate SentForAll(json: Json, history: seq<Message>, at: seq<nat>, messages: seq<RequestMessage>) {
    && |messages| == |at|
    && forall i | 0 <= i < |at| :: at[i] < |history| && SentFor(json, history[at[i]], messages[i])
  }

  lemma {:induction false} FoldedSnoc(json: Json, history: seq<Message>, m: Message, messages: seq<RequestMessage>)
    requires Folded(json, history, messages)
    ensures
      var carried := m.role == "assistant" || m.role == "user" || m.role == "tool";
      Folded(json, history + [m], if carried then messages + [ToRequest(json, m)] else messages)
  {
    hide SentFor, ToRequest, Picks;
    var roles := {"assistant", "user", "tool"};
    var at: seq<nat> :| Picks(history, roles, at) && SentForAll(json, history, at, messages);
    PicksSnoc(history, m, roles, at);
    RequestIsSentFor(json, m);
    var longer := history + [m];
    var at': seq<nat> := if m.role in roles then at + [|history|] else at;
    var messages' := if m.role in roles then messages + [ToRequest(json, m)] else messages;
    assert forall i | 0 <= i < |at| :: longer[at[i]] == history[at[i]];
    assert SentForAll(json, longer, at', messages');
  }

  /** The contents of the system messages, in order. */
  function SystemPrompts(history: seq<Message>): seq<string> {
    if history == [] then []
    else SystemPrompts(history[..|history| - 1])
         + if history[|history| - 1].role == "system" then [history[|history| - 1].content] else []
  }

  lemma {:induction false} SystemPromptsPicked(history: seq<Message>) returns (at: seq<nat>)
    ensures Picks(history, {"system"}, at) && |SystemPrompts(history)| == |at|
    ensures forall i | 0 <= i < |at| :: at[i] < |history| && SystemPrompts(history)[i] == history[at[i]].content
  {
    hide Picks;
    if history == [] {
      at := [];
      NothingPicked({"system"});
    } else {
      var n, system := |history| - 1, "system";
      var before := SystemPromptsPicked(history[..n]);
      PicksSnoc(history[..n], history[n], {system}, before);
      assert history[..n] + [history[n]] == history;
      at := if history[n].role == system then before + [n] else before;
    }
  }

  lemma {:induction false} NothingPicked(roles: set<string>)
    ensures Picks([], roles, [])
  {
  }

  function DropLeadingEmpty(ss: seq<string>): seq<string> {
    if ss != [] && ss[0] == "" then DropLeadingEmpty(ss[1..]) else ss
  }

  function JoinLines(ss: seq<string>): string {
    if ss == [] then ""
    else if |ss| == 1 then ss[0]
    else JoinLines(ss[..|ss| - 1]) + "\n" + ss[|ss| - 1]
  }

  lemma {:induction false} DropSnoc(ss: seq<string>, s: string)
    ensures DropLeadingEmpty(ss + [s]) ==
      if DropLeadingEmpty(ss) == [] then (if s == "" then [] else [s]) else DropLeadingEmpty(ss) + [s]
  {
    if ss != [] && ss[0] == "" {
      DropSnoc(ss[1..], s);
      assert (ss + [s])[1..] == ss[1..] + [s];
    } else if ss == [] {
      assert ss + [s] == [s];
      assert [s][1..] == [];
    }
  }

  /** What is dropped is empty, and nothing more could be. */
  lemma {:induction false} DropHead(ss: seq<string>)
    ensures DropLeadingEmpty(ss) != [] ==> DropLeadingEmpty(ss)[0] != ""
    ensures
      var n := |ss| - |DropLeadingEmpty(ss)|;
      n >= 0 && ss[n..] == DropLeadingEmpty(ss) && forall i | 0 <= i < n :: ss[i] == ""
  {
    if ss != [] && ss[0] == "" {
      var n := |ss[1..]| - |DropLeadingEmpty(ss[1..])|;
      DropHead(ss[1..]);
      assert ss[n + 1..] == ss[1..][n..];
      assert forall i | 0 < i <= n :: ss[i] == ss[1..][i - 1];
    } else {
      assert ss[0..] == ss;
    }
  }

  lemma JoinSnoc(ss: seq<string>, s: string)
    ensures JoinLines(ss + [s]) == if ss == [] then s else JoinLines(ss) + "\n" + s
  {
    assert (ss + [s])[..|ss|] == ss;
  }

  lemma {:induction false} JoinEmpty(ss: seq<string>)
    requires ss != [] ==> ss[0] != ""
    ensures JoinLines(ss) == "" <==> ss == []
  {
  }

  lemma {:induction false} NothingFolded(json: Json)
    ensures Folded(json, [], [])
  {
    var at: seq<nat> := [];
    NothingPicked({"assistant", "user", "tool"});
    assert Picks([], {"assistant", "user", "tool"}, at) && SentForAll(json, [], at, []);
  }

  /** The first half of Invoke: every assistant, user and tool message becomes one request message, in
      order, and the system prompts are joined line by line from the first that is not empty. */
  method FoldMessages(json: Json, history: seq<Message>) returns (system: string, messages: seq<RequestMessage>)
    ensures Folded(json, history, messages)
    ensures system == JoinLines(DropLeadingEmpty(SystemPrompts(history)))
  {
    hide Folded, ParseToolResultBlock;
    system, messages := "", [];
    NothingFolded(json);
    for n := 0 to |history|
      invariant Folded(json, history[..n], messages)
      invariant system == JoinLines(DropLeadingEmpty(SystemPrompts(history[..n])))
    {
      var m := history[n];
      assert history[..n + 1][..n] == history[..n] && history[..n + 1] == history[..n] + [m];
      FoldedSnoc(json, history[..n], m, messages);
      assert m.role != "system" ==> SystemPrompts(history[..n + 1]) == SystemPrompts(history[..n]);
      if m.role == "system" {
        ghost var prompts := SystemPrompts(history[..n]);
        DropSnoc(prompts, m.content);
        DropHead(prompts);
        JoinEmpty(DropLeadingEmpty(prompts));
        JoinSnoc(DropLeadingEmpty(prompts), m.content);
        assert [] + [m.content] == [m.content];
        if system == "" {
          system := m.content;
        } else {
          system := system + "\n" + m.content;
        }
      } else if m.role == "assistant" || m.role == "user" {
        messages := messages + [RequestMessage(m.role, TextBlock(m.content))];
      } else if m.role == "tool" {
        var block := ParseToolResultBlock(json, m.content);
        if block.Some? {
          messages := messages + [RequestMessage("user", block.value)];
        } else {
          messages := messages + [RequestMessage("user", TextBlock("Tool result: " + m.content))];
        }
      }
    }
    assert history[..|history|] == history;
  }
}
