/** The back end's chat endpoint: it renders the conversation into one prompt,
    asks the model, cuts the JSON payload out of a fenced reply, and maps the
    parsed object (or the raw text, when it does not parse) onto the response. */
module ChatEndpoint {
  import opened Text
  import opened Json
  import ChatSessions

  /** One element of the request's `history`; a key missing from it is `None`. */
  datatype HistoryEntry = HistoryEntry(role: Option<string>, content: Option<string>)

  /** The request body of the chat endpoint. */
  datatype ChatBody = ChatBody(message: Field<string>, history: Field<seq<HistoryEntry>>)

  /** What `json.loads` yields for the payload: an object with the three keys
      the endpoint reads, or some other JSON value. */
  datatype Parsed = JsonObject(message: Field<string>, dashboard: Field<Dashboard>, analysisType: Field<string>)
                  | NotObject

  /** The endpoint's answer: the JSON reply, or the status-500 error. */
  datatype ChatResult = Reply(response: Option<string>, dashboard: Option<Dashboard>, analysisType: Option<string>)
                      | ServerError

  const JsonFence: string := "```json"
  const Fence: string := "```"
  const Trailer: string := "\n\nAssistant (respond in JSON format):"

  /** Every history element has both the `role` and the `content` key. */
  predicate WellFormed(h: seq<HistoryEntry>) {
    forall k :: 0 <= k < |h| ==> h[k].role.Some? && h[k].content.Some?
  }

  /** Role value `user` is rendered as the user; every other value as the assistant. */
  function RoleLabel(role: string): (r: string)
    ensures r == "User" <==> role == "user"
    ensures r == "User" || r == "Assistant"
  {
    if role == "user" then "User" else "Assistant"
  }

  /** One rendered history turn: it opens with `User` exactly for a `user`
      role, carries the content and ends with a blank line. */
  function Turn(e: HistoryEntry): (r: string)
    requires e.role.Some? && e.content.Some?
    ensures |r| >= |e.content.value| + 8
    ensures r[..4] == "User" <==> e.role.value == "user"
    ensures r[|r| - 2 - |e.content.value|..|r| - 2] == e.content.value
    ensures r[|r| - 2..] == "\n\n"
  {
    var head := RoleLabel(e.role.value) + ": ";
    var r := head + e.content.value + "\n\n";
    assert r[..4] == head[..4] && head[0] == RoleLabel(e.role.value)[0];
    assert e.role.value != "user" ==> head[..4][0] == 'A' != "User"[0];
    assert r[|head|..|head| + |e.content.value|] == e.content.value;
    r
  }

  /** The rendered history, turn after turn in order. */
  function HistoryText(h: seq<HistoryEntry>): (r: string)
    requires WellFormed(h)
    ensures r == "" <==> h == []
    ensures h != [] ==> |r| >= 2 && r[|r| - 2..] == "\n\n"
  {
    if h == [] then ""
    else
      var t := Turn(h[|h| - 1]);
      var r := HistoryText(h[..|h| - 1]) + t;
      assert r[|r| - 2..] == t[|t| - 2..];
      r
  }

  /** The whole prompt: system prompt, history, the new message and the trailer. */
  function Context(system: string, h: seq<HistoryEntry>, message: string): (r: string)
    requires WellFormed(h)
    ensures |r| >= |system| + 2 + |message| + |Trailer|
    ensures r[..|system| + 2] == system + "\n\n"
    ensures r[|r| - |Trailer| - |message|..|r| - |Trailer|] == message
    ensures r[|r| - |Trailer|..] == Trailer
  {
    var u := system + "\n\n" + HistoryText(h) + "User: " + message;
    var r := u + Trailer;
    assert r[..|system| + 2] == u[..|system| + 2] == system + "\n\n";
    assert r[|u| - |message|..|u|] == u[|u| - |message|..] == message;
    r
  }

  /** The request's message as it is formatted into the prompt: empty when the
      key is missing, the Python spelling `None` when it is `null`. */
  function MessageText(f: Field<string>): (r: string)
    ensures f.Absent? ==> r == ""
    ensures f.Null? ==> r == "None"
    ensures f.Present? ==> r == f.value
  {
    match f
    case Absent => ""
    case Null => "None"
    case Present(s) => s
  }

  /** Builds the prompt turn by turn; a history element lacking a key raises,
      which is reported as `None`. */
  method BuildContext(system: string, h: seq<HistoryEntry>, message: string) returns (ctx: Option<string>)
    ensures ctx.Some? <==> WellFormed(h)
    ensures ctx.Some? ==> ctx.value == Context(system, h, message)
  {
    var acc := system + "\n\n";
    var i := 0;
    while i < |h|
      invariant 0 <= i <= |h|
      invariant WellFormed(h[..i])
      invariant acc == system + "\n\n" + HistoryText(h[..i])
    {
      var e := h[i];
      if e.role.None? || e.content.None? {
        return None;
      }
      assert h[..i + 1][..i] == h[..i];
      var grown := h[..i + 1];
      forall k | 0 <= k < |grown| ensures grown[k].role.Some? && grown[k].content.Some? {
        if k < i {
          assert grown[k] == h[..i][k];
        }
      }
      assert HistoryText(h[..i + 1]) == HistoryText(h[..i]) + Turn(e);
      AppendAssoc(system + "\n\n", HistoryText(h[..i]), Turn(e));
      acc := acc + Turn(e);
      i := i + 1;
    }
    assert h[..i] == h;
    acc := acc + "User: " + message + Trailer;
    return Some(acc);
  }

  /** Rendering distributes over concatenation of histories. */
  lemma {:induction false} HistoryTextAppend(a: seq<HistoryEntry>, b: seq<HistoryEntry>)
    requires WellFormed(a) && WellFormed(b)
    ensures WellFormed(a + b)
    ensures HistoryText(a + b) == HistoryText(a) + HistoryText(b)
  {
    assert WellFormed(a + b) by {
      forall k | 0 <= k < |a + b| ensures (a + b)[k].role.Some? && (a + b)[k].content.Some? {
        if k >= |a| {
          assert (a + b)[k] == b[k - |a|];
        }
      }
    }
    if b == [] {
      assert a + b == a;
    } else {
      var b' := b[..|b| - 1];
      assert WellFormed(b');
      assert (a + b)[..|a + b| - 1] == a + b';
      HistoryTextAppend(a, b');
      AppendAssoc(HistoryText(a), HistoryText(b'), Turn(b[|b| - 1]));
    }
  }

  /** A single turn renders as its role label, a colon, the content and a blank line. */
  lemma SingleTurn(role: string, content: string)
    ensures HistoryText([HistoryEntry(Some(role), Some(content))])
         == (if role == "user" then "User" else "Assistant") + ": " + content + "\n\n"
  {
  }

  /** The prompt for a history extended by one turn inserts exactly that turn
      before the new message. */
  lemma ContextGrows(system: string, h: seq<HistoryEntry>, e: HistoryEntry, message: string)
    requires WellFormed(h) && e.role.Some? && e.content.Some?
    ensures WellFormed(h + [e])
    ensures Context(system, h + [e], message)
         == system + "\n\n" + HistoryText(h) + Turn(e) + "User: " + message + Trailer
  {
    assert (h + [e])[..|h + [e]| - 1] == h;
    AppendAssoc(system + "\n\n", HistoryText(h), Turn(e));
    assert WellFormed(h + [e]) by {
      forall k | 0 <= k < |h + [e]| ensures (h + [e])[k].role.Some? && (h + [e])[k].content.Some? {
        if k == |h| {
          assert (h + [e])[k] == e;
        } else {
          assert (h + [e])[k] == h[k];
        }
      }
    }
  }

  /** How the front end serialises one of its messages into the history. */
  function WireEntry(m: ChatSessions.Message): (e: HistoryEntry)
    ensures e.role.Some? && e.content == Some(m.content)
    ensures e.role.value == "user" <==> m.role == ChatSessions.User
  {
    HistoryEntry(Some(if m.role == ChatSessions.User then "user" else "assistant"), Some(m.content))
  }

  /** A history sent by the front end is well formed, and each of its messages is
      rendered with the label of its own role. */
  lemma FrontEndHistoryRenders(ms: seq<ChatSessions.Message>)
    ensures var h := seq(|ms|, k requires 0 <= k < |ms| => WireEntry(ms[k]));
      WellFormed(h)
      && forall k :: 0 <= k < |ms| ==>
           Turn(h[k]) == (if ms[k].role == ChatSessions.User then "User" else "Assistant")
                         + ": " + ms[k].content + "\n\n"
  {
  }

  /** No plain fence starts at an index in `[lo, hi)` of `text`. */
  predicate FenceFree(text: string, lo: nat, hi: nat) {
    forall i: nat :: lo <= i < hi ==> !OccursAt(text, Fence, i)
  }

  /** Every "```json" fence is also a plain fence. */
  lemma JsonFenceHasFence(s: string)
    ensures Contains(s, JsonFence) ==> Contains(s, Fence)
  {
    if Contains(s, JsonFence) {
      var i :| 0 <= i <= |s| - |JsonFence| && OccursAt(s, JsonFence, i);
      assert s[i..i + |Fence|] == s[i..i + |JsonFence|][..|Fence|];
      ContainsAt(s, Fence, i);
    }
  }

  /** A stretch of text without a plain fence has none in any part of it. */
  lemma FenceFreeSlice(s: string, lo: nat, hi: nat)
    requires lo <= hi <= |s| && !Contains(s, Fence)
    ensures !Contains(s[lo..hi], Fence)
  {
    forall k: nat | k + |Fence| <= hi - lo ensures !OccursAt(s[lo..hi], Fence, k) {
      SliceOfSlice(s, lo, hi, k, |Fence|);
      assert !OccursAt(s, Fence, lo + k);
    }
  }

  /** The slice from `start` up to the next plain fence (up to one character
      short of the end when there is none) runs on from `start` and holds no
      plain fence. */
  lemma SliceToFence(text: string, start: nat)
    requires start <= |text|
    ensures var r := PySlice(text, start, Find(text, Fence, start));
      start + |r| <= |text| && r == text[start..start + |r|] && !Contains(r, Fence)
  {
    var f := Find(text, Fence, start);
    var r := PySlice(text, start, f);
    assert start + |r| <= |text| && r == text[start..start + |r|];
    forall k: nat | k + |Fence| <= |r| ensures !OccursAt(r, Fence, k) {
      SliceOfSlice(text, start, start + |r|, k, |Fence|);
      assert !OccursAt(text, Fence, start + k);
    }
  }

  /** The text between the first `open` fence and the next plain fence; with no
      closing fence the end index is -1, so the slice stops one character short
      of the end. It continues the reply right after the opening fence and holds
      no plain fence itself. */
  function Inside(reply: string, open: string): (r: string)
    requires Contains(reply, open)
    ensures Find(reply, open, 0) >= 0
    ensures Find(reply, open, 0) + |open| + |r| <= |reply|
    ensures r == reply[Find(reply, open, 0) + |open|..Find(reply, open, 0) + |open| + |r|]
    ensures var start := Find(reply, open, 0) + |open|;
      var f := Find(reply, Fence, start);
      |r| == if f >= 0 then f - start else if start < |reply| then |reply| - 1 - start else 0
    ensures !Contains(r, Fence)
  {
    FindIffContains(reply, open);
    var start := Find(reply, open, 0) + |open|;
    SliceToFence(reply, start);
    PySlice(reply, start, Find(reply, Fence, start))
  }

  /** The payload cut out of the model's reply: the stripped inside of the first
      "```json" fence if there is one, else of the first plain fence, else the
      reply as it is. A fenced reply gives a shorter payload with no fence in it
      and no white space at either end. */
  function Payload(reply: string): (p: string)
    ensures !Contains(reply, Fence) ==> p == reply
    ensures Contains(reply, Fence) ==> |p| + |Fence| <= |reply| && !Contains(p, Fence)
    ensures Contains(reply, Fence) && p != [] ==> !IsPyWhitespace(p[0]) && !IsPyWhitespace(p[|p| - 1])
  {
    JsonFenceHasFence(reply);
    if Contains(reply, JsonFence) then (StripKeepsFenceFree(Inside(reply, JsonFence)); PyStrip(Inside(reply, JsonFence)))
    else if Contains(reply, Fence) then (StripKeepsFenceFree(Inside(reply, Fence)); PyStrip(Inside(reply, Fence)))
    else reply
  }

  /** Stripping a text free of plain fences keeps it free of them. */
  lemma StripKeepsFenceFree(t: string)
    requires !Contains(t, Fence)
    ensures !Contains(PyStrip(t), Fence)
  {
    var r := PyStrip(t);
    var i := Leading(t, IsPyWhitespace);
    assert r == t[i..i + |r|];
    FenceFreeSlice(t, i, i + |r|);
  }

  /** A reply without a plain fence is passed on unchanged, and not stripped. */
  lemma UnfencedReplyKept(reply: string)
    requires !Contains(reply, Fence)
    ensures Payload(reply) == reply
  {
  }

  /** The first `open` fence sits right after `pre`, and the inside of a fence
      that is closed is exactly what lies between the two fences, provided no
      plain fence starts inside the body (one completed by the backticks of the
      closing fence counts). */
  lemma ClosedInside(pre: string, open: string, body: string, post: string)
    requires open != "" && Find(pre + open + body + Fence + post, open, 0) == |pre|
    requires FenceFree(pre + open + body + Fence + post, |pre| + |open|, |pre| + |open| + |body|)
    ensures Contains(pre + open + body + Fence + post, open)
    ensures Inside(pre + open + body + Fence + post, open) == body
  {
    var text := pre + open + body + Fence + post;
    FindIffContains(text, open);
    var start := |pre| + |open|;
    assert text[start..start + |body|] == body;
    assert text[start + |body|..start + |body| + |Fence|] == Fence;
    FindIs(text, Fence, start, start + |body|);
  }

  /** The inside of an unclosed fence is what follows it, minus its last character. */
  lemma UnclosedInside(pre: string, open: string, body: string)
    requires open != "" && Find(pre + open + body, open, 0) == |pre|
    requires !Contains(body, Fence)
    ensures Contains(pre + open + body, open)
    ensures Inside(pre + open + body, open) == if body == "" then "" else body[..|body| - 1]
  {
    var text := pre + open + body;
    FindIffContains(text, open);
    var start := |pre| + |open|;
    assert text[start..|text|] == body;
    forall i: nat | start <= i ensures !OccursAt(text, Fence, i) {
      if i + |Fence| <= |text| {
        assert text[i..i + |Fence|] == body[i - start..i - start + |Fence|];
        assert !OccursAt(body, Fence, i - start);
      }
    }
    assert Find(text, Fence, start) == -1;
    if body != "" {
      assert text[start..|text| - 1] == body[..|body| - 1];
    }
  }

  /** The first "```json" fence of a reply is the one after `pre`. */
  lemma OpeningJsonFence(pre: string, rest: string)
    requires forall i: nat :: i < |pre| ==> !OccursAt(pre + JsonFence + rest, JsonFence, i)
    ensures Find(pre + JsonFence + rest, JsonFence, 0) == |pre|
  {
    var text := pre + JsonFence + rest;
    assert text[|pre|..|pre| + |JsonFence|] == JsonFence;
    FindIs(text, JsonFence, 0, |pre|);
  }

  /** A closed "```json" fence yields its stripped inside, even when plain fences
      come before it, and whatever follows it. */
  lemma JsonFencePayload(pre: string, body: string, post: string)
    requires forall i: nat :: i < |pre| ==> !OccursAt(pre + JsonFence + body + Fence + post, JsonFence, i)
    requires FenceFree(pre + JsonFence + body + Fence + post, |pre| + |JsonFence|, |pre| + |JsonFence| + |body|)
    ensures Payload(pre + JsonFence + body + Fence + post) == PyStrip(body)
  {
    assert pre + JsonFence + body + Fence + post == pre + JsonFence + (body + Fence + post);
    OpeningJsonFence(pre, body + Fence + post);
    ClosedInside(pre, JsonFence, body, post);
  }

  /** An unclosed "```json" fence loses the last character of the text after it. */
  lemma UnclosedJsonFencePayload(pre: string, body: string)
    requires forall i: nat :: i < |pre| ==> !OccursAt(pre + JsonFence + body, JsonFence, i)
    requires !Contains(body, Fence)
    ensures Payload(pre + JsonFence + body) == PyStrip(if body == "" then "" else body[..|body| - 1])
  {
    OpeningJsonFence(pre, body);
    UnclosedInside(pre, JsonFence, body);
  }

  /** Without any "```json", the first plain fence is used the same way. */
  lemma PlainFencePayload(pre: string, body: string, post: string)
    requires FenceFree(pre + Fence + body + Fence + post, 0, |pre|)
    requires FenceFree(pre + Fence + body + Fence + post, |pre| + |Fence|, |pre| + |Fence| + |body|)
    requires !Contains(pre + Fence + body + Fence + post, JsonFence)
    ensures Payload(pre + Fence + body + Fence + post) == PyStrip(body)
  {
    var text := pre + Fence + body + Fence + post;
    assert text[|pre|..|pre| + |Fence|] == Fence;
    FindIs(text, Fence, 0, |pre|);
    ClosedInside(pre, Fence, body, post);
  }

  /** Maps the parse outcome onto the reply: a payload that is not JSON becomes
      the message itself with no dashboard; an object supplies its
      `message` (defaulting to the payload), `dashboard` and `analysis_type`;
      any other JSON value has no `get` and fails the request. */
  function Respond(payload: string, parsed: Option<Parsed>): (r: ChatResult)
    ensures parsed.None? ==> r == Reply(Some(payload), None, None)
    ensures parsed == Some(NotObject) ==> r == ServerError
    ensures parsed.Some? && parsed.value.JsonObject? ==>
      r.Reply?
      && r.response == GetOr(parsed.value.message, payload)
      && r.dashboard == Get(parsed.value.dashboard)
      && r.analysisType == Get(parsed.value.analysisType)
      && (r.dashboard.Some? <==> parsed.value.dashboard.Present?)
      && (r.analysisType.Some? <==> parsed.value.analysisType.Present?)
  {
    match parsed
    case None => Reply(Some(payload), None, None)
    case Some(NotObject) => ServerError
    case Some(JsonObject(m, d, a)) => Reply(GetOr(m, payload), Get(d), Get(a))
  }

  /** A payload that does not parse is answered with itself as the message. */
  lemma UnparsedReplyEchoed(reply: string)
    ensures Respond(Payload(reply), None).response == Some(Payload(reply))
    ensures Respond(Payload(reply), None).dashboard == None
  {
  }

  /** The chat endpoint. `generate` stands for the model call (`None` when it
      raises) and `parse` for `json.loads` (`None` when it raises a decode error). */
  method Chat(system: string, body: ChatBody, generate: string -> Option<string>, parse: string -> Option<Parsed>)
    returns (result: ChatResult)
    ensures body.history.Null? ==> result == ServerError
    ensures body.history.Present? && !WellFormed(body.history.value) ==> result == ServerError
    ensures !body.history.Null? ==>
      var h := if body.history.Present? then body.history.value else [];
      WellFormed(h) ==>
        var reply := generate(Context(system, h, MessageText(body.message)));
        result == if reply.None? then ServerError
                  else Respond(Payload(reply.value), parse(Payload(reply.value)))
  {
    var h: seq<HistoryEntry>;
    match body.history {
      case Null => return ServerError;
      case Absent => h := [];
      case Present(v) => h := v;
    }
    var ctx := BuildContext(system, h, MessageText(body.message));
    if ctx.None? {
      return ServerError;
    }
    var reply := generate(ctx.value);
    if reply.None? {
      return ServerError;
    }
    var assistantMessage := Payload(reply.value);
    result := Respond(assistantMessage, parse(assistantMessage));
  }
}
