/** The turn engine of backend/src/server.ts: the process-wide log
    `history`, the `POST /send` handler that appends the user message and
    then asks each tagged provider in order, `POST /reset` and
    `GET /history`. */
module ChatServer {
  import opened Text
  import opened Types
  import opened Speaker
  import opened Providers

  /** What a request handler takes from outside: `ids(k)` and `clock(k)` are
      the results of the `k`-th `generateId()` and `Date.now()` of the request
      (0 for the user message, `i + 1` for tag slot `i`), `gpt(i)` and
      `claude(i)` the providers as seen by slot `i`, and `timerWins(i)` says
      whether the `API_TIMEOUT` timer settles the race of slot `i` before the
      retrying call does. */
  datatype Env = Env(
    ids: nat -> string,
    clock: nat -> int,
    gpt: nat -> Provider<Option<string>>,
    claude: nat -> Provider<Block>,
    timerWins: nat -> bool)

  /** The outcome of one tag slot: its entry in the reply list, and whether
      that entry was also stored in the log. */
  datatype Slot = Slot(reply: Reply, stored: bool)

  /** The author a slot is attributed to: "@gpt" is GPT, every other tag,
      unknown ones included, is Claude. */
  function SlotAuthor(tag: string): Author
  {
    if tag == "@gpt" then Gpt else Claude
  }

  /** The name a provider's reply is shown under; it can sit inside a marker. */
  function DisplayName(a: Author): (name: string)
    ensures forall i :: 0 <= i < |name| ==> name[i] != ']'
  {
    if a == Gpt then "GPT" else "Claude"
  }

  /** The reply text shown for a slot whose call failed. */
  function ErrorText(a: Author, msg: string): string
  {
    "(error from " + DisplayName(a) + ": " + msg + ")"
  }

  function TimeoutError(apiTimeout: nat): string
  {
    "timeout after " + NatToString(apiTimeout) + "ms"
  }

  /** How a send answers one tag slot: the outcome for `tag` in slot `slot`
      when the providers are shown the turns `context`. */
  type Answerer = (string, nat, seq<Turn>) -> Outcome<string>

  /** What slot `slot` obtains for `tag` when the log reads `context` to the
      providers: the retrying call raced against the timer, or an error for
      an unknown tag. */
  function SlotCall(tag: string, slot: nat, context: seq<Turn>, retries: int, apiTimeout: nat, env: Env)
    : Outcome<string>
  {
    if tag == "@gpt" then
      if env.timerWins(slot) then Err(TimeoutError(apiTimeout))
      else OpenAISpec(env.gpt(slot), context, retries).result
    else if tag == "@claude" then
      if env.timerWins(slot) then Err(TimeoutError(apiTimeout))
      else AnthropicSpec(env.claude(slot), context, retries).result
    else Err("Unknown tag: " + tag)
  }

  /** The server's answerer, for its configured `MAX_RETRIES` and `API_TIMEOUT`. */
  function Caller(retries: int, apiTimeout: nat, env: Env): Answerer
  {
    (tag: string, slot: nat, context: seq<Turn>) => SlotCall(tag, slot, context, retries, apiTimeout, env)
  }

  /** A tag other than "@gpt" and "@claude" is answered with an error
      naming it, and no provider is asked. */
  lemma UnknownTagFails(tag: string, slot: nat, context: seq<Turn>, retries: int, apiTimeout: nat, env: Env)
    requires tag != "@gpt" && tag != "@claude"
    ensures Caller(retries, apiTimeout, env)(tag, slot, context) == Err("Unknown tag: " + tag)
  {
  }

  /** When the timer settles the race first, the slot fails with the
      timeout error, whatever the provider would have answered. */
  lemma TimerWinsFails(tag: string, slot: nat, context: seq<Turn>, retries: int, apiTimeout: nat, env: Env)
    requires tag == "@gpt" || tag == "@claude"
    requires env.timerWins(slot)
    ensures Caller(retries, apiTimeout, env)(tag, slot, context) == Err(TimeoutError(apiTimeout))
  {
  }

  /** When the retrying call settles the race first, the slot gets exactly
      what that call returned or threw. */
  lemma CallWinsPasses(tag: string, slot: nat, context: seq<Turn>, retries: int, apiTimeout: nat, env: Env)
    requires !env.timerWins(slot)
    ensures tag == "@gpt" ==>
      Caller(retries, apiTimeout, env)(tag, slot, context) == OpenAISpec(env.gpt(slot), context, retries).result
    ensures tag == "@claude" ==>
      Caller(retries, apiTimeout, env)(tag, slot, context) == AnthropicSpec(env.claude(slot), context, retries).result
  {
  }

  /** One iteration of the tag loop: a successful answer yields a stored
      reply with the cleaned text, a failed one (unknown tag, provider
      error, timeout) an error reply that is not stored. */
  function SlotFor(tag: string, slot: nat, context: seq<Turn>, call: Answerer, env: Env): (s: Slot)
    ensures s.reply.id == env.ids(slot + 1) && s.reply.ts == env.clock(slot + 1)
    ensures s.reply.author == SlotAuthor(tag) && s.reply.author != User
    ensures s.stored <==> call(tag, slot, context).Ok?
    ensures s.stored ==> IsTrimmed(s.reply.content)
    ensures s.stored ==> s.reply.content == CleanSpeakerLabels(call(tag, slot, context).value)
    ensures !s.stored ==> s.reply.content == ErrorText(s.reply.author, call(tag, slot, context).msg)
  {
    var id, ts := env.ids(slot + 1), env.clock(slot + 1);
    match call(tag, slot, context)
    case Ok(text) => Slot(Reply(id, SlotAuthor(tag), CleanSpeakerLabels(text), ts), true)
    case Err(msg) => Slot(Reply(id, SlotAuthor(tag), ErrorText(SlotAuthor(tag), msg), ts), false)
  }

  /** The log after a slot: its reply is appended when it was stored. */
  function StoreSlot(h: seq<Msg>, s: Slot): seq<Msg>
  {
    if s.stored then h + [AssistantMsg(s.reply)] else h
  }

  /** The log entries a sequence of slots adds. */
  function Stored(slots: seq<Slot>): (ms: seq<Msg>)
    ensures |ms| <= |slots|
    ensures forall i :: 0 <= i < |ms| ==> ms[i].role == AssistantRole
  {
    if slots == [] then []
    else StoreSlot(Stored(slots[..|slots| - 1]), slots[|slots| - 1])
  }

  /** The reply list of a sequence of slots. */
  function Replies(slots: seq<Slot>): (rs: seq<Reply>)
    ensures |rs| == |slots| && forall i :: 0 <= i < |slots| ==> rs[i] == slots[i].reply
  {
    seq(|slots|, i requires 0 <= i < |slots| => slots[i].reply)
  }

  /** The slots of tags `from..` of a send, when the log reads `h` at slot
      `from`: each slot sees the log as the previous slots left it. */
  function Dispatch(h: seq<Msg>, tags: seq<string>, from: nat, call: Answerer, env: Env): (slots: seq<Slot>)
    requires from <= |tags|
    ensures |slots| == |tags| - from
    decreases |tags| - from
  {
    if from == |tags| then []
    else
      var s := SlotFor(tags[from], from, LabelHistory(h), call, env);
      [s] + Dispatch(StoreSlot(h, s), tags, from + 1, call, env)
  }

  /** The log entries of the slots: one for each slot that stored. */
  lemma {:induction false} StoredCount(slots: seq<Slot>)
    ensures |Stored(slots)| == |set i | 0 <= i < |slots| && slots[i].stored|
  {
    if slots != [] {
      var n := |slots| - 1;
      StoredCount(slots[..n]);
      var before := set i | 0 <= i < n && slots[..n][i].stored;
      var now := set i | 0 <= i < |slots| && slots[i].stored;
      assert before == set i | 0 <= i < n && slots[i].stored;
      if slots[n].stored {
        assert now == before + {n};
      } else {
        assert now == before;
      }
    }
  }

  /** Appending a slot appends its stored entry, if any. */
  lemma StoredSnoc(slots: seq<Slot>, s: Slot)
    ensures Stored(slots + [s]) == StoreSlot(Stored(slots), s)
  {
    assert (slots + [s])[..|slots|] == slots;
  }

  /** The log after one more slot. */
  lemma StoredExtend(start: seq<Msg>, slots: seq<Slot>, s: Slot)
    ensures start + Stored(slots + [s]) == StoreSlot(start + Stored(slots), s)
  {
    StoredSnoc(slots, s);
    if s.stored {
      AppendAssoc(start, Stored(slots), [AssistantMsg(s.reply)]);
    }
  }

  /** The reply of every stored slot is among the entries the slots add. */
  lemma {:induction false} InStored(slots: seq<Slot>, i: nat)
    requires i < |slots| && slots[i].stored
    ensures AssistantMsg(slots[i].reply) in Stored(slots)
  {
    var n := |slots| - 1;
    if i < n {
      assert slots[..n][i] == slots[i];
      InStored(slots[..n], i);
    }
  }

  lemma RepliesSnoc(slots: seq<Slot>, s: Slot)
    ensures Replies(slots + [s]) == Replies(slots) + [s.reply]
  {
  }

  /** The label of an assistant message names its author's display name. */
  lemma LabelReply(m: Msg)
    requires m.role == AssistantRole
    ensures LabelTurn(m) == Turn(AssistantRole, SpeakerMarker(DisplayName(m.author)) + " " + m.content)
  {
  }

  /** `Dispatch` unfolded once. */
  lemma DispatchStep(h: seq<Msg>, tags: seq<string>, from: nat, call: Answerer, env: Env)
    requires from < |tags|
    ensures var s := SlotFor(tags[from], from, LabelHistory(h), call, env);
      Dispatch(h, tags, from, call, env) == [s] + Dispatch(StoreSlot(h, s), tags, from + 1, call, env)
  {
  }

  lemma AppendAssoc<T>(a: seq<T>, b: seq<T>, c: seq<T>)
    ensures a + (b + c) == (a + b) + c
  {
  }

  /** One step of the loop of a send, from slot `|slots|` to the next. */
  lemma DispatchAdvance(start: seq<Msg>, tags: seq<string>, slots: seq<Slot>, h: seq<Msg>, call: Answerer, env: Env)
    requires |slots| < |tags|
    requires Dispatch(start, tags, 0, call, env) == slots + Dispatch(h, tags, |slots|, call, env)
    ensures var s := SlotFor(tags[|slots|], |slots|, LabelHistory(h), call, env);
      Dispatch(start, tags, 0, call, env) == (slots + [s]) + Dispatch(StoreSlot(h, s), tags, |slots| + 1, call, env)
  {
    var s := SlotFor(tags[|slots|], |slots|, LabelHistory(h), call, env);
    DispatchStep(h, tags, |slots|, call, env);
    AppendAssoc(slots, [s], Dispatch(StoreSlot(h, s), tags, |slots| + 1, call, env));
  }

  /** The loop of a send up to slot `j`: the slots already produced, then
      those of the remaining tags on the log they left. */
  lemma {:induction false} DispatchSplit(h: seq<Msg>, tags: seq<string>, j: nat, call: Answerer, env: Env)
    requires j <= |tags|
    ensures var all := Dispatch(h, tags, 0, call, env);
      all == all[..j] + Dispatch(h + Stored(all[..j]), tags, j, call, env)
  {
    var all := Dispatch(h, tags, 0, call, env);
    if j > 0 {
      DispatchSplit(h, tags, j - 1, call, env);
      var before := all[..j - 1];
      var log := h + Stored(before);
      DispatchAdvance(h, tags, before, log, call, env);
      var s := SlotFor(tags[j - 1], j - 1, LabelHistory(log), call, env);
      assert all[..j] == before + [s];
      StoredExtend(h, before, s);
    } else {
      assert all[..0] == [] && Stored([]) == [];
      assert h + Stored(all[..0]) == h;
    }
  }

  /** Sequential context propagation: slot `j` is decided on the labelled
      log as it stood when the tag loop began (the new user message
      included) plus every reply stored by an earlier slot of the same
      send. */
  lemma DispatchContext(h: seq<Msg>, tags: seq<string>, j: nat, call: Answerer, env: Env)
    requires j < |tags|
    ensures var all := Dispatch(h, tags, 0, call, env);
      all[j] == SlotFor(tags[j], j, LabelHistory(h + Stored(all[..j])), call, env)
  {
    DispatchSplit(h, tags, j, call, env);
  }

  /** A reply stored by slot `i` is part of what every later slot `j` of the
      same send reads, with its speaker label. */
  lemma LaterSlotSeesReply(h: seq<Msg>, tags: seq<string>, i: nat, j: nat, call: Answerer, env: Env)
    requires i < j <= |tags|
    requires Dispatch(h, tags, 0, call, env)[i].stored
    ensures var all := Dispatch(h, tags, 0, call, env);
      LabelTurn(AssistantMsg(all[i].reply)) in LabelHistory(h + Stored(all[..j]))
  {
    var all := Dispatch(h, tags, 0, call, env);
    var before := all[..j];
    assert before[i] == all[i];
    InStored(before, i);
    var log := h + Stored(before);
    var m := AssistantMsg(all[i].reply);
    assert m in log;
    var k :| 0 <= k < |log| && log[k] == m;
    assert LabelHistory(log)[k] == LabelTurn(m);
  }

  /** A slot for an unknown tag is reported as an error reply attributed
      to Claude and never stored. */
  lemma UnknownTagNeverStored(h: seq<Msg>, tags: seq<string>, j: nat, retries: int, apiTimeout: nat, env: Env)
    requires j < |tags| && tags[j] != "@gpt" && tags[j] != "@claude"
    ensures var s := Dispatch(h, tags, 0, Caller(retries, apiTimeout, env), env)[j];
      && !s.stored
      && s.reply.author == Claude
      && s.reply.content == ErrorText(Claude, "Unknown tag: " + tags[j])
  {
    var all := Dispatch(h, tags, 0, Caller(retries, apiTimeout, env), env);
    DispatchContext(h, tags, j, Caller(retries, apiTimeout, env), env);
    UnknownTagFails(tags[j], j, LabelHistory(h + Stored(all[..j])), retries, apiTimeout, env);
  }

  /** A stored message that a provider view can be built from: the user role
      goes with the user author and the text has no whitespace at its ends. */
  predicate WellFormed(m: Msg) {
    RoleMatchesAuthor(m) && IsTrimmed(m.content)
  }

  /** On a well-formed log, stripping the label from every turn of the
      provider view gives back the stored text. */
  lemma ContextRoundTrip(h: seq<Msg>, i: nat)
    requires i < |h| && WellFormed(h[i])
    ensures LabelHistory(h)[i].role == h[i].role
    ensures CleanSpeakerLabels(LabelHistory(h)[i].content) == h[i].content
  {
    CleanUndoesLabel(h[i]);
    TrimOfTrimmed(h[i].content);
  }

  predicate AllWellFormed(h: seq<Msg>) {
    forall i :: 0 <= i < |h| ==> WellFormed(h[i])
  }

  /** Appending a well-formed message keeps a log well-formed. */
  lemma AllWellFormedSnoc(h: seq<Msg>, m: Msg)
    requires AllWellFormed(h) && WellFormed(m)
    ensures AllWellFormed(h + [m])
  {
  }

  /** The number of user messages in a log. */
  function UserCount(h: seq<Msg>): (n: nat)
    ensures n <= |h|
  {
    if h == [] then 0
    else UserCount(h[..|h| - 1]) + (if h[|h| - 1].role == UserRole then 1 else 0)
  }

  lemma {:induction false} UserCountAppend(a: seq<Msg>, b: seq<Msg>)
    ensures UserCount(a + b) == UserCount(a) + UserCount(b)
  {
    if b != [] {
      var n := |b| - 1;
      assert (a + b)[..|a + b| - 1] == a + b[..n];
      UserCountAppend(a, b[..n]);
    } else {
      assert a + b == a;
    }
  }

  lemma {:induction false} NoUserInAssistants(h: seq<Msg>)
    requires forall i :: 0 <= i < |h| ==> h[i].role == AssistantRole
    ensures UserCount(h) == 0
  {
    if h != [] {
      NoUserInAssistants(h[..|h| - 1]);
    }
  }

  /** Turn atomicity: an accepted send adds exactly one user message to the
      log, whatever its slots did. */
  lemma SendAddsOneUserMessage(h: seq<Msg>, user: Msg, slots: seq<Slot>)
    requires user.role == UserRole
    ensures UserCount(h + [user] + Stored(slots)) == UserCount(h) + 1
  {
    UserCountAppend(h + [user], Stored(slots));
    UserCountAppend(h, [user]);
    assert [user][..0] == [];
    NoUserInAssistants(Stored(slots));
  }

  /** The request is accepted: it has non-blank content and a non-empty tag array. */
  predicate Accepts(req: SendRequest) {
    && req.content.Some? && Trim(req.content.value) != []
    && req.tags.Some? && req.tags.value != []
  }

  /** The user message a send appends first. */
  function UserMsg(req: SendRequest, env: Env): Msg
    requires req.content.Some?
  {
    Msg(env.ids(0), User, UserRole, Trim(req.content.value), env.clock(0))
  }

  class Server {
    /** The process-wide conversation log. */
    var history: seq<Msg>
    /** `MAX_RETRIES` and `API_TIMEOUT` of the process configuration. */
    const maxRetries: int
    const apiTimeout: nat

    ghost predicate Valid()
      reads this
    {
      AllWellFormed(history)
    }

    constructor (maxRetries: int, apiTimeout: nat)
      ensures Valid() && history == []
      ensures this.maxRetries == maxRetries && this.apiTimeout == apiTimeout
    {
      history := [];
      this.maxRetries := maxRetries;
      this.apiTimeout := apiTimeout;
    }

    /** `GET /history`: the whole log, in order. */
    method GetHistory() returns (h: seq<Msg>)
      ensures h == history
    {
      h := history;
    }

    /** `POST /reset`: the log becomes empty. */
    method Reset()
      modifies this
      ensures Valid() && history == []
    {
      history := [];
    }

    /** The body of the tag loop for one slot: the retrying call of the
        tagged provider raced against the `API_TIMEOUT` timer, or an error
        for an unknown tag. */
    method AnswerSlot(tag: string, slot: nat, context: seq<Turn>, env: Env) returns (response: Outcome<string>)
      ensures response == Caller(maxRetries, apiTimeout, env)(tag, slot, context)
    {
      if tag == "@gpt" {
        var r;
        ghost var sent, delay;
        r, sent, delay := CallOpenAI(context, maxRetries, env.gpt(slot));
        response := if env.timerWins(slot) then Err(TimeoutError(apiTimeout)) else r;
      } else if tag == "@claude" {
        var r;
        ghost var sent, delay;
        r, sent, delay := CallAnthropic(context, maxRetries, env.claude(slot));
        response := if env.timerWins(slot) then Err(TimeoutError(apiTimeout)) else r;
      } else {
        response := Err("Unknown tag: " + tag);
      }
    }

    /** `POST /send`. A request without non-blank content, or without a
        non-empty tag array, is answered 400 and changes nothing. Otherwise
        exactly one user message (the trimmed content) is appended, then the
        tags are served in order, each slot seeing the log as the previous
        slots left it; a successful slot appends its reply to the log, a
        failed one only to the reply list, which has one entry per tag. */
    method Send(req: SendRequest, env: Env) returns (res: SendResult, ghost slots: seq<Slot>)
      requires Valid()
      modifies this
      ensures Valid()
      ensures req.content.None? || Trim(req.content.value) == [] ==>
        res == BadRequest("Content is required") && history == old(history)
      ensures req.content.Some? && Trim(req.content.value) != [] && (req.tags.None? || req.tags.value == []) ==>
        res == BadRequest("Tags array is required") && history == old(history)
      ensures Accepts(req) ==>
        && slots == Dispatch(old(history) + [UserMsg(req, env)], req.tags.value, 0, Caller(maxRetries, apiTimeout, env), env)
        && history == old(history) + [UserMsg(req, env)] + Stored(slots)
        && res == Sent(SendResponse(true, env.ids(0), Replies(slots)))
    {
      slots := [];
      if req.content.None? || Trim(req.content.value) == [] {
        return BadRequest("Content is required"), slots;
      }
      if req.tags.None? || req.tags.value == [] {
        return BadRequest("Tags array is required"), slots;
      }
      var tags := req.tags.value;
      var userMessage := Msg(env.ids(0), User, UserRole, Trim(req.content.value), env.clock(0));
      AllWellFormedSnoc(history, userMessage);
      history := history + [userMessage];
      ghost var start := history;
      ghost var call := Caller(maxRetries, apiTimeout, env);
      var contextMessages := LabelHistory(history);
      var replies: seq<Reply> := [];
      for i := 0 to |tags|
        invariant Valid()
        invariant contextMessages == LabelHistory(history)
        invariant |slots| == i && history == start + Stored(slots) && replies == Replies(slots)
        invariant Dispatch(start, tags, 0, call, env) == slots + Dispatch(history, tags, i, call, env)
      {
        var tag := tags[i];
        var response := AnswerSlot(tag, i, contextMessages, env);
        ghost var s := SlotFor(tag, i, contextMessages, call, env);
        DispatchAdvance(start, tags, slots, history, call, env);
        RepliesSnoc(slots, s);
        if response.Ok? {
          var author := if tag == "@gpt" then Gpt else Claude;
          var cleanedResponse := CleanSpeakerLabels(response.value);
          var replyMsg := Msg(env.ids(i + 1), author, AssistantRole, cleanedResponse, env.clock(i + 1));
          LabelHistoryAppend(history, replyMsg);
          LabelReply(replyMsg);
          assert replyMsg == AssistantMsg(s.reply);
          AllWellFormedSnoc(history, replyMsg);
          history := history + [replyMsg];
          replies := replies + [Reply(replyMsg.id, replyMsg.author, replyMsg.content, replyMsg.ts)];
          contextMessages := contextMessages +
            [Turn(AssistantRole, SpeakerMarker(DisplayName(author)) + " " + cleanedResponse)];
        } else {
          var errorAuthor := if tag == "@gpt" then Gpt else Claude;
          var errorMsg := "(error from " + DisplayName(errorAuthor) + ": " + response.msg + ")";
          replies := replies + [Reply(env.ids(i + 1), errorAuthor, errorMsg, env.clock(i + 1))];
        }
        StoredExtend(start, slots, s);
        slots := slots + [s];
      }
      res := Sent(SendResponse(true, userMessage.id, replies));
    }
  }
}
