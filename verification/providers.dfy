/** The two retrying provider calls of backend/src/server.ts, `callOpenAI`
    and `callAnthropic`. Each SDK request is replaced by a provider oracle; the
    sleeps between attempts are summed in a ghost delay. */
module Providers {
  import opened Text
  import opened Types
  import opened Speaker

  /** A provider as the server sees it: the outcome of its `n`-th request
      (counted from 0 within one retrying call) made with the given turns.
      Any provider whose answers depend on the turns, on earlier requests or
      on chance is one such function. */
  type Provider<T> = (nat, seq<Turn>) -> Outcome<T>

  /** The first content block of an Anthropic response. */
  datatype Block = TextBlock(text: string) | OtherBlock

  /** What one retrying call did: its result (a returned text or a thrown
      error), the turns it sent on each provider request, in order, and the
      total milliseconds it slept between attempts. */
  datatype Call = Call(result: Outcome<string>, sent: seq<seq<Turn>>, delay: nat)

  function Pow2(k: nat): (r: nat)
    ensures r >= 1
  {
    if k == 0 then 1 else 2 * Pow2(k - 1)
  }

  /** Milliseconds slept before attempt `k`: `2^i * 1000` after each failed
      attempt `i < k`. */
  function Backoff(k: nat): nat
  {
    if k == 0 then 0 else Backoff(k - 1) + Pow2(k - 1) * 1000
  }

  /** The sleeps before attempt `k` add up to `(2^k - 1)` seconds. */
  lemma {:induction false} BackoffClosedForm(k: nat)
    ensures Backoff(k) == (Pow2(k) - 1) * 1000
  {
    if k > 0 {
      BackoffClosedForm(k - 1);
    }
  }

  /** `n` requests, all with the turns `m`. */
  function Repeat(m: seq<Turn>, n: nat): (r: seq<seq<Turn>>)
    ensures |r| == n && forall i :: 0 <= i < n ==> r[i] == m
  {
    seq(n, _ => m)
  }

  /** The first request in `[lo, hi)` that succeeds when sent the turns `m`. */
  function FirstOk<T>(p: Provider<T>, m: seq<Turn>, lo: nat, hi: nat): (k: Option<nat>)
    ensures k.Some? ==> lo <= k.value < hi && p(k.value, m).Ok?
    ensures k.Some? ==> forall j :: lo <= j < k.value ==> p(j, m).Err?
    ensures k.None? ==> forall j :: lo <= j < hi ==> p(j, m).Err?
    decreases hi - lo
  {
    if hi <= lo then None
    else if p(lo, m).Ok? then Some(lo)
    else FirstOk(p, m, lo + 1, hi)
  }

  /** The text `callOpenAI` returns for a completion whose first choice has
      the given message content: never empty, the content itself when there
      is one. */
  function GptText(content: Option<string>): (t: string)
    ensures t != []
    ensures content.Some? && content.value != [] ==> t == content.value
    ensures content.None? || content.value == [] ==> t == "No response from GPT"
  {
    match content
    case Some(text) => if text == [] then "No response from GPT" else text
    case None => "No response from GPT"
  }

  /** The text `callAnthropic` returns for a response whose first content
      block is `b`. */
  function ClaudeText(b: Block): (t: string)
    ensures b.TextBlock? ==> t == b.text
    ensures b.OtherBlock? ==> t == "No text response from Claude"
  {
    match b
    case TextBlock(text) => text
    case OtherBlock => "No text response from Claude"
  }

  /** `callOpenAI(messages, retries)` as one value: attempts `0..retries`,
      each one request with the same turns, up to the first success. */
  function OpenAISpec(p: Provider<Option<string>>, m: seq<Turn>, retries: int): Call
  {
    if retries < 0 then Call(Err("OpenAI call failed"), [], 0)
    else match FirstOk(p, m, 0, retries + 1)
      case Some(k) => Call(Ok(GptText(p(k, m).value)), Repeat(m, k + 1), Backoff(k))
      case None =>
        Call(Err("OpenAI error after " + NatToString(retries + 1) + " attempts: " + p(retries, m).msg),
             Repeat(m, retries + 1), Backoff(retries))
  }

  /** What `callOpenAI` promises about call `c`: at most `retries + 1`
      requests, all with the same turns, stopping at the first success; a
      failure exhausts the attempts and reports the last error; no request at
      all when `retries` is negative. */
  ghost predicate OpenAIPromises(p: Provider<Option<string>>, m: seq<Turn>, retries: int, c: Call) {
    && (forall i :: 0 <= i < |c.sent| ==> c.sent[i] == m)
    && (retries < 0 ==> c.sent == [] && c.delay == 0 && c.result == Err("OpenAI call failed"))
    && (0 <= retries ==> 1 <= |c.sent| <= retries + 1 && c.delay == Backoff(|c.sent| - 1))
    && (forall j :: 0 <= j < |c.sent| - 1 ==> p(j, m).Err?)
    && (c.result.Ok? <==> 0 < |c.sent| && p(|c.sent| - 1, m).Ok?)
    && (c.result.Ok? ==> c.result.value == GptText(p(|c.sent| - 1, m).value))
    && (c.result.Err? && 0 <= retries ==>
          && |c.sent| == retries + 1
          && c.result.msg == "OpenAI error after " + NatToString(retries + 1) + " attempts: " + p(retries, m).msg)
  }

  lemma OpenAISpecShape(p: Provider<Option<string>>, m: seq<Turn>, retries: int)
    ensures OpenAIPromises(p, m, retries, OpenAISpec(p, m, retries))
  {
  }

  /** The loop of `callOpenAI`. */
  method CallOpenAI(messages: seq<Turn>, retries: int, p: Provider<Option<string>>)
    returns (r: Outcome<string>, ghost sent: seq<seq<Turn>>, ghost delay: nat)
    ensures r == OpenAISpec(p, messages, retries).result
    ensures Call(r, sent, delay) == OpenAISpec(p, messages, retries)
  {
    sent, delay := [], 0;
    var attempt: nat := 0;
    while attempt <= retries
      invariant attempt == 0 || attempt <= retries
      invariant sent == Repeat(messages, attempt)
      invariant delay == Backoff(attempt)
      invariant forall j :: 0 <= j < attempt ==> p(j, messages).Err?
      decreases retries - attempt
    {
      var reply := p(attempt, messages);
      sent := sent + [messages];
      if reply.Ok? {
        r := Ok(GptText(reply.value));
        return;
      }
      if attempt == retries {
        r := Err("OpenAI error after " + NatToString(retries + 1) + " attempts: " + reply.msg);
        return;
      }
      delay := delay + Pow2(attempt) * 1000;
      attempt := attempt + 1;
    }
    r := Err("OpenAI call failed");
  }

  /** The first Anthropic request failed with an error whose message mentions
      "alternation": the one condition under which the compatibility request
      is made. */
  predicate Fallback(p: Provider<Block>, m: seq<Turn>) {
    p(0, m).Err? && Contains(p(0, m).msg, "alternation")
  }

  /** The requests of a failed first attempt of `callAnthropic`: the original
      turns, then the rewritten turns when the fallback fires. */
  function FirstAttemptSent(p: Provider<Block>, m: seq<Turn>): (s: seq<seq<Turn>>)
    ensures 1 <= |s| <= 2 && s[0] == m
    ensures |s| == 2 <==> Fallback(p, m)
    ensures |s| == 2 ==> s[1] == CompatRewrite(m)
  {
    if Fallback(p, m) then [m, CompatRewrite(m)] else [m]
  }

  /** The error `callAnthropic` throws when every attempt failed. */
  function AnthropicGaveUp(retries: nat, last: string): string
  {
    "Anthropic error after " + NatToString(retries + 1) + " attempts: " + last
  }

  /** Attempts `1..retries` of `callAnthropic`, one request each with the
      original turns, after a first attempt that failed having made the
      requests `FirstAttemptSent(p, m)`. */
  function AnthropicLater(p: Provider<Block>, m: seq<Turn>, retries: nat): Call
    requires 1 <= retries && p(0, m).Err?
    requires Fallback(p, m) ==> p(1, CompatRewrite(m)).Err?
  {
    var first := FirstAttemptSent(p, m);
    var shift := |first| - 1;
    match FirstOk(p, m, |first|, retries + |first|)
    case Some(k) =>
      assert (first + Repeat(m, k + 1 - |first|))[..|first|] == first;
      Call(Ok(ClaudeText(p(k, m).value)), first + Repeat(m, k + 1 - |first|), Backoff(k - shift))
    case None =>
      assert (first + Repeat(m, retries))[..|first|] == first;
      Call(Err(AnthropicGaveUp(retries, p(retries + shift, m).msg)), first + Repeat(m, retries), Backoff(retries))
  }


  /** What the attempts after the first send and report, as call `c`. */
  ghost predicate LaterPromises(p: Provider<Block>, m: seq<Turn>, retries: nat, c: Call) {
    var first := FirstAttemptSent(p, m);
    && |first| < |c.sent| <= |first| + retries
    && c.sent[..|first|] == first
    && (forall i :: |first| <= i < |c.sent| ==> c.sent[i] == m)
    && (forall j :: |first| <= j < |c.sent| - 1 ==> p(j, m).Err?)
    && (c.result.Ok? <==> p(|c.sent| - 1, m).Ok?)
    && (c.result.Ok? ==> c.result.value == ClaudeText(p(|c.sent| - 1, m).value))
    && c.delay == Backoff(|c.sent| - |first|)
    && (c.result.Err? ==>
          && |c.sent| == |first| + retries
          && c.result.msg == AnthropicGaveUp(retries, p(|c.sent| - 1, m).msg))
  }

  lemma AnthropicLaterShape(p: Provider<Block>, m: seq<Turn>, retries: nat)
    requires 1 <= retries && p(0, m).Err?
    requires Fallback(p, m) ==> p(1, CompatRewrite(m)).Err?
    ensures LaterPromises(p, m, retries, AnthropicLater(p, m, retries))
  {
  }

  /** `callAnthropic(messages, retries)`: like `callOpenAI`, except that when
      the very first request fails with an "alternation" error, one extra
      request carries the rewritten turns. So at most `retries + 2` requests
      are made, the rewritten turns are sent at most once and only as the
      second request, and the error thrown names the compatibility request
      when it was the last one made. */
  function AnthropicSpec(p: Provider<Block>, m: seq<Turn>, retries: int): Call
  {
    if retries < 0 then Call(Err("Anthropic call failed"), [], 0)
    else if p(0, m).Ok? then Call(Ok(ClaudeText(p(0, m).value)), [m], 0)
    else if Fallback(p, m) then
      var compat := CompatRewrite(m);
      if p(1, compat).Ok? then Call(Ok(ClaudeText(p(1, compat).value)), [m, compat], 0)
      else if retries == 0 then
        Call(Err("Anthropic error (compat retry failed): " + p(1, compat).msg), [m, compat], 0)
      else AnthropicLater(p, m, retries)
    else if retries == 0 then Call(Err(AnthropicGaveUp(0, p(0, m).msg)), [m], 0)
    else AnthropicLater(p, m, retries)
  }


  /** What `callAnthropic` promises of the call `c` it makes: the requests
      it sends (the rewritten turns at most once, as the second request, and
      only after an "alternation" error), at most `retries + 2` of them, the
      first success decides the text, and the two forms of the error thrown
      when no attempt succeeds. */
  ghost predicate AnthropicPromises(p: Provider<Block>, m: seq<Turn>, retries: int, c: Call) {
    && (retries < 0 ==> c.sent == [] && c.delay == 0 && c.result == Err("Anthropic call failed"))
    && (0 <= retries ==> 1 <= |c.sent| <= retries + 2)
    && (0 <= retries && |c.sent| == retries + 2 ==> Fallback(p, m))
    && (forall i :: 0 <= i < |c.sent| ==>
          c.sent[i] == if i == 1 && Fallback(p, m) then CompatRewrite(m) else m)
    && (forall j :: 0 <= j < |c.sent| - 1 ==> p(j, c.sent[j]).Err?)
    && (c.result.Ok? <==> 0 < |c.sent| && p(|c.sent| - 1, c.sent[|c.sent| - 1]).Ok?)
    && (c.result.Ok? ==> c.result.value == ClaudeText(p(|c.sent| - 1, c.sent[|c.sent| - 1]).value))
    && (0 <= retries ==>
          c.delay == Backoff(|c.sent| - (if Fallback(p, m) && |c.sent| >= 2 then 2 else 1)))
    && (c.result.Err? && retries == 0 && Fallback(p, m) ==>
          && p(1, CompatRewrite(m)).Err?
          && c.result.msg == "Anthropic error (compat retry failed): " + p(1, CompatRewrite(m)).msg)
    && (c.result.Err? && 0 <= retries && !(retries == 0 && Fallback(p, m)) ==>
          && |c.sent| == retries + |FirstAttemptSent(p, m)|
          && c.result.msg == AnthropicGaveUp(retries, p(|c.sent| - 1, m).msg))
  }

  /** The promises of the attempts after the first are those of the whole call. */
  lemma LaterKeepsPromises(p: Provider<Block>, m: seq<Turn>, retries: nat, c: Call)
    requires 1 <= retries && p(0, m).Err?
    requires Fallback(p, m) ==> p(1, CompatRewrite(m)).Err?
    requires LaterPromises(p, m, retries, c)
    ensures AnthropicPromises(p, m, retries, c)
  {
    var first := FirstAttemptSent(p, m);
    assert forall i :: 0 <= i < |first| ==> c.sent[i] == c.sent[..|first|][i];
  }

  /** A call decided by the first attempt (its request and, after an
      "alternation" error, the compatibility request). */
  lemma FirstAttemptKeepsPromises(p: Provider<Block>, m: seq<Turn>, retries: nat)
    requires p(0, m).Ok? || retries == 0 || (Fallback(p, m) && p(1, CompatRewrite(m)).Ok?)
    ensures AnthropicPromises(p, m, retries, AnthropicSpec(p, m, retries))
  {
    var c := AnthropicSpec(p, m, retries);
    if p(0, m).Ok? || !Fallback(p, m) {
      assert c.sent == [m];
    } else {
      assert c.sent == [m, CompatRewrite(m)];
    }
  }

  lemma AnthropicSpecShape(p: Provider<Block>, m: seq<Turn>, retries: int)
    ensures AnthropicPromises(p, m, retries, AnthropicSpec(p, m, retries))
  {
    if retries < 0 {
    } else if p(0, m).Ok? || retries == 0 || (Fallback(p, m) && p(1, CompatRewrite(m)).Ok?) {
      FirstAttemptKeepsPromises(p, m, retries);
    } else {
      AnthropicLaterShape(p, m, retries);
      assert AnthropicSpec(p, m, retries) == AnthropicLater(p, m, retries);
      LaterKeepsPromises(p, m, retries, AnthropicLater(p, m, retries));
    }
  }

  /** Attempts after the first: the first success among them decides. */
  lemma LaterSucceedsAt(p: Provider<Block>, m: seq<Turn>, retries: nat, k: nat)
    requires 1 <= retries && p(0, m).Err?
    requires Fallback(p, m) ==> p(1, CompatRewrite(m)).Err?
    requires |FirstAttemptSent(p, m)| <= k < retries + |FirstAttemptSent(p, m)|
    requires forall j :: |FirstAttemptSent(p, m)| <= j < k ==> p(j, m).Err?
    requires p(k, m).Ok?
    ensures AnthropicLater(p, m, retries) ==
      Call(Ok(ClaudeText(p(k, m).value)),
           FirstAttemptSent(p, m) + Repeat(m, k + 1 - |FirstAttemptSent(p, m)|),
           Backoff(k + 1 - |FirstAttemptSent(p, m)|))
  {
  }

  /** Attempts after the first: when all fail, the last error is reported. */
  lemma LaterExhausted(p: Provider<Block>, m: seq<Turn>, retries: nat)
    requires 1 <= retries && p(0, m).Err?
    requires Fallback(p, m) ==> p(1, CompatRewrite(m)).Err?
    requires forall j :: |FirstAttemptSent(p, m)| <= j < retries + |FirstAttemptSent(p, m)| - 1 ==> p(j, m).Err?
    requires p(retries + |FirstAttemptSent(p, m)| - 1, m).Err?
    ensures AnthropicLater(p, m, retries) ==
      Call(Err(AnthropicGaveUp(retries, p(retries + |FirstAttemptSent(p, m)| - 1, m).msg)),
           FirstAttemptSent(p, m) + Repeat(m, retries),
           Backoff(retries))
  {
  }

  /** The first request of `callAnthropic` succeeds. */
  lemma FirstSucceeds(p: Provider<Block>, m: seq<Turn>, retries: int)
    requires 0 <= retries && p(0, m).Ok?
    ensures AnthropicSpec(p, m, retries) == Call(Ok(ClaudeText(p(0, m).value)), [m], 0)
  {
  }

  /** The compatibility request decides the call: it succeeds, or it fails
      when no attempt is left. */
  lemma CompatDecides(p: Provider<Block>, m: seq<Turn>, retries: int)
    requires 0 <= retries && Fallback(p, m)
    requires p(1, CompatRewrite(m)).Ok? || retries == 0
    ensures AnthropicSpec(p, m, retries) ==
      Call(if p(1, CompatRewrite(m)).Ok? then Ok(ClaudeText(p(1, CompatRewrite(m)).value))
           else Err("Anthropic error (compat retry failed): " + p(1, CompatRewrite(m)).msg),
           [m, CompatRewrite(m)], 0)
  {
  }

  /** The only attempt fails without the fallback. */
  lemma OnlyAttemptFails(p: Provider<Block>, m: seq<Turn>)
    requires p(0, m).Err? && !Fallback(p, m)
    ensures AnthropicSpec(p, m, 0) == Call(Err(AnthropicGaveUp(0, p(0, m).msg)), [m], 0)
  {
  }

  /** Once the first attempt has failed and attempts remain, the later
      attempts decide. */
  lemma LaterDecides(p: Provider<Block>, m: seq<Turn>, retries: int)
    requires 1 <= retries && p(0, m).Err?
    requires Fallback(p, m) ==> p(1, CompatRewrite(m)).Err?
    ensures AnthropicSpec(p, m, retries) == AnthropicLater(p, m, retries)
  {
  }

  /** The loop of `callAnthropic`, with its compatibility request. */
  method CallAnthropic(messages: seq<Turn>, retries: int, p: Provider<Block>)
    returns (r: Outcome<string>, ghost sent: seq<seq<Turn>>, ghost delay: nat)
    ensures r == AnthropicSpec(p, messages, retries).result
    ensures Call(r, sent, delay) == AnthropicSpec(p, messages, retries)
  {
    sent, delay := [], 0;
    var n: nat := 0;
    var attempt: nat := 0;
    while attempt <= retries
      invariant attempt == 0 || attempt <= retries
      invariant |sent| == n
      invariant attempt == 0 ==> sent == [] && delay == 0
      invariant attempt > 0 ==>
        && p(0, messages).Err?
        && (Fallback(p, messages) ==> p(1, CompatRewrite(messages)).Err?)
        && sent == FirstAttemptSent(p, messages) + Repeat(messages, attempt - 1)
        && n == |FirstAttemptSent(p, messages)| + attempt - 1
        && delay == Backoff(attempt)
        && forall j :: |FirstAttemptSent(p, messages)| <= j < n ==> p(j, messages).Err?
      decreases retries - attempt
    {
      ghost var first := FirstAttemptSent(p, messages);
      var reply := p(n, messages);
      assert attempt > 0 ==> sent + [messages] == first + Repeat(messages, attempt);
      sent, n := sent + [messages], n + 1;
      if reply.Ok? {
        r := Ok(ClaudeText(reply.value));
        if attempt > 0 {
          LaterDecides(p, messages, retries);
          LaterSucceedsAt(p, messages, retries, n - 1);
        } else {
          FirstSucceeds(p, messages, retries);
        }
        return;
      }
      if Contains(reply.msg, "alternation") && attempt == 0 {
        var compat := CompatRewrite(messages);
        var compatReply := p(n, compat);
        sent, n := sent + [compat], n + 1;
        if compatReply.Ok? {
          r := Ok(ClaudeText(compatReply.value));
          CompatDecides(p, messages, retries);
          return;
        }
        if attempt == retries {
          r := Err("Anthropic error (compat retry failed): " + compatReply.msg);
          CompatDecides(p, messages, retries);
          return;
        }
      } else if attempt == retries {
        r := Err("Anthropic error after " + NatToString(retries + 1) + " attempts: " + reply.msg);
        if attempt > 0 {
          assert n == |first| + retries && reply == p(n - 1, messages);
          LaterDecides(p, messages, retries);
          LaterExhausted(p, messages, retries);
        } else {
          OnlyAttemptFails(p, messages);
        }
        return;
      }
      delay := delay + Pow2(attempt) * 1000;
      attempt := attempt + 1;
    }
    r := Err("Anthropic call failed");
  }
}
