/** The browser client of frontend/src/App.tsx as a state machine over its
    three state holders: the local copy of the log, the selected tags and
    the in-flight flag. */
module ChatApp {
  import opened Text
  import opened Types
  import ChatServer

  /** The tags the client can select. */
  datatype Tag = AtGpt | AtClaude

  /** The tag as it is sent in a request. */
  function TagText(t: Tag): (s: string)
    ensures s == "@gpt" || s == "@claude"
    ensures s == "@gpt" <==> t == AtGpt
  {
    match t
    case AtGpt => "@gpt"
    case AtClaude => "@claude"
  }

  predicate NoDuplicates<T(==)>(s: seq<T>) {
    forall i, j :: 0 <= i < j < |s| ==> s[i] != s[j]
  }

  /** The `onToggleTag` updater: a tag already selected leaves the selection
      as it is, any other tag is appended at the end. Nothing is ever
      removed, and a selection without duplicates stays without. */
  function Toggle(prev: seq<Tag>, t: Tag): (r: seq<Tag>)
    ensures t in r
    ensures prev <= r && |r| <= |prev| + 1
    ensures r == prev <==> t in prev
    ensures NoDuplicates(prev) ==> NoDuplicates(r)
  {
    if t in prev then prev else prev + [t]
  }

  /** Toggling the same tag twice is toggling it once. */
  lemma ToggleIdempotent(prev: seq<Tag>, t: Tag)
    ensures Toggle(Toggle(prev, t), t) == Toggle(prev, t)
  {
  }

  /** The request `send` makes for the selection. */
  function RequestTags(tags: seq<Tag>): (r: seq<string>)
    ensures |r| == |tags| && forall i :: 0 <= i < |tags| ==> r[i] == TagText(tags[i])
  {
    seq(|tags|, i requires 0 <= i < |tags| => TagText(tags[i]))
  }

  /** The `send` guard: blank content or an empty selection sends nothing. */
  predicate CanSend(content: string, tags: seq<Tag>) {
    Trim(content) != [] && tags != []
  }

  /** Every request the client makes passes the server's validation. */
  lemma ClientRequestsAccepted(content: string, tags: seq<Tag>)
    requires CanSend(content, tags)
    ensures ChatServer.Accepts(SendRequest(Some(content), Some(RequestTags(tags))))
  {
  }

  /** The replies of a response, as assistant entries of the log, in order. */
  function ReplyMsgs(replies: seq<Reply>): (ms: seq<Msg>)
    ensures |ms| == |replies|
    ensures forall i :: 0 <= i < |replies| ==> ms[i] == AssistantMsg(replies[i])
  {
    seq(|replies|, i requires 0 <= i < |replies| => AssistantMsg(replies[i]))
  }

  /** The optimistic merge of a response into the local log: the old log
      unchanged, one user entry with the content as typed, then every reply
      as an assistant entry, in reply order. */
  function Merge(h: seq<Msg>, content: string, resp: SendResponse, now: int): (r: seq<Msg>)
    ensures |r| == |h| + 1 + |resp.replies|
    ensures r[..|h|] == h
    ensures r[|h|] == Msg(resp.userMessageId, User, UserRole, content, now)
    ensures forall i :: 0 <= i < |resp.replies| ==>
      r[|h| + 1 + i].role == AssistantRole && Reply(r[|h| + 1 + i].id, r[|h| + 1 + i].author,
        r[|h| + 1 + i].content, r[|h| + 1 + i].ts) == resp.replies[i]
  {
    h + [Msg(resp.userMessageId, User, UserRole, content, now)] + ReplyMsgs(resp.replies)
  }

  /** After a send the client's log agrees with the server's on the reply
      entries exactly when every slot succeeded: an error reply is shown
      locally but was never stored by the server. */
  lemma {:induction false} MergeMirrorsServer(slots: seq<ChatServer.Slot>)
    ensures ReplyMsgs(ChatServer.Replies(slots)) == ChatServer.Stored(slots)
            <==> forall i :: 0 <= i < |slots| ==> slots[i].stored
  {
    if slots != [] {
      var n := |slots| - 1;
      var init := slots[..n];
      var x := AssistantMsg(slots[n].reply);
      assert slots == init + [slots[n]];
      MergeMirrorsServer(init);
      ChatServer.StoredSnoc(init, slots[n]);
      ChatServer.RepliesSnoc(init, slots[n]);
      assert ReplyMsgs(ChatServer.Replies(slots)) == ReplyMsgs(ChatServer.Replies(init)) + [x];
      SnocInjective(ReplyMsgs(ChatServer.Replies(init)), ChatServer.Stored(init), x);
      if forall i :: 0 <= i < |slots| ==> slots[i].stored {
        assert forall i :: 0 <= i < n ==> init[i].stored;
      } else if slots[n].stored {
        var k :| 0 <= k < |slots| && !slots[k].stored;
        assert !init[k].stored;
      }
    }
  }

  lemma SnocInjective<T>(a: seq<T>, b: seq<T>, x: T)
    ensures a + [x] == b + [x] ==> a == b
  {
    if a + [x] == b + [x] {
      assert a == (a + [x])[..|a|];
    }
  }

  class App {
    /** The local copy of the log. */
    var history: seq<Msg>
    /** The tags the next send addresses, in selection order. */
    var selectedTags: seq<Tag>
    /** A send is in flight. */
    var sending: bool

    ghost predicate Valid()
      reads this
    {
      NoDuplicates(selectedTags)
    }

    constructor ()
      ensures Valid()
      ensures history == [] && selectedTags == [AtGpt] && !sending
    {
      history := [];
      selectedTags := [AtGpt];
      sending := false;
    }

    /** `onToggleTag`. */
    method ToggleTag(t: Tag)
      requires Valid()
      modifies this
      ensures Valid()
      ensures selectedTags == Toggle(old(selectedTags), t)
      ensures history == old(history) && sending == old(sending)
    {
      selectedTags := Toggle(selectedTags, t);
    }

    /** `onClearTags`. */
    method ClearTags()
      modifies this
      ensures Valid()
      ensures selectedTags == [] && history == old(history) && sending == old(sending)
    {
      selectedTags := [];
    }

    /** The synchronous part of `send`, up to the request: past the guard the
        flag is raised and the request carries the content as typed and the
        selection. */
    method BeginSend(content: string) returns (req: Option<SendRequest>)
      modifies this
      ensures history == old(history) && selectedTags == old(selectedTags)
      ensures !CanSend(content, selectedTags) ==> req.None? && sending == old(sending)
      ensures CanSend(content, selectedTags) ==>
        req == Some(SendRequest(Some(content), Some(RequestTags(selectedTags)))) && sending
    {
      if Trim(content) == [] || |selectedTags| == 0 {
        return None;
      }
      sending := true;
      req := Some(SendRequest(Some(content), Some(RequestTags(selectedTags))));
    }

    /** The rest of `send`, once the request settled: a response is merged at
        the clock reading `now`, a failure leaves the log alone, and either
        way the flag is lowered. */
    method FinishSend(content: string, resp: Outcome<SendResponse>, now: int)
      modifies this
      ensures !sending && selectedTags == old(selectedTags)
      ensures resp.Ok? ==> history == Merge(old(history), content, resp.value, now)
      ensures resp.Err? ==> history == old(history)
    {
      if resp.Ok? {
        history := Merge(history, content, resp.value, now);
      }
      sending := false;
    }

    /** `doReset`: once the server confirmed the reset the local log is
        emptied; a failed reset request changes nothing. */
    method Reset(serverReset: bool)
      modifies this
      ensures serverReset ==> history == []
      ensures !serverReset ==> history == old(history)
      ensures selectedTags == old(selectedTags) && sending == old(sending)
    {
      if serverReset {
        history := [];
      }
    }
  }
}
