/** Speaker attribution: the `[SPEAKER: …]` prefix the server puts on every
    turn it sends to a provider, its removal from provider replies, and the
    role rewrite that folds GPT's turns into user turns for a provider that
    insists on strict user/assistant alternation (backend/src/server.ts). */
module Speaker {
  import opened Text
  import opened Types

  /** `c` is the upper-case ASCII letter `u` or its lower-case form: a
      case-insensitive regular expression without the `u` flag folds only
      ASCII letters. */
  predicate SameLetter(c: char, u: char)
    requires 'A' <= u <= 'Z'
  {
    c == u || c as int == u as int + 32
  }

  /** `s` begins with `[SPEAKER:`, letters compared without regard to case. */
  predicate MarkerOpens(s: string) {
    && |s| >= 9
    && s[0] == '['
    && SameLetter(s[1], 'S') && SameLetter(s[2], 'P') && SameLetter(s[3], 'E')
    && SameLetter(s[4], 'A') && SameLetter(s[5], 'K') && SameLetter(s[6], 'E')
    && SameLetter(s[7], 'R')
    && s[8] == ':'
  }

  /** `m` is a whole speaker marker: `[SPEAKER:` (any case), then any text
      without `]`, then `]`. */
  ghost predicate IsMarker(m: string) {
    && |m| >= 10
    && MarkerOpens(m)
    && m[|m| - 1] == ']'
    && forall i :: 9 <= i < |m| - 1 ==> m[i] != ']'
  }

  /** Some prefix of `s` is a speaker marker. */
  ghost predicate StartsWithMarker(s: string) {
    exists k :: 0 <= k <= |s| && IsMarker(s[..k])
  }

  /** The first `]` at or after index `i`. */
  function FindClose(s: string, i: nat): (k: Option<nat>)
    requires i <= |s|
    ensures k.Some? ==> i <= k.value < |s| && s[k.value] == ']'
    ensures k.Some? ==> forall j :: i <= j < k.value ==> s[j] != ']'
    ensures k.None? ==> forall j :: i <= j < |s| ==> s[j] != ']'
    decreases |s| - i
  {
    if i == |s| then None
    else if s[i] == ']' then Some(i)
    else FindClose(s, i + 1)
  }

  /** Where the text after a leading marker begins, if `s` starts with one. */
  function MarkerEnd(s: string): Option<nat>
  {
    if !MarkerOpens(s) then None
    else match FindClose(s, 9)
      case Some(k) => Some(k + 1)
      case None => None
  }

  /** `MarkerEnd` finds the marker exactly when there is one. */
  lemma MarkerEndFinds(s: string)
    ensures MarkerEnd(s).Some? ==> MarkerEnd(s).value <= |s| && IsMarker(s[..MarkerEnd(s).value])
    ensures MarkerEnd(s).None? <==> !StartsWithMarker(s)
  {
    if MarkerEnd(s).Some? {
      var e := MarkerEnd(s).value;
      assert IsMarker(s[..e]);
    }
    if StartsWithMarker(s) {
      var k :| 0 <= k <= |s| && IsMarker(s[..k]);
      assert s[..k][..9] == s[..9];
      assert s[k - 1] == s[..k][k - 1];
      assert forall j :: 9 <= j < k - 1 ==> s[..k][j] == s[j];
      assert FindClose(s, 9).Some?;
    }
  }

  /** `cleanSpeakerLabels`: drop one leading speaker marker (and the
      whitespace after it), then trim. The result has no whitespace at
      either end and is never longer than the input. */
  function CleanSpeakerLabels(s: string): (r: string)
    ensures IsTrimmed(r)
    ensures |r| <= |s|
  {
    match MarkerEnd(s)
    case Some(e) => Trim(s[e..])
    case None => Trim(s)
  }

  /** With a marker in front, cleaning yields the trimmed text after it. */
  lemma CleanAfterMarker(m: string, rest: string)
    requires IsMarker(m)
    ensures CleanSpeakerLabels(m + rest) == Trim(rest)
  {
    var s := m + rest;
    assert s[..9] == m[..9];
    assert s[|m| - 1] == ']';
    assert forall j :: 9 <= j < |m| - 1 ==> s[j] == m[j];
    assert FindClose(s, 9) == Some(|m| - 1);
    assert s[|m|..] == rest;
  }

  /** Without a marker in front, cleaning is trimming. */
  lemma CleanWithoutMarker(s: string)
    requires !StartsWithMarker(s)
    ensures CleanSpeakerLabels(s) == Trim(s)
  {
    MarkerEndFinds(s);
  }

  /** Cleaning twice gives what cleaning once gives exactly when the cleaned
      text does not itself start with a marker: a reply that carries two
      stacked markers keeps the second one. */
  lemma CleanTwice(s: string)
    ensures CleanSpeakerLabels(CleanSpeakerLabels(s)) == CleanSpeakerLabels(s)
            <==> !StartsWithMarker(CleanSpeakerLabels(s))
  {
    var t := CleanSpeakerLabels(s);
    MarkerEndFinds(t);
    if StartsWithMarker(t) {
      var e := MarkerEnd(t).value;
      assert |CleanSpeakerLabels(t)| <= |t[e..]| < |t|;
    } else {
      TrimOfTrimmed(t);
    }
  }

  /** The marker `[SPEAKER: <name>]` for a name without `]`. */
  function SpeakerMarker(name: string): (m: string)
    requires forall i :: 0 <= i < |name| ==> name[i] != ']'
    ensures IsMarker(m)
  {
    var m := "[SPEAKER: " + name + "]";
    assert forall i :: 10 <= i < |m| - 1 ==> m[i] == name[i - 10];
    m
  }

  /** A marker, one space, then text: cleaning yields the trimmed text. */
  lemma CleanMarkerSpace(marker: string, t: string)
    requires IsMarker(marker)
    ensures CleanSpeakerLabels(marker + " " + t) == Trim(t)
  {
    assert marker + " " + t == marker + ([' '] + t);
    CleanAfterMarker(marker, [' '] + t);
    TrimSkipsLeadingSpace(' ', t);
  }

  /** A reply carrying two stacked markers loses only the first; cleaning
      again removes the second, so the two results differ. */
  lemma CleanKeepsSecondMarker(first: string, second: string, rest: string)
    requires IsMarker(first) && IsMarker(second) && IsTrimmed(rest) && rest != []
    ensures CleanSpeakerLabels(first + " " + second + " " + rest) == second + " " + rest
    ensures CleanSpeakerLabels(second + " " + rest) == rest
    ensures rest != second + " " + rest
  {
    var t := second + " " + rest;
    assert first + " " + second + " " + rest == first + " " + t;
    CleanMarkerSpace(first, t);
    assert t[0] == second[0] && t[|t| - 1] == rest[|rest| - 1];
    TrimOfTrimmed(t);
    CleanMarkerSpace(second, rest);
    TrimOfTrimmed(rest);
  }

  /** A marker preceded by whitespace is not removed; only the whitespace is. */
  lemma CleanKeepsIndentedMarker(c: char, marker: string, rest: string)
    requires IsSpace(c) && IsMarker(marker) && IsTrimmed(rest) && rest != []
    ensures CleanSpeakerLabels([c] + marker + rest) == marker + rest
  {
    var t := marker + rest;
    assert [c] + marker + rest == [c] + t;
    assert !MarkerOpens([c] + t);
    MarkerEndFinds([c] + t);
    TrimSkipsLeadingSpace(c, t);
    assert t[0] == marker[0] && t[|t| - 1] == rest[|rest| - 1];
    TrimOfTrimmed(t);
  }

  /** The name a stored message is attributed to in a provider's view. */
  function SpeakerName(m: Msg): string
  {
    if m.role == UserRole then "User"
    else if m.author == Gpt then "GPT"
    else "Claude"
  }

  /** The provider-facing form of one stored message. */
  function LabelTurn(m: Msg): Turn
  {
    Turn(m.role, SpeakerMarker(SpeakerName(m)) + " " + m.content)
  }

  /** `createSpeakerLabeledHistory`: one labelled turn per stored message, in
      order, each keeping the message's role. */
  function LabelHistory(h: seq<Msg>): (r: seq<Turn>)
    ensures |r| == |h|
    ensures forall i :: 0 <= i < |h| ==> r[i] == LabelTurn(h[i])
  {
    seq(|h|, i requires 0 <= i < |h| => LabelTurn(h[i]))
  }

  /** Labelling distributes over appending to the log. */
  lemma LabelHistoryAppend(h: seq<Msg>, m: Msg)
    ensures LabelHistory(h + [m]) == LabelHistory(h) + [LabelTurn(m)]
  {
  }

  /** Cleaning a labelled turn gives back the trimmed message text: the label
      is exactly one marker and a space. */
  lemma CleanUndoesLabel(m: Msg)
    ensures LabelTurn(m).role == m.role
    ensures CleanSpeakerLabels(LabelTurn(m).content) == Trim(m.content)
  {
    var mark := SpeakerMarker(SpeakerName(m));
    assert LabelTurn(m).content == mark + ([' '] + m.content);
    CleanAfterMarker(mark, [' '] + m.content);
    TrimSkipsLeadingSpace(' ', m.content);
  }

  /** The text that marks a turn as GPT's. */
  const GptMarker: string := "[SPEAKER: GPT]"

  /** The Anthropic compatibility rewrite: an assistant turn that mentions the
      GPT marker is re-sent as a user turn; nothing else changes. */
  function CompatRewrite(turns: seq<Turn>): (r: seq<Turn>)
    ensures |r| == |turns|
    ensures forall i :: 0 <= i < |r| ==> r[i].content == turns[i].content
    ensures forall i :: 0 <= i < |r| ==>
      (r[i].role != turns[i].role <==> turns[i].role == AssistantRole && Contains(turns[i].content, GptMarker))
    ensures forall i :: 0 <= i < |r| ==> r[i].role == AssistantRole ==> turns[i].role == AssistantRole
  {
    seq(|turns|, i requires 0 <= i < |turns| =>
      if turns[i].role == AssistantRole && Contains(turns[i].content, GptMarker)
      then Turn(UserRole, turns[i].content)
      else turns[i])
  }

  /** A stored message is consistent: the user role goes with the user author. */
  predicate RoleMatchesAuthor(m: Msg) {
    m.role == UserRole <==> m.author == User
  }

  /** On a labelled log, the rewrite turns every GPT message into a user turn
      and keeps a Claude message an assistant turn unless its own text quotes
      the GPT marker. */
  lemma CompatOfLabelled(h: seq<Msg>, i: nat)
    requires i < |h| && RoleMatchesAuthor(h[i])
    ensures CompatRewrite(LabelHistory(h))[i].role == AssistantRole
            <==> h[i].author == Claude && !Contains(h[i].content, GptMarker)
  {
    var m := h[i];
    if m.author == Gpt {
      var t := LabelTurn(m).content;
      assert t[..|GptMarker|] == GptMarker;
      ContainsIff(t, GptMarker);
      assert OccursAt(t, GptMarker, 0);
    } else if m.author == Claude {
      var p := "[SPEAKER: Claude] ";
      assert LabelTurn(m).content == p + m.content;
      forall j: nat | j < |p| ensures !OccursAt(p + m.content, GptMarker, j) {
        var s := p + m.content;
        if j + |GptMarker| <= |s| {
          var w := s[j..j + |GptMarker|];
          if j == 0 {
            assert w[10] == s[10] == 'C';
          } else {
            assert w[0] == s[j] == p[j];
          }
        }
      }
      ContainsAfterPrefix(p, m.content, GptMarker);
    }
  }
}
