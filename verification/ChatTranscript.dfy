/** The stored chat of an asset and the window of it that is sent again (app/assistant.py). */
module ChatTranscript {
  import opened Basics
  import opened Models
  import opened AssetChildren

  datatype Message = Message(role: Role, content: seq<Block>)

  /** The messages of one asset, oldest first. */
  function Transcript(chat: seq<ChatMessage>, a: Id): seq<Message> {
    if chat == [] then []
    else
      var r := chat[|chat| - 1];
      Transcript(chat[..|chat| - 1], a) + (if r.assetId == a then [Message(r.role, r.content)] else [])
  }

  function RowsFor(a: Id, ms: seq<Message>): seq<ChatMessage> {
    seq(|ms|, i requires 0 <= i < |ms| => ChatMessage(a, ms[i].role, ms[i].content))
  }

  // ---- what is done to blocks before they are sent ----

  /** `_request_safe_blocks`: the response-only field is dropped. */
  function Safe(bs: seq<Block>): (r: seq<Block>) {
    seq(|bs|, i requires 0 <= i < |bs| => bs[i].(parsedOutput := false))
  }

  predicate IsAttachment(b: Block) {
    b.kind.Picture? || b.kind.Document?
  }

  /** `_attachment_placeholder` */
  function Placeholder(b: Block): Block
    requires IsAttachment(b)
  {
    var name := if Truthy(b.kind.title) then b.kind.title.value else "attachment";
    var kind := if b.kind.Picture? then "image" else "document";
    Block(Words("[" + kind + " \"" + name + "\" from an earlier turn -- re-upload to re-examine it]"), false, false)
  }

  function WithoutAttachments(bs: seq<Block>): (r: seq<Block>) {
    seq(|bs|, i requires 0 <= i < |bs| => if IsAttachment(bs[i]) then Placeholder(bs[i]) else bs[i])
  }

  // The cache breakpoint on the last block of the last message.
  function Marked(ms: seq<Message>): seq<Message> {
    if ms == [] || ms[|ms| - 1].content == [] then ms
    else
      var last := ms[|ms| - 1];
      var n := |last.content| - 1;
      ms[|ms| - 1 := last.(content := last.content[n := last.content[n].(cacheMark := true)])]
  }

  // ---- turns ----

  predicate HasResult(bs: seq<Block>) {
    exists i :: 0 <= i < |bs| && bs[i].kind.ToolResult?
  }

  /** A real question of the user, as opposed to the tool results the loop sends in his name. */
  predicate IsTurnStart(m: Message) {
    m.role == User && !HasResult(m.content)
  }

  function Starts(ms: seq<Message>): (r: seq<nat>)
    ensures forall k :: 0 <= k < |r| ==> r[k] < |ms|
  {
    if ms == [] then []
    else
      var n := |ms| - 1;
      Starts(ms[..n]) + (if IsTurnStart(ms[n]) then [n] else [])
  }

  const MAX_REPLAY_TURNS: nat := 10

  function Window(ms: seq<Message>): seq<Message> {
    var starts := Starts(ms);
    if |starts| > MAX_REPLAY_TURNS then ms[starts[|starts| - MAX_REPLAY_TURNS]..] else ms
  }

  function Stripped(m: Message): Message {
    if m.role == User then m.(content := WithoutAttachments(m.content)) else m
  }

  // The attachments of every turn but the newest are replaced.
  function StripOld(ms: seq<Message>): (r: seq<Message>)
    ensures |r| == |ms|
  {
    var starts := Starts(ms);
    if starts == [] then ms
    else seq(|ms|, i requires 0 <= i < |ms| => if i < starts[|starts| - 1] then Stripped(ms[i]) else ms[i])
  }

  function SafeAll(ms: seq<Message>): (r: seq<Message>)
    ensures |r| == |ms|
  {
    seq(|ms|, i requires 0 <= i < |ms| => ms[i].(content := Safe(ms[i].content)))
  }

  /** `_replay`, on the rows of one asset. */
  function ReplayOf(rows: seq<Message>): seq<Message> {
    Marked(StripOld(Window(SafeAll(rows))))
  }

  // ---- turn starts of parts of a transcript ----

  function Shifted(s: seq<nat>, n: nat): seq<nat> {
    seq(|s|, i requires 0 <= i < |s| => s[i] + n)
  }

  lemma {:induction false} StartsConcat(a: seq<Message>, b: seq<Message>)
    ensures Starts(a + b) == Starts(a) + Shifted(Starts(b), |a|)
  {
    if b == [] {
      assert a + b == a;
    } else {
      assert (a + b)[..|a + b| - 1] == a + b[..|b| - 1];
      StartsConcat(a, b[..|b| - 1]);
    }
  }

  /** The k-th turn start starts a turn, and k turns start before it. */
  lemma {:induction false} StartAt(ms: seq<Message>, k: nat)
    requires k < |Starts(ms)|
    ensures IsTurnStart(ms[Starts(ms)[k]]) && |Starts(ms[..Starts(ms)[k]])| == k
  {
    var front := ms[..|ms| - 1];
    if k < |Starts(front)| {
      StartAt(front, k);
      assert ms[..Starts(ms)[k]] == front[..Starts(front)[k]];
    }
  }

  // Every turn start is listed.
  lemma {:induction false} StartIsListed(ms: seq<Message>, i: nat)
    requires i < |ms| && IsTurnStart(ms[i])
    ensures i in Starts(ms)
  {
    if i < |ms| - 1 {
      StartIsListed(ms[..|ms| - 1], i);
    }
  }

  lemma {:induction false} SameStarts(a: seq<Message>, b: seq<Message>)
    requires |a| == |b| && forall i :: 0 <= i < |a| ==> (IsTurnStart(a[i]) <==> IsTurnStart(b[i]))
    ensures Starts(a) == Starts(b)
  {
    if a != [] {
      SameStarts(a[..|a| - 1], b[..|b| - 1]);
    }
  }

  /** From the k-th turn start on, the turn starts are the remaining ones, counted from there. */
  lemma StartsFrom(ms: seq<Message>, k: nat)
    requires k < |Starts(ms)|
    ensures var w := Starts(ms)[k]; Shifted(Starts(ms[w..]), w) == Starts(ms)[k..]
  {
    var w := Starts(ms)[k];
    StartAt(ms, k);
    assert ms[..w] + ms[w..] == ms;
    StartsConcat(ms[..w], ms[w..]);
    hide Starts;
  }

  lemma SafeKeepsStarts(ms: seq<Message>)
    ensures Starts(SafeAll(ms)) == Starts(ms)
  {
    forall i | 0 <= i < |ms| ensures IsTurnStart(SafeAll(ms)[i]) <==> IsTurnStart(ms[i]) {
      SafeKeepsResults(ms[i].content);
    }
    SameStarts(SafeAll(ms), ms);
  }

  lemma SafeKeepsResults(bs: seq<Block>)
    ensures HasResult(Safe(bs)) <==> HasResult(bs)
  {
    if HasResult(bs) {
      var i :| 0 <= i < |bs| && bs[i].kind.ToolResult?;
      assert Safe(bs)[i].kind.ToolResult?;
    }
  }

  lemma StrippingKeepsResults(bs: seq<Block>)
    ensures HasResult(WithoutAttachments(bs)) <==> HasResult(bs)
  {
    if HasResult(bs) {
      var i :| 0 <= i < |bs| && bs[i].kind.ToolResult?;
      assert WithoutAttachments(bs)[i].kind.ToolResult?;
    }
  }

  // ---- tool calls and their results ----

  function UseIds(bs: seq<Block>): seq<string> {
    if bs == [] then []
    else
      UseIds(bs[..|bs| - 1]) + (if bs[|bs| - 1].kind.ToolUse? then [bs[|bs| - 1].kind.id] else [])
  }

  /** `r` answers the tool calls of `u`: it holds one result for each, in order, and nothing else. */
  predicate Answers(r: Message, u: Message) {
    && r.role == User && u.role == Assistant
    && |r.content| == |UseIds(u.content)|
    && forall i :: 0 <= i < |r.content| ==>
         r.content[i].kind.ToolResult? && r.content[i].kind.toolUseId == UseIds(u.content)[i]
  }

  /** What the API demands of every message in its place. */
  predicate PairedAt(ms: seq<Message>, i: nat)
    requires i < |ms|
  {
    && (ms[i].role == Assistant ==> i > 0 && ms[i - 1].role == User)
    && (ms[i].role == Assistant && UseIds(ms[i].content) != [] ==> i + 1 < |ms| && Answers(ms[i + 1], ms[i]))
    && (ms[i].role == User && HasResult(ms[i].content) ==> i > 0 && Answers(ms[i], ms[i - 1]))
  }

  ghost predicate Paired(ms: seq<Message>) {
    forall i :: 0 <= i < |ms| ==> PairedAt(ms, i)
  }

  lemma PairedConcat(a: seq<Message>, b: seq<Message>)
    requires Paired(a) && Paired(b)
    ensures Paired(a + b)
  {
    forall i | 0 <= i < |a + b| ensures PairedAt(a + b, i) {
      if i < |a| {
        assert PairedAt(a, i);
      } else {
        assert PairedAt(b, i - |a|);
      }
    }
  }

  // A transcript may be cut before any real question.
  lemma PairedFrom(ms: seq<Message>, w: nat)
    requires Paired(ms) && w < |ms| && IsTurnStart(ms[w])
    ensures Paired(ms[w..])
  {
    var b := ms[w..];
    forall i | 0 <= i < |b| ensures PairedAt(b, i) {
      assert PairedAt(ms, w + i);
    }
  }

  // The same roles, calls and results.
  predicate SameShape(m: Message, n: Message) {
    && m.role == n.role && |m.content| == |n.content|
    && UseIds(m.content) == UseIds(n.content)
    && (HasResult(m.content) <==> HasResult(n.content))
    && forall i :: 0 <= i < |m.content| && m.content[i].kind.ToolResult? ==> n.content[i].kind == m.content[i].kind
  }

  lemma PairedByShape(a: seq<Message>, b: seq<Message>)
    requires Paired(a) && |a| == |b| && forall i :: 0 <= i < |a| ==> SameShape(a[i], b[i])
    ensures Paired(b)
  {
    forall i | 0 <= i < |b| ensures PairedAt(b, i) {
      assert PairedAt(a, i);
      assert SameShape(a[i], b[i]);
      if i + 1 < |b| {
        assert SameShape(a[i + 1], b[i + 1]);
      }
      if i > 0 {
        assert SameShape(a[i - 1], b[i - 1]);
      }
    }
  }

  lemma {:induction false} SameUses(a: seq<Block>, b: seq<Block>)
    requires |a| == |b|
    requires forall i :: 0 <= i < |a| ==> if a[i].kind.ToolUse? then b[i].kind == a[i].kind else !b[i].kind.ToolUse?
    ensures UseIds(a) == UseIds(b)
  {
    if a != [] {
      SameUses(a[..|a| - 1], b[..|b| - 1]);
    }
  }

  lemma SafeShape(m: Message)
    ensures SameShape(m, m.(content := Safe(m.content)))
  {
    SameUses(m.content, Safe(m.content));
    SafeKeepsResults(m.content);
  }

  lemma StrippedShape(m: Message)
    ensures SameShape(m, m.(content := WithoutAttachments(m.content)))
  {
    SameUses(m.content, WithoutAttachments(m.content));
    StrippingKeepsResults(m.content);
  }

  lemma MarkedShape(m: Message)
    requires m.content != []
    ensures var n := |m.content| - 1;
      SameShape(m, m.(content := m.content[n := m.content[n].(cacheMark := true)]))
  {
  }

  lemma SameShapeItself(m: Message)
    ensures SameShape(m, m)
  {
  }

  // ---- the window ----

  lemma WindowMeaning(ms: seq<Message>)
    ensures var n, w := |Starts(ms)|, |ms| - |Window(ms)|;
      && 0 <= w && Window(ms) == ms[w..]
      && Shifted(Starts(Window(ms)), w) == Starts(ms)[if n > MAX_REPLAY_TURNS then n - MAX_REPLAY_TURNS else 0..]
  {
    hide Starts;
    var n := |Starts(ms)|;
    if n > MAX_REPLAY_TURNS {
      StartsFrom(ms, n - MAX_REPLAY_TURNS);
    } else {
      assert ms[0..] == ms && Starts(ms)[0..] == Starts(ms) == Shifted(Starts(ms), 0);
    }
  }

  lemma WindowPaired(ms: seq<Message>)
    requires Paired(ms)
    ensures Paired(Window(ms))
    ensures Window(ms) != [] ==> IsTurnStart(Window(ms)[0])
  {
    var n := |Starts(ms)|;
    if n > MAX_REPLAY_TURNS {
      StartAt(ms, n - MAX_REPLAY_TURNS);
      PairedFrom(ms, Starts(ms)[n - MAX_REPLAY_TURNS]);
    } else if ms != [] {
      assert PairedAt(ms, 0);
    }
  }

  lemma SafeAllPaired(ms: seq<Message>)
    requires Paired(ms)
    ensures Paired(SafeAll(ms))
  {
    forall i | 0 <= i < |ms| ensures SameShape(ms[i], SafeAll(ms)[i]) {
      SafeShape(ms[i]);
    }
    PairedByShape(ms, SafeAll(ms));
  }

  lemma StripOldPaired(ms: seq<Message>)
    requires Paired(ms)
    ensures Paired(StripOld(ms))
    ensures forall i :: 0 <= i < |ms| ==> (IsTurnStart(StripOld(ms)[i]) <==> IsTurnStart(ms[i]))
  {
    forall i | 0 <= i < |ms| ensures SameShape(ms[i], StripOld(ms)[i]) {
      StrippedShape(ms[i]);
      SameShapeItself(ms[i]);
    }
    PairedByShape(ms, StripOld(ms));
  }

  lemma MarkedPaired(ms: seq<Message>)
    requires Paired(ms)
    ensures Paired(Marked(ms)) && |Marked(ms)| == |ms|
    ensures forall i :: 0 <= i < |ms| ==> (IsTurnStart(Marked(ms)[i]) <==> IsTurnStart(ms[i]))
  {
    forall i | 0 <= i < |ms| ensures SameShape(ms[i], Marked(ms)[i]) {
      SameShapeItself(ms[i]);
      if ms[i].content != [] {
        MarkedShape(ms[i]);
      }
    }
    PairedByShape(ms, Marked(ms));
  }

  /** Of a paired transcript the API is sent at most ten turns, from a real question on, with every
      tool call still answered in the next message. */
  lemma ReplayIsPaired(rows: seq<Message>)
    requires Paired(rows)
    ensures Paired(ReplayOf(rows))
    ensures ReplayOf(rows) != [] ==> IsTurnStart(ReplayOf(rows)[0])
    ensures |Starts(ReplayOf(rows))| == if |Starts(rows)| > 10 then 10 else |Starts(rows)|
  {
    hide Window, Paired, Starts, StripOld, Marked, SafeAll, IsTurnStart;
    var safe := SafeAll(rows);
    SafeAllPaired(rows);
    SafeKeepsStarts(rows);
    WindowPaired(safe);
    WindowMeaning(safe);
    StripOldPaired(Window(safe));
    MarkedPaired(StripOld(Window(safe)));
    SameStarts(ReplayOf(rows), Window(safe));
  }

  // ---- the same but for cache marks ----

  function Unmark(m: Message): Message {
    m.(content := seq(|m.content|, i requires 0 <= i < |m.content| => m.content[i].(cacheMark := false)))
  }

  function UnmarkAll(ms: seq<Message>): (r: seq<Message>)
    ensures |r| == |ms|
  {
    seq(|ms|, i requires 0 <= i < |ms| => Unmark(ms[i]))
  }

  lemma UnmarkMarked(ms: seq<Message>)
    ensures UnmarkAll(Marked(ms)) == UnmarkAll(ms)
  {
    if ms != [] && ms[|ms| - 1].content != [] {
      var n := |ms| - 1;
      assert Unmark(Marked(ms)[n]).content == Unmark(ms[n]).content;
    }
  }

  /** A message that starts no turn is sent after what was sent before it: within a turn the messages
      kept in memory are the replay of the stored rows, but for cache marks. */
  lemma ReplayGrows(rows: seq<Message>, m: Message)
    requires !IsTurnStart(m)
    ensures UnmarkAll(ReplayOf(rows + [m]))
         == UnmarkAll(ReplayOf(rows)) + [Unmark(m.(content := Safe(m.content)))]
  {
    var safe, last := SafeAll(rows), m.(content := Safe(m.content));
    assert SafeAll(rows + [m]) == safe + [last];
    SafeKeepsResults(m.content);
    WindowGrows(safe, last);
    StripOldGrows(Window(safe), last);
    hide Window, StripOld, Marked, Starts;
    UnmarkMarked(StripOld(Window(safe)));
    UnmarkMarked(StripOld(Window(safe)) + [last]);
  }

  lemma StartsSnoc(ms: seq<Message>, m: Message)
    requires !IsTurnStart(m)
    ensures Starts(ms + [m]) == Starts(ms)
  {
    assert (ms + [m])[..|ms + [m]| - 1] == ms;
  }

  lemma WindowGrows(ms: seq<Message>, m: Message)
    requires !IsTurnStart(m)
    ensures Window(ms + [m]) == Window(ms) + [m]
  {
    StartsSnoc(ms, m);
  }

  lemma StripOldGrows(ms: seq<Message>, m: Message)
    requires !IsTurnStart(m)
    ensures StripOld(ms + [m]) == StripOld(ms) + [m]
  {
    StartsSnoc(ms, m);
  }

  // ---- retiring attachments ----

  // `later` is `rows` with the attachments of some user messages before `n` retired.
  predicate RetiredBefore(rows: seq<Message>, later: seq<Message>, n: nat) {
    && |later| == |rows|
    && forall i :: 0 <= i < |rows| ==>
         later[i] == rows[i] || (i < n && rows[i].role == User && later[i] == Stripped(rows[i]))
  }

  lemma StrippingTwice(bs: seq<Block>)
    ensures WithoutAttachments(Safe(WithoutAttachments(bs))) == WithoutAttachments(Safe(bs))
  {
  }

  lemma RetiredKeepsStarts(rows: seq<Message>, later: seq<Message>, n: nat)
    requires RetiredBefore(rows, later, n)
    ensures Starts(SafeAll(later)) == Starts(SafeAll(rows))
  {
    SafeKeepsStarts(rows);
    SafeKeepsStarts(later);
    forall i | 0 <= i < |rows| ensures IsTurnStart(later[i]) <==> IsTurnStart(rows[i]) {
      StrippingKeepsResults(rows[i].content);
    }
    SameStarts(later, rows);
  }

  lemma RetiredRow(m: Message, later: Message)
    requires later == m || (m.role == User && later == Stripped(m))
    ensures Stripped(later.(content := Safe(later.content))) == Stripped(m.(content := Safe(m.content)))
  {
    StrippingTwice(m.content);
  }

  lemma StripOldSame(v: seq<Message>, w: seq<Message>)
    requires |v| == |w| && Starts(v) == Starts(w) != []
    requires forall i :: 0 <= i < |v| ==>
      if i < Starts(v)[|Starts(v)| - 1] then Stripped(v[i]) == Stripped(w[i]) else v[i] == w[i]
    ensures StripOld(v) == StripOld(w)
  {
    hide Stripped, Starts;
  }

  lemma WindowIsTail(ms: seq<Message>)
    ensures |Window(ms)| <= |ms| && Window(ms) == ms[|ms| - |Window(ms)|..]
  {
    hide Starts;
  }

  lemma WindowsAgree(rows: seq<Message>, later: seq<Message>, n: nat, i: nat)
    requires RetiredBefore(rows, later, n)
    requires |Window(SafeAll(rows))| == |Window(SafeAll(later))| && i < |Window(SafeAll(rows))|
    ensures var v, w, k := Window(SafeAll(rows)), Window(SafeAll(later)), |rows| - |Window(SafeAll(rows))|;
      if k + i < n then Stripped(v[i]) == Stripped(w[i]) else v[i] == w[i]
  {
    var a, b := SafeAll(rows), SafeAll(later);
    WindowIsTail(a);
    WindowIsTail(b);
    var k := |rows| - |Window(a)|;
    hide Window, Stripped;
    assert Window(a)[i] == a[k + i] && Window(b)[i] == b[k + i];
    RetiredRow(rows[k + i], later[k + i]);
  }

  /** The replay is the same whether or not attachments of the turns before the newest are retired. */
  lemma RetirementIsInvisible(rows: seq<Message>, later: seq<Message>)
    requires Starts(rows) != [] && RetiredBefore(rows, later, Starts(rows)[|Starts(rows)| - 1])
    ensures ReplayOf(later) == ReplayOf(rows)
  {
    hide Window, Starts, Stripped, StripOld, Marked;
    var n := Starts(rows)[|Starts(rows)| - 1];
    SafeKeepsStarts(rows);
    RetiredKeepsStarts(rows, later, n);
    StartsOfWindows(SafeAll(rows), SafeAll(later));
    NewestOfWindow(SafeAll(rows));
    var v, w := Window(SafeAll(rows)), Window(SafeAll(later));
    forall i | 0 <= i < |v|
      ensures if i < Starts(v)[|Starts(v)| - 1] then Stripped(v[i]) == Stripped(w[i]) else v[i] == w[i]
    {
      WindowsAgree(rows, later, n, i);
    }
    StripOldSame(v, w);
  }

  lemma NewestOfWindow(ms: seq<Message>)
    requires Starts(ms) != []
    ensures var s := Starts(Window(ms));
      s != [] && |ms| - |Window(ms)| + s[|s| - 1] == Starts(ms)[|Starts(ms)| - 1]
  {
    WindowMeaning(ms);
    var s, w := Starts(Window(ms)), |ms| - |Window(ms)|;
    assert |Shifted(s, w)| == |s| && Shifted(s, w)[|s| - 1] == s[|s| - 1] + w;
  }

  lemma StartsOfWindows(a: seq<Message>, b: seq<Message>)
    requires |a| == |b| && Starts(a) == Starts(b)
    ensures |Window(a)| == |Window(b)| && Starts(Window(a)) == Starts(Window(b))
  {
    WindowMeaning(a);
    WindowMeaning(b);
    var s, t, w := Starts(Window(a)), Starts(Window(b)), |a| - |Window(a)|;
    assert Shifted(s, w) == Shifted(t, w) && |s| == |Shifted(s, w)| && |t| == |Shifted(t, w)|;
    assert forall i :: 0 <= i < |s| ==> s[i] == Shifted(s, w)[i] - w && t[i] == Shifted(t, w)[i] - w;
  }

  /** In particular the next question sees no difference. */
  lemma NextQuestionSeesTheSame(rows: seq<Message>, later: seq<Message>, question: Message)
    requires RetiredBefore(rows, later, |rows|) && IsTurnStart(question)
    ensures ReplayOf(later + [question]) == ReplayOf(rows + [question])
  {
    var q := rows + [question];
    assert q[..|q| - 1] == rows;
    assert Starts(q) == Starts(rows) + [|rows|];
    RetirementIsInvisible(q, later + [question]);
  }

  // ---- what is sent with a question, stated without the replay ----

  /** The history that is sent with the next question: all of it, or its last nine turns. */
  ghost predicate RecentFrom(rows: seq<Message>, w: nat) {
    && w <= |rows|
    && (if |Starts(rows)| < 10 then w == 0
        else w < |rows| && IsTurnStart(rows[w]) && |Starts(rows[w..])| == 9)
  }

  // The line that stands for an attachment: its kind and its name.
  predicate StandsFor(text: string, k: Kind) {
    var name := if Truthy(if k.Picture? || k.Document? then k.title else None) then k.title.value else "attachment";
    || (k.Picture? && text == "[image \"" + name + "\" from an earlier turn -- re-upload to re-examine it]")
    || (k.Document? && text == "[document \"" + name + "\" from an earlier turn -- re-upload to re-examine it]")
  }

  predicate StandIn(b: Block, c: Block) {
    c.kind.Words? && StandsFor(c.kind.text, b.kind) && !c.cacheMark
  }

  /** An earlier message as it is sent: the user's attachments are replaced, the response-only field is
      gone, and everything else is as it is stored. */
  predicate SentFrom(m: Message, n: Message) {
    && n.role == m.role && |n.content| == |m.content|
    && forall j :: 0 <= j < |m.content| ==>
         var b, c := m.content[j], n.content[j];
         && !c.parsedOutput
         && (if m.role == User && (b.kind.Picture? || b.kind.Document?) then StandIn(b, c)
             else c.kind == b.kind && c.cacheMark == b.cacheMark)
  }

  /** The question as it is sent: whole, attachments included, with the cache breakpoint on its last block. */
  predicate AsAsked(q: Message, x: Message) {
    && x.role == q.role && |x.content| == |q.content|
    && forall j :: 0 <= j < |q.content| ==>
         var b, c := q.content[j], x.content[j];
         c.kind == b.kind && !c.parsedOutput && c.cacheMark == (b.cacheMark || j == |q.content| - 1)
  }

  function SafeOne(m: Message): Message {
    m.(content := Safe(m.content))
  }

  lemma WindowOfQuestion(rows: seq<Message>, q: Message) returns (w: nat)
    requires IsTurnStart(q)
    ensures RecentFrom(rows, w) && Window(SafeAll(rows + [q])) == SafeAll(rows[w..]) + [SafeOne(q)]
  {
    hide IsTurnStart, Starts, RecentFrom, SafeAll, Safe;
    w := RecentStart(rows);
    SafeKeepsStarts(rows + [q]);
    StartsOfAsked(rows, q);
    AskedStart(Starts(rows), |rows|);
    SafeTail(rows, q, w);
  }

  lemma RecentStart(rows: seq<Message>) returns (w: nat)
    ensures RecentFrom(rows, w) && w <= |rows|
    ensures w == if |Starts(rows)| < MAX_REPLAY_TURNS then 0 else Starts(rows)[|Starts(rows)| - (MAX_REPLAY_TURNS - 1)]
  {
    w := 0;
    if |Starts(rows)| >= MAX_REPLAY_TURNS {
      var k := |Starts(rows)| - (MAX_REPLAY_TURNS - 1);
      w := Starts(rows)[k];
      StartAt(rows, k);
      StartsLeft(rows, k);
    }
  }

  lemma AskedStart(s: seq<nat>, n: nat)
    ensures |s| >= MAX_REPLAY_TURNS ==>
      (s + [n])[|s + [n]| - MAX_REPLAY_TURNS] == s[|s| - (MAX_REPLAY_TURNS - 1)]
  {
  }

  lemma StartsOfAsked(rows: seq<Message>, q: Message)
    requires IsTurnStart(q)
    ensures Starts(rows + [q]) == Starts(rows) + [|rows|]
  {
    assert (rows + [q])[..|rows|] == rows;
  }

  lemma StartsLeft(ms: seq<Message>, k: nat)
    requires k < |Starts(ms)|
    ensures |Starts(ms[Starts(ms)[k]..])| == |Starts(ms)| - k
  {
    StartsFrom(ms, k);
    assert |Shifted(Starts(ms[Starts(ms)[k]..]), Starts(ms)[k])| == |Starts(ms)[k..]|;
  }

  lemma SafeTail(rows: seq<Message>, q: Message, w: nat)
    requires w <= |rows|
    ensures SafeAll(rows + [q])[w..] == SafeAll(rows[w..]) + [SafeOne(q)]
    ensures SafeAll(rows + [q])[0..] == SafeAll(rows + [q])
  {
  }

  lemma StripBeforeQuestion(ms: seq<Message>, q: Message)
    requires IsTurnStart(q)
    ensures |StripOld(ms + [q])| == |ms| + 1 && StripOld(ms + [q])[|ms|] == q
    ensures forall i :: 0 <= i < |ms| ==> StripOld(ms + [q])[i] == Stripped(ms[i])
  {
    StartsOfAsked(ms, q);
    hide Stripped, Starts;
  }

  lemma BlockIsSafe(b: Block)
    ensures IsAttachment(b) ==> StandIn(b, Placeholder(b)) && !Placeholder(b).parsedOutput
    ensures IsAttachment(b) ==> Placeholder(b.(parsedOutput := false)) == Placeholder(b)
  {
  }

  lemma SentIsSafe(m: Message)
    ensures SentFrom(m, Stripped(SafeOne(m)))
  {
    forall j | 0 <= j < |m.content|
      ensures var b, c := m.content[j], Stripped(SafeOne(m)).content[j];
        && !c.parsedOutput
        && (if m.role == User && (b.kind.Picture? || b.kind.Document?) then StandIn(b, c)
            else c.kind == b.kind && c.cacheMark == b.cacheMark)
    {
      BlockIsSafe(m.content[j]);
      hide Placeholder, StandIn;
    }
  }

  lemma MarkedIsAsAsked(ms: seq<Message>, q: Message)
    ensures |Marked(ms + [SafeOne(q)])| == |ms| + 1
    ensures forall i :: 0 <= i < |ms| ==> Marked(ms + [SafeOne(q)])[i] == ms[i]
    ensures AsAsked(q, Marked(ms + [SafeOne(q)])[|ms|])
  {
  }

  /** What is sent with a question: the recent history with stand-ins for its attachments, then the
      question with its own attachments. */
  lemma QuestionIsSentWhole(rows: seq<Message>, q: Message) returns (w: nat)
    requires IsTurnStart(q)
    ensures RecentFrom(rows, w) && |ReplayOf(rows + [q])| == |rows| - w + 1
    ensures forall i :: 0 <= i < |rows| - w ==> SentFrom(rows[w + i], ReplayOf(rows + [q])[i])
    ensures AsAsked(q, ReplayOf(rows + [q])[|rows| - w])
  {
    hide Starts, Window, StripOld, Marked, AsAsked, SentFrom, Stripped, Safe, IsTurnStart;
    w := WindowOfQuestion(rows, q);
    var recent, safe := rows[w..], SafeAll(rows[w..]);
    SafeStartsToo(q);
    StripBeforeQuestion(safe, SafeOne(q));
    var stripped := StripOld(safe + [SafeOne(q)]);
    assert stripped == stripped[..|recent|] + [SafeOne(q)];
    MarkedIsAsAsked(stripped[..|recent|], q);
    forall i | 0 <= i < |rows| - w ensures SentFrom(rows[w + i], ReplayOf(rows + [q])[i]) {
      assert ReplayOf(rows + [q])[i] == Stripped(SafeOne(rows[w + i]));
      SentIsSafe(rows[w + i]);
    }
  }

  lemma SafeStartsToo(m: Message)
    ensures IsTurnStart(SafeOne(m)) <==> IsTurnStart(m)
  {
    SafeKeepsResults(m.content);
  }

  // ---- the transcripts of all assets ----

  // One question and what it led to.
  datatype Turn = Turn(assetId: Id, messages: seq<Message>)

  function Stored(turns: seq<Turn>): seq<ChatMessage> {
    if turns == [] then []
    else Stored(turns[..|turns| - 1]) + RowsFor(turns[|turns| - 1].assetId, turns[|turns| - 1].messages)
  }

  /** The chat table is a row of whole turns, one after the other. */
  ghost predicate WholeTurns(chat: seq<ChatMessage>) {
    exists turns :: AllPaired(turns) && chat == Stored(turns)
  }

  ghost predicate AllPaired(turns: seq<Turn>) {
    forall i :: 0 <= i < |turns| ==> Paired(turns[i].messages)
  }

  lemma TurnAdded(chat: seq<ChatMessage>, a: Id, ms: seq<Message>)
    requires WholeTurns(chat) && Paired(ms)
    ensures WholeTurns(chat + RowsFor(a, ms))
  {
    var turns :| AllPaired(turns) && chat == Stored(turns);
    var more := turns + [Turn(a, ms)];
    assert more[..|more| - 1] == turns;
    hide Paired, RowsFor;
    assert AllPaired(more) && chat + RowsFor(a, ms) == Stored(more);
  }

  lemma {:induction false} TranscriptConcat(a: seq<ChatMessage>, b: seq<ChatMessage>, id: Id)
    ensures Transcript(a + b, id) == Transcript(a, id) + Transcript(b, id)
  {
    if b == [] {
      assert a + b == a;
    } else {
      assert (a + b)[..|a + b| - 1] == a + b[..|b| - 1];
      TranscriptConcat(a, b[..|b| - 1], id);
    }
  }

  lemma {:induction false} TranscriptOfRows(a: Id, ms: seq<Message>, id: Id)
    ensures Transcript(RowsFor(a, ms), id) == if a == id then ms else []
  {
    if ms != [] {
      assert RowsFor(a, ms)[..|ms| - 1] == RowsFor(a, ms[..|ms| - 1]);
      TranscriptOfRows(a, ms[..|ms| - 1], id);
    }
  }

  /** Every asset's transcript is paired. */
  lemma TranscriptsArePaired(chat: seq<ChatMessage>, a: Id)
    requires WholeTurns(chat)
    ensures Paired(Transcript(chat, a))
  {
    var turns :| AllPaired(turns) && chat == Stored(turns);
    TurnsArePaired(turns, a);
  }

  lemma {:induction false} TurnsArePaired(turns: seq<Turn>, a: Id)
    requires AllPaired(turns)
    ensures Paired(Transcript(Stored(turns), a))
  {
    if turns != [] {
      var front, last := turns[..|turns| - 1], turns[|turns| - 1];
      TurnsArePaired(front, a);
      TranscriptConcat(Stored(front), RowsFor(last.assetId, last.messages), a);
      TranscriptOfRows(last.assetId, last.messages, a);
      var before := Transcript(Stored(front), a);
      if last.assetId == a {
        PairedConcat(before, last.messages);
      } else {
        assert before + [] == before;
      }
    }
  }

  // ---- deleting and merging assets ----

  function TurnsBut(turns: seq<Turn>, a: Id): seq<Turn> {
    Filter(turns, (t: Turn) => t.assetId != a)
  }

  lemma {:induction false} FilterRows(a: Id, b: Id, ms: seq<Message>)
    ensures Filter(RowsFor(b, ms), Not(MessageOf(a))) == if b == a then [] else RowsFor(b, ms)
  {
    if ms != [] {
      assert RowsFor(b, ms)[..|ms| - 1] == RowsFor(b, ms[..|ms| - 1]);
      FilterRows(a, b, ms[..|ms| - 1]);
    }
  }

  lemma {:induction false} DeletedTurns(turns: seq<Turn>, a: Id)
    requires AllPaired(turns)
    ensures Filter(Stored(turns), Not(MessageOf(a))) == Stored(TurnsBut(turns, a))
    ensures AllPaired(TurnsBut(turns, a))
  {
    if turns != [] {
      var front, last := turns[..|turns| - 1], turns[|turns| - 1];
      DeletedTurns(front, a);
      FilterConcat(Stored(front), RowsFor(last.assetId, last.messages), Not(MessageOf(a)));
      FilterRows(a, last.assetId, last.messages);
      if last.assetId != a {
        assert TurnsBut(turns, a)[..|TurnsBut(turns, a)| - 1] == TurnsBut(front, a);
      } else {
        assert TurnsBut(turns, a) == TurnsBut(front, a);
        assert Stored(TurnsBut(front, a)) + [] == Stored(TurnsBut(front, a));
      }
    }
  }

  /** Clearing the chat of an asset leaves the others whole. */
  lemma ClearKeepsTurns(chat: seq<ChatMessage>, a: Id)
    requires WholeTurns(chat)
    ensures WholeTurns(Filter(chat, Not(MessageOf(a))))
  {
    var turns :| AllPaired(turns) && chat == Stored(turns);
    DeletedTurns(turns, a);
  }

  lemma DeleteKeepsTurns(db: Db, db': Db, a: Id)
    requires WholeTurns(db.chat) && Deleted(db, db', a)
    ensures WholeTurns(db'.chat)
  {
    ClearKeepsTurns(db.chat, a);
  }

  function Rehoused(turns: seq<Turn>, s: Id, d: Id): (r: seq<Turn>)
    ensures |r| == |turns|
  {
    seq(|turns|, i requires 0 <= i < |turns| => if turns[i].assetId == d then turns[i].(assetId := s) else turns[i])
  }

  lemma {:induction false} MergedTurns(turns: seq<Turn>, s: Id, d: Id)
    ensures ChangedLog(Stored(turns), MessageOf(d), MessageTo(s)) == Stored(Rehoused(turns, s, d))
  {
    if turns != [] {
      var front := turns[..|turns| - 1];
      MergedTurns(front, s, d);
      assert Rehoused(turns, s, d)[..|turns| - 1] == Rehoused(front, s, d);
    }
  }

  /** After a merge the survivor's transcript holds the turns of both assets, each of them whole. */
  lemma MergeKeepsTurns(db: Db, db': Db, s: Id, d: Id)
    requires WholeTurns(db.chat) && Merged(db, db', s, d)
    ensures WholeTurns(db'.chat)
  {
    var turns :| AllPaired(turns) && db.chat == Stored(turns);
    MergedTurns(turns, s, d);
    assert AllPaired(Rehoused(turns, s, d));
  }
}
