/** The envelope around device-supplied text (app/assistant.py, `_wrap_untrusted`). */
module UntrustedText {
  const OPEN: string := "<untrusted_device_data>"
  const CLOSE: string := "</untrusted_device_data>"

  predicate Occurs(s: string, tag: string, i: nat) {
    i + |tag| <= |s| && s[i..i + |tag|] == tag
  }

  predicate Contains(s: string, tag: string) {
    exists i :: 0 <= i <= |s| && Occurs(s, tag, i)
  }

  /** `s.replace(tag, "")`: occurrences are removed from left to right, without overlap. */
  function RemoveAll(s: string, tag: string): (r: string)
    requires tag != ""
    ensures |r| <= |s|
    decreases |s|
  {
    if |s| < |tag| then s
    else if s[..|tag|] == tag then RemoveAll(s[|tag|..], tag)
    else [s[0]] + RemoveAll(s[1..], tag)
  }

  predicate Subsequence(a: string, s: string)
    decreases |s|
  {
    a == "" || (s != "" && ((a[0] == s[0] && Subsequence(a[1..], s[1..])) || Subsequence(a, s[1..])))
  }

  lemma {:induction false} SubsequenceItself(s: string)
    ensures Subsequence(s, s)
  {
    if s != "" {
      SubsequenceItself(s[1..]);
    }
  }

  lemma {:induction false} SubsequenceOfTail(a: string, s: string, n: nat)
    requires n <= |s| && Subsequence(a, s[n..])
    ensures Subsequence(a, s)
  {
    if n > 0 {
      assert s[1..][n - 1..] == s[n..];
      SubsequenceOfTail(a, s[1..], n - 1);
    }
  }

  lemma {:induction false} SubsequenceTransitive(a: string, b: string, c: string)
    requires Subsequence(a, b) && Subsequence(b, c)
    ensures Subsequence(a, c)
    decreases |c|
  {
    if a != "" && b != "" {
      if b[0] == c[0] && Subsequence(b[1..], c[1..]) {
        if a[0] == b[0] && Subsequence(a[1..], b[1..]) {
          SubsequenceTransitive(a[1..], b[1..], c[1..]);
        } else {
          SubsequenceTransitive(a, b[1..], c[1..]);
        }
      } else {
        SubsequenceTransitive(a, b, c[1..]);
      }
    }
  }

  lemma {:induction false} RemovedIsSubsequence(s: string, tag: string)
    requires tag != ""
    ensures Subsequence(RemoveAll(s, tag), s)
    decreases |s|
  {
    if |s| < |tag| {
      SubsequenceItself(s);
    } else if s[..|tag|] == tag {
      RemovedIsSubsequence(s[|tag|..], tag);
      SubsequenceOfTail(RemoveAll(s, tag), s, |tag|);
    } else {
      RemovedIsSubsequence(s[1..], tag);
      assert RemoveAll(s, tag)[1..] == RemoveAll(s[1..], tag);
    }
  }

  lemma OccursInTail(s: string, tag: string, i: nat)
    requires s != "" && i < |s|
    ensures Occurs(s[1..], tag, i) <==> Occurs(s, tag, i + 1)
  {
    if i + 1 + |tag| <= |s| {
      assert s[1..][i..i + |tag|] == s[i + 1..i + 1 + |tag|];
    }
  }

  // Whether the tag occurs at the start or later.
  lemma ContainsUnfolds(s: string, tag: string)
    requires tag != "" && |s| >= |tag|
    ensures Contains(s, tag) <==> s[..|tag|] == tag || Contains(s[1..], tag)
  {
    hide Occurs;
    if Contains(s, tag) {
      var i :| 0 <= i <= |s| && Occurs(s, tag, i);
      OccursStart(s, tag, i);
      if i > 0 {
        OccursInTail(s, tag, i - 1);
        assert Occurs(s[1..], tag, i - 1);
      }
    }
    if s[..|tag|] == tag {
      OccursStart(s, tag, 0);
      assert Occurs(s, tag, 0);
    }
    if Contains(s[1..], tag) {
      var i :| 0 <= i <= |s[1..]| && Occurs(s[1..], tag, i);
      OccursStart(s[1..], tag, i);
      OccursInTail(s, tag, i);
      assert Occurs(s, tag, i + 1);
    }
  }

  lemma OccursStart(s: string, tag: string, i: nat)
    requires tag != ""
    ensures Occurs(s, tag, i) ==> i < |s| && (i == 0 ==> s[..|tag|] == tag)
    ensures |s| >= |tag| && s[..|tag|] == tag ==> Occurs(s, tag, 0)
  {
  }

  /** A pass changes the text exactly when the tag occurs in it, and then shortens it. */
  lemma {:induction false} RemoveAllChanges(s: string, tag: string)
    requires tag != ""
    ensures if Contains(s, tag) then |RemoveAll(s, tag)| < |s| else RemoveAll(s, tag) == s
    decreases |s|
  {
    if |s| >= |tag| {
      ContainsUnfolds(s, tag);
      hide Contains;
      if s[..|tag|] != tag {
        RemoveAllChanges(s[1..], tag);
        assert [s[0]] + s[1..] == s;
      }
    }
  }

  ghost predicate FirstAt(s: string, tag: string, i: nat) {
    i + |tag| <= |s| && Occurs(s, tag, i) && forall j: nat :: j < i ==> !Occurs(s, tag, j)
  }

  lemma FirstAtTail(s: string, tag: string, i: nat)
    requires tag != "" && FirstAt(s, tag, i) && i > 0
    ensures FirstAt(s[1..], tag, i - 1) && s[..|tag|] != tag
  {
    assert !Occurs(s, tag, 0);
    OccursStart(s, tag, 0);
    OccursInTail(s, tag, i - 1);
    hide Occurs;
    forall j: nat | j < i - 1 ensures !Occurs(s[1..], tag, j) {
      OccursInTail(s, tag, j);
    }
  }

  /** The leftmost occurrence goes, what is before it stays, and what is after it is treated alike. */
  lemma {:induction false} LeftmostIsRemoved(s: string, tag: string, i: nat)
    requires tag != "" && i + |tag| <= |s| && FirstAt(s, tag, i)
    ensures RemoveAll(s, tag) == s[..i] + RemoveAll(s[i + |tag|..], tag)
    decreases i
  {
    hide *;
    if i == 0 {
      RemovedAtStart(s, tag);
    } else {
      FirstAtTail(s, tag, i);
      LeftmostIsRemoved(s[1..], tag, i - 1);
      FirstCharacterStays(s, tag);
      TailOfTail(s, i, |tag|);
      Prepended(s[0], s[1..][..i - 1], RemoveAll(s[i + |tag|..], tag));
    }
  }

  lemma RemovedAtStart(s: string, tag: string)
    requires tag != "" && |tag| <= |s| && FirstAt(s, tag, 0)
    ensures RemoveAll(s, tag) == s[..0] + RemoveAll(s[|tag|..], tag)
  {
    assert s[0..|tag|] == s[..|tag|];
  }

  lemma Prepended(c: char, a: string, b: string)
    ensures [c] + (a + b) == [c] + a + b
  {
  }

  lemma FirstCharacterStays(s: string, tag: string)
    requires tag != "" && |s| >= |tag| && s[..|tag|] != tag
    ensures RemoveAll(s, tag) == [s[0]] + RemoveAll(s[1..], tag)
  {
  }

  lemma TailOfTail(s: string, i: nat, n: nat)
    requires 0 < i && i + n <= |s|
    ensures s[1..][i - 1 + n..] == s[i + n..] && [s[0]] + s[1..][..i - 1] == s[..i]
  {
  }

  // One turn of the loop.
  function Pass(s: string): (r: string)
    ensures |r| <= |s|
  {
    RemoveAll(RemoveAll(s, OPEN), CLOSE)
  }

  lemma PassChanges(s: string)
    ensures Pass(s) == s <==> !Contains(s, OPEN) && !Contains(s, CLOSE)
    ensures Pass(s) != s ==> |Pass(s)| < |s|
    ensures Subsequence(Pass(s), s)
  {
    RemoveAllChanges(s, OPEN);
    RemoveAllChanges(RemoveAll(s, OPEN), CLOSE);
    RemovedIsSubsequence(s, OPEN);
    RemovedIsSubsequence(RemoveAll(s, OPEN), CLOSE);
    SubsequenceTransitive(Pass(s), RemoveAll(s, OPEN), s);
  }

  /** The text with both tags removed until neither is left. */
  function Sanitized(s: string): (r: string)
    ensures |r| <= |s|
    decreases |s|
  {
    PassChanges(s);
    if Pass(s) == s then s else Sanitized(Pass(s))
  }

  lemma {:induction false} SanitizedMeaning(s: string)
    ensures !Contains(Sanitized(s), OPEN) && !Contains(Sanitized(s), CLOSE)
    ensures Subsequence(Sanitized(s), s)
    ensures !Contains(s, OPEN) && !Contains(s, CLOSE) ==> Sanitized(s) == s
    decreases |s|
  {
    PassChanges(s);
    if Pass(s) == s {
      SubsequenceItself(s);
    } else {
      SanitizedMeaning(Pass(s));
      SubsequenceTransitive(Sanitized(s), Pass(s), s);
    }
  }

  function Envelope(inner: string): string {
    OPEN + "\n" + inner + "\n" + CLOSE
  }

  function Wrapped(text: string): string {
    Envelope(Sanitized(text))
  }

  /** `_wrap_untrusted` */
  method WrapUntrusted(text: string) returns (r: string)
    ensures r == Wrapped(text)
  {
    var sanitized := text;
    while true
      invariant Sanitized(sanitized) == Sanitized(text)
      decreases |sanitized|
    {
      PassChanges(sanitized);
      var stripped := RemoveAll(RemoveAll(sanitized, OPEN), CLOSE);
      if stripped == sanitized {
        break;
      }
      sanitized := stripped;
    }
    r := Envelope(sanitized);
  }

  lemma TagCharacters()
    ensures |OPEN| == 23 && |CLOSE| == 24
    ensures OPEN[0] == '<' && forall k :: 0 < k < |OPEN| ==> OPEN[k] != '<' && OPEN[k] != '\n'
    ensures CLOSE[0] == '<' && forall k :: 0 < k < |CLOSE| ==> CLOSE[k] != '<' && CLOSE[k] != '\n'
    ensures OPEN[1] != CLOSE[1]
  {
  }

  lemma EnvelopeAt(inner: string, k: nat)
    requires k < |Envelope(inner)|
    ensures var p := |OPEN| + 1 + |inner|;
      Envelope(inner)[k] == if k < |OPEN| then OPEN[k] else if k == |OPEN| || k == p then '\n'
                            else if k < p then inner[k - |OPEN| - 1] else CLOSE[k - p - 1]
  {
    hide OPEN, CLOSE;
  }

  lemma TagAt(s: string, tag: string, i: nat, k: nat)
    requires Occurs(s, tag, i) && k < |tag|
    ensures s[i + k] == tag[k]
  {
    assert s[i..i + |tag|][k] == s[i + k];
  }

  lemma OccursInside(inner: string, tag: string, i: nat)
    requires Occurs(Envelope(inner), tag, i) && |OPEN| < i && i + |tag| <= |OPEN| + 1 + |inner|
    ensures Contains(inner, tag)
  {
    hide OPEN, CLOSE;
    var j := i - |OPEN| - 1;
    forall k | 0 <= k < |tag| ensures inner[j + k] == tag[k] {
      TagAt(Envelope(inner), tag, i, k);
      EnvelopeAt(inner, i + k);
    }
    assert inner[j..j + |tag|] == tag;
    assert Occurs(inner, tag, j);
  }

  /** A tag that starts with its only '<' and has no line break occurs in the envelope only where the
      envelope itself has it. */
  lemma OccursOnce(inner: string, tag: string, i: nat)
    requires tag == OPEN || tag == CLOSE
    requires !Contains(inner, tag)
    requires Occurs(Envelope(inner), tag, i)
    ensures i == if tag == OPEN then 0 else |OPEN| + |inner| + 2
  {
    TagCharacters();
    hide OPEN, CLOSE, Occurs, Contains, Envelope;
    var p := |OPEN| + 1 + |inner|;
    InBounds(inner, tag, i);
    TagAt(Envelope(inner), tag, i, 0);
    TagAt(Envelope(inner), tag, i, 1);
    EnvelopeAt(inner, i);
    EnvelopeAt(inner, i + 1);
    if |OPEN| < i && i + |tag| <= p {
      OccursInside(inner, tag, i);
    } else if |OPEN| < i <= p {
      TagAt(Envelope(inner), tag, i, p - i);
      EnvelopeAt(inner, p);
    }
  }

  lemma InBounds(inner: string, tag: string, i: nat)
    requires Occurs(Envelope(inner), tag, i)
    ensures i + |tag| <= |Envelope(inner)| == |OPEN| + |inner| + 2 + |CLOSE|
  {
  }

  /** Whatever the text, each tag occurs in the envelope exactly once, at its two ends. */
  lemma EnvelopeHolds(text: string, i: nat)
    ensures Occurs(Wrapped(text), OPEN, i) <==> i == 0
    ensures Occurs(Wrapped(text), CLOSE, i) <==> i == |Wrapped(text)| - |CLOSE|
  {
    SanitizedMeaning(text);
    var inner := Sanitized(text);
    if Occurs(Wrapped(text), OPEN, i) {
      OccursOnce(inner, OPEN, i);
    }
    if Occurs(Wrapped(text), CLOSE, i) {
      OccursOnce(inner, CLOSE, i);
    }
  }

  /** What the envelope of a text is, without the loop: the two tags around a part of the text that holds
      neither, and that is the whole text when the text holds neither. */
  ghost predicate IsEnvelope(text: string, output: string) {
    exists inner ::
      && output == "<untrusted_device_data>\n" + inner + "\n</untrusted_device_data>"
      && Subsequence(inner, text) && !Contains(inner, OPEN) && !Contains(inner, CLOSE)
      && (!Contains(text, OPEN) && !Contains(text, CLOSE) ==> inner == text)
  }

  lemma WrappedIsEnvelope(text: string)
    ensures IsEnvelope(text, Wrapped(text))
  {
    hide Contains, Subsequence, Sanitized;
    SanitizedMeaning(text);
    var inner := Sanitized(text);
    assert Wrapped(text) == "<untrusted_device_data>\n" + inner + "\n</untrusted_device_data>";
  }
}
