/** The Cozy Space page: a message box whose submit is guarded by JavaScript's
    `trim`, the newest-first message list, the "special note" shown after a
    gentle share, and the grouping of messages by type for display. The id and
    time a new message gets (`Date.now()`, `new Date()`) are parameters. */
module CozySpace {

  // ---------------------------------------------------------------------------
  // String.prototype.trim
  // ---------------------------------------------------------------------------

  /** The characters `trim` removes: ECMAScript WhiteSpace and LineTerminator. */
  predicate IsJsSpace(c: char)
  {
    || c == '\t' || c == '\n' || c == '\U{B}' || c == '\U{C}' || c == '\r' || c == ' '
    || c == '\U{A0}' || c == '\U{1680}' || ('\U{2000}' <= c <= '\U{200A}')
    || c == '\U{2028}' || c == '\U{2029}' || c == '\U{202F}' || c == '\U{205F}'
    || c == '\U{3000}' || c == '\U{FEFF}'
  }

  predicate AllSpace(s: string)
  {
    forall i :: 0 <= i < |s| ==> IsJsSpace(s[i])
  }

  /** Where `trim` starts: the first index from i on that is not white space,
      or |s| when there is none. */
  function TrimFrom(s: string, i: nat): (r: nat)
    requires i <= |s|
    ensures i <= r <= |s|
    ensures forall k :: i <= k < r ==> IsJsSpace(s[k])
    ensures r < |s| ==> !IsJsSpace(s[r])
    decreases |s| - i
  {
    if i < |s| && IsJsSpace(s[i]) then TrimFrom(s, i + 1) else i
  }

  /** Where `trim` stops: walking down from j but not below a, the first end
      whose last character is not white space, or a when there is none. */
  function TrimTo(s: string, a: nat, j: nat): (r: nat)
    requires a <= j <= |s|
    ensures a <= r <= j
    ensures forall k :: r <= k < j ==> IsJsSpace(s[k])
    ensures r > a ==> !IsJsSpace(s[r - 1])
    decreases j - a
  {
    if j > a && IsJsSpace(s[j - 1]) then TrimTo(s, a, j - 1) else j
  }

  function Trim(s: string): string
  {
    var a := TrimFrom(s, 0);
    s[a..TrimTo(s, a, |s|)]
  }

  /** `trim` leaves a middle part of s that neither starts nor ends with white
      space, and removes only white space around it. */
  lemma TrimShape(s: string)
    ensures var t := Trim(s);
      exists a, b :: 0 <= a <= b <= |s| && t == s[a..b] && AllSpace(s[..a]) && AllSpace(s[b..])
    ensures Trim(s) == [] || (!IsJsSpace(Trim(s)[0]) && !IsJsSpace(Trim(s)[|Trim(s)| - 1]))
  {
    var a := TrimFrom(s, 0);
    var b := TrimTo(s, a, |s|);
    assert AllSpace(s[..a]) && AllSpace(s[b..]);
  }

  /** A string trims to nothing exactly when it is all white space. */
  lemma TrimEmptyIffBlank(s: string)
    ensures Trim(s) == [] <==> AllSpace(s)
  {
    var a := TrimFrom(s, 0);
    var b := TrimTo(s, a, |s|);
    if AllSpace(s) {
      assert a == |s|;
    }
  }

  lemma TrimIdempotent(s: string)
    ensures Trim(Trim(s)) == Trim(s)
  {
    var t := Trim(s);
    TrimShape(s);
    if t != [] {
      assert TrimFrom(t, 0) == 0;
      assert TrimTo(t, 0, |t|) == |t|;
      assert t[0..|t|] == t;
    }
  }

  // ---------------------------------------------------------------------------
  // The page state and its events
  // ---------------------------------------------------------------------------

  datatype Message = Message(id: string, content: string, kind: string, timestamp: int)

  datatype Cozy = Cozy(message: string, selectedPrompt: string, messages: seq<Message>, showSpecialNote: bool)

  const Apologetic: string := "apologetic"

  /** The page as it mounts, before any saved messages are loaded. */
  const Initial: Cozy := Cozy("", "remind", [], false)

  /** The submit button's `disabled` prop. */
  predicate SubmitDisabled(s: Cozy)
  {
    Trim(s.message) == []
  }

  /** handleSubmit. */
  function HandleSubmit(s: Cozy, id: string, now: int): Cozy
  {
    if Trim(s.message) == [] then s
    else
      s.(messages := [Message(id, Trim(s.message), s.selectedPrompt, now)] + s.messages,
         message := "",
         showSpecialNote := if s.selectedPrompt == Apologetic then true else s.showSpecialNote)
  }

  /** A blank message changes nothing; any other is stored trimmed and first,
      ahead of the unchanged earlier list, and the input is cleared. */
  lemma SubmitEffect(s: Cozy, id: string, now: int)
    ensures AllSpace(s.message) ==> HandleSubmit(s, id, now) == s
    ensures !AllSpace(s.message) ==>
      var r := HandleSubmit(s, id, now);
      && |r.messages| == |s.messages| + 1
      && r.messages[0] == Message(id, Trim(s.message), s.selectedPrompt, now)
      && r.messages[1..] == s.messages
      && r.message == ""
      && r.selectedPrompt == s.selectedPrompt
      && r.showSpecialNote == (s.selectedPrompt == Apologetic || s.showSpecialNote)
      && Trim(r.messages[0].content) == r.messages[0].content != []
  {
    TrimEmptyIffBlank(s.message);
    TrimIdempotent(s.message);
  }

  /** The button is disabled exactly when a submit would do nothing. */
  lemma SubmitDisabledIffNoOp(s: Cozy, id: string, now: int)
    ensures SubmitDisabled(s) <==> HandleSubmit(s, id, now) == s
  {
    if !SubmitDisabled(s) {
      assert |HandleSubmit(s, id, now).messages| == |s.messages| + 1;
    }
  }

  datatype Event = Type(text: string) | Choose(prompt: string) | Submit(id: string, now: int) | NoteTimeout

  /** One user event, or the 4-second timer that hides the note. */
  function Step(s: Cozy, e: Event): Cozy
  {
    match e
    case Type(text) => s.(message := text)
    case Choose(prompt) => s.(selectedPrompt := prompt)
    case Submit(id, now) => HandleSubmit(s, id, now)
    case NoteTimeout => s.(showSpecialNote := false)
  }

  function Run(s: Cozy, es: seq<Event>): Cozy
    decreases |es|
  {
    if es == [] then s else Step(Run(s, es[..|es| - 1]), es[|es| - 1])
  }

  /** A submit that is accepted while the 'apologetic' prompt is selected. */
  predicate ApologeticSubmit(s: Cozy, e: Event)
  {
    e.Submit? && !SubmitDisabled(s) && s.selectedPrompt == Apologetic
  }

  /** One event can turn the note on only by being such a submit. */
  lemma StepNote(s: Cozy, e: Event)
    ensures Step(s, e).showSpecialNote ==> s.showSpecialNote || ApologeticSubmit(s, e)
  {
  }

  /** Such a submit always shows the note, and only the 4-second timer hides
      it again. */
  lemma StepNoteShown(s: Cozy, e: Event)
    ensures ApologeticSubmit(s, e) ==> Step(s, e).showSpecialNote
    ensures s.showSpecialNote && !e.NoteTimeout? ==> Step(s, e).showSpecialNote
    ensures e.NoteTimeout? ==> !Step(s, e).showSpecialNote
  {
  }

  /** Whenever the special note is showing, some earlier event was an accepted
      submit with the 'apologetic' prompt. */
  lemma {:induction false} NoteOnlyAfterApology(es: seq<Event>)
    requires Run(Initial, es).showSpecialNote
    ensures exists i :: 0 <= i < |es| && ApologeticSubmit(Run(Initial, es[..i]), es[i])
    decreases |es|
  {
    assert es != [];
    var n := |es| - 1;
    var before := Run(Initial, es[..n]);
    assert Run(Initial, es) == Step(before, es[n]);
    StepNote(before, es[n]);
    if ApologeticSubmit(before, es[n]) {
      assert 0 <= n < |es| && ApologeticSubmit(Run(Initial, es[..n]), es[n]);
    } else {
      NoteOnlyAfterApology(es[..n]);
      var i :| 0 <= i < n && ApologeticSubmit(Run(Initial, es[..n][..i]), es[..n][i]);
      assert es[..n][..i] == es[..i] && es[..n][i] == es[i];
      assert 0 <= i < |es| && ApologeticSubmit(Run(Initial, es[..i]), es[i]);
    }
  }

  // ---------------------------------------------------------------------------
  // groupedMessages
  // ---------------------------------------------------------------------------

  /** The messages of one type, in list order. */
  function OfKind(ms: seq<Message>, k: string): seq<Message>
    decreases |ms|
  {
    if ms == [] then []
    else OfKind(ms[..|ms| - 1], k) + (if ms[|ms| - 1].kind == k then [ms[|ms| - 1]] else [])
  }

  /** The types present, in order of first appearance: the key order of the
      accumulator object. */
  function Kinds(ms: seq<Message>): (r: seq<string>)
    ensures forall k :: k in r <==> exists i :: 0 <= i < |ms| && ms[i].kind == k
    ensures forall i, j :: 0 <= i < j < |r| ==> r[i] != r[j]
    decreases |ms|
  {
    if ms == [] then []
    else
      var ks := Kinds(ms[..|ms| - 1]);
      assert forall i :: 0 <= i < |ms| - 1 ==> ms[..|ms| - 1][i] == ms[i];
      if ms[|ms| - 1].kind in ks then ks else ks + [ms[|ms| - 1].kind]
  }

  /** order and groups are the accumulator after the messages ms. */
  ghost predicate Grouped(ms: seq<Message>, order: seq<string>, groups: map<string, seq<Message>>)
  {
    && order == Kinds(ms)
    && (forall k :: k in groups <==> k in order)
    && (forall k :: k in groups ==> groups[k] == OfKind(ms, k))
  }

  /** The index of the first message of type k, or |ms| when there is none. */
  function FirstIndex(ms: seq<Message>, k: string): (r: nat)
    ensures r <= |ms|
    ensures r < |ms| ==> ms[r].kind == k
    ensures forall i :: 0 <= i < r ==> ms[i].kind != k
    decreases |ms|
  {
    if ms == [] then 0 else if ms[0].kind == k then 0 else 1 + FirstIndex(ms[1..], k)
  }

  /** One more message leaves every first index below |ms| as it was and gives
      a type that is new the index |ms|. */
  lemma FirstIndexSnoc(ms: seq<Message>, m: Message, k: string)
    ensures FirstIndex(ms, k) < |ms| ==> FirstIndex(ms + [m], k) == FirstIndex(ms, k)
    ensures FirstIndex(ms, k) == |ms| && m.kind == k ==> FirstIndex(ms + [m], k) == |ms|
  {
    var a, b := FirstIndex(ms, k), FirstIndex(ms + [m], k);
    assert forall i :: 0 <= i < |ms| ==> (ms + [m])[i] == ms[i];
    if a < |ms| {
      assert (ms + [m])[a] == ms[a];
    } else if m.kind == k {
      assert (ms + [m])[|ms|] == m;
    }
  }

  /** The types come in order of their first message. */
  lemma {:induction false} KindsOrder(ms: seq<Message>)
    ensures forall i :: 0 <= i < |Kinds(ms)| ==> FirstIndex(ms, Kinds(ms)[i]) < |ms|
    ensures forall i, j :: 0 <= i < j < |Kinds(ms)| ==> FirstIndex(ms, Kinds(ms)[i]) < FirstIndex(ms, Kinds(ms)[j])
    decreases |ms|
  {
    if ms != [] {
      var n := |ms| - 1;
      var done, m := ms[..n], ms[n];
      assert ms == done + [m];
      KindsOrder(done);
      var ks := Kinds(done);
      forall i | 0 <= i < |ks|
        ensures FirstIndex(ms, ks[i]) == FirstIndex(done, ks[i]) < n
      {
        FirstIndexSnoc(done, m, ks[i]);
      }
      if m.kind !in ks {
        assert FirstIndex(done, m.kind) == n;
        FirstIndexSnoc(done, m, m.kind);
        assert Kinds(ms) == ks + [m.kind];
      } else {
        assert Kinds(ms) == ks;
      }
    }
  }

  /** The `reduce`: one pass that creates a type's list on its first message
      and pushes every message onto its type's list. */
  method GroupMessages(ms: seq<Message>) returns (order: seq<string>, groups: map<string, seq<Message>>)
    ensures order == Kinds(ms)
    ensures forall k :: k in groups <==> k in order
    ensures forall k :: k in groups ==> groups[k] == OfKind(ms, k)
  {
    order, groups := [], map[];
    var i := 0;
    while i < |ms|
      invariant 0 <= i <= |ms|
      invariant Grouped(ms[..i], order, groups)
    {
      var m := ms[i];
      var order', groups' := order, groups;
      if m.kind !in groups {
        order' := order + [m.kind];
        groups' := groups[m.kind := []];
      }
      groups' := groups'[m.kind := groups'[m.kind] + [m]];
      GroupedStep(ms[..i], m, order, groups, order', groups');
      PrefixSnoc(ms, i);
      order, groups := order', groups';
      i := i + 1;
    }
    assert ms[..i] == ms;
  }

  /** Pushing one more message keeps the accumulator in step. */
  lemma GroupedStep(ms: seq<Message>, m: Message, order: seq<string>, groups: map<string, seq<Message>>,
                    order': seq<string>, groups': map<string, seq<Message>>)
    requires Grouped(ms, order, groups)
    requires order' == if m.kind in groups then order else order + [m.kind]
    requires groups' == groups[m.kind := (if m.kind in groups then groups[m.kind] else []) + [m]]
    ensures Grouped(ms + [m], order', groups')
  {
    GroupStep(ms, m);
    if m.kind !in groups {
      OfKindAbsent(ms, m.kind);
    }
    forall k | k in groups'
      ensures groups'[k] == OfKind(ms + [m], k)
    {
      if k != m.kind {
        assert groups'[k] == groups[k];
      }
    }
  }

  lemma PrefixSnoc<T>(s: seq<T>, i: nat)
    requires i < |s|
    ensures s[..i + 1] == s[..i] + [s[i]]
  {
  }

  /** What one more message does to the key order and to each group. */
  lemma GroupStep(ms: seq<Message>, m: Message)
    ensures Kinds(ms + [m]) == if m.kind in Kinds(ms) then Kinds(ms) else Kinds(ms) + [m.kind]
    ensures forall k :: OfKind(ms + [m], k) == OfKind(ms, k) + (if m.kind == k then [m] else [])
  {
    assert (ms + [m])[..|ms|] == ms;
  }

  lemma {:induction false} OfKindAbsent(ms: seq<Message>, k: string)
    requires k !in Kinds(ms)
    ensures OfKind(ms, k) == []
    decreases |ms|
  {
    if ms != [] {
      assert forall i :: 0 <= i < |ms| - 1 ==> ms[..|ms| - 1][i] == ms[i];
      OfKindAbsent(ms[..|ms| - 1], k);
    }
  }

  lemma {:induction false} OfKindAppend(a: seq<Message>, b: seq<Message>, k: string)
    ensures OfKind(a + b, k) == OfKind(a, k) + OfKind(b, k)
    decreases |b|
  {
    if b == [] {
      assert a + b == a;
    } else {
      var b' := b[..|b| - 1];
      assert (a + b)[..|a + b| - 1] == a + b';
      OfKindAppend(a, b', k);
    }
  }

  /** Order within a group: the i-th message, when of type k, sits in k's group
      after exactly the earlier messages of type k. */
  lemma OfKindPosition(ms: seq<Message>, i: int)
    requires 0 <= i < |ms|
    ensures var g := OfKind(ms, ms[i].kind);
      |OfKind(ms[..i], ms[i].kind)| < |g| && g[|OfKind(ms[..i], ms[i].kind)|] == ms[i]
  {
    var k := ms[i].kind;
    assert ms == ms[..i + 1] + ms[i + 1..];
    OfKindAppend(ms[..i + 1], ms[i + 1..], k);
    assert ms[..i + 1][..i] == ms[..i];
  }

  /** Sum of the sizes of the groups named in ks. */
  function GroupSizes(ms: seq<Message>, ks: seq<string>): int
    decreases |ks|
  {
    if ks == [] then 0 else GroupSizes(ms, ks[..|ks| - 1]) + |OfKind(ms, ks[|ks| - 1])|
  }

  /** How often k occurs in ks. */
  function Occurrences(ks: seq<string>, k: string): int
    decreases |ks|
  {
    if ks == [] then 0 else Occurrences(ks[..|ks| - 1], k) + (if ks[|ks| - 1] == k then 1 else 0)
  }

  lemma {:induction false} OccurrencesDistinct(ks: seq<string>, k: string)
    requires forall i, j :: 0 <= i < j < |ks| ==> ks[i] != ks[j]
    ensures Occurrences(ks, k) == if k in ks then 1 else 0
    decreases |ks|
  {
    if ks != [] {
      var ks' := ks[..|ks| - 1];
      OccurrencesDistinct(ks', k);
      assert ks == ks' + [ks[|ks| - 1]];
      if ks[|ks| - 1] == k {
        assert k !in ks';
      }
    }
  }

  lemma {:induction false} GroupSizesAppendMessage(ms: seq<Message>, m: Message, ks: seq<string>)
    ensures GroupSizes(ms + [m], ks) == GroupSizes(ms, ks) + Occurrences(ks, m.kind)
    decreases |ks|
  {
    if ks != [] {
      GroupSizesAppendMessage(ms, m, ks[..|ks| - 1]);
      assert (ms + [m])[..|ms + [m]| - 1] == ms;
    }
  }

  /** Every message is in exactly one group: the group sizes add up to the
      number of messages. */
  lemma {:induction false} GroupSizesTotal(ms: seq<Message>)
    ensures GroupSizes(ms, Kinds(ms)) == |ms|
    decreases |ms|
  {
    if ms != [] {
      var ms' := ms[..|ms| - 1];
      var m := ms[|ms| - 1];
      assert ms == ms' + [m];
      var ks := Kinds(ms');
      GroupSizesTotal(ms');
      GroupSizesAppendMessage(ms', m, ks);
      OccurrencesDistinct(ks, m.kind);
      if m.kind !in ks {
        OfKindAbsent(ms', m.kind);
        assert Kinds(ms) == ks + [m.kind];
        assert (ks + [m.kind])[..|ks|] == ks;
      }
    }
  }
}
