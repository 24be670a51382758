/**
  The transcript list of the voice widget (`addMessage` in static/widget.js).

  The list is an ordered sequence of bubbles. A bubble is either interim (provisional,
  carrying the DOM id `interim-<role>`) or final (no id, never touched again). A one-time
  placeholder ("empty state") sits in the list's initial markup and disappears on the first
  call. Only one widget exists per page, so a document-wide id lookup is a lookup in this list.
*/
module Reconciler {
  import opened Options

  /** Who spoke: the local user or the remote agent. */
  datatype Role = User | Agent

  /** One rendered bubble: its speaker, the text it shows, and whether it is still interim. */
  datatype Message = Message(role: Role, text: string, interim: bool)

  /** One speech-to-text segment as delivered with a transcription event. */
  datatype Segment = Segment(text: string, final: bool)

  /** The role of a bubble, from the `isAgent` flag the callers pass. */
  function RoleOf(isAgent: bool): Role
  {
    if isAgent then Agent else User
  }

  /** The CSS class naming the role, also used to build the interim id. */
  function ClassName(r: Role): string
  {
    match r
    case Agent => "agent"
    case User => "user"
  }

  /** The DOM id of the interim bubble of role `r`. */
  function InterimId(r: Role): string
  {
    "interim-" + ClassName(r)
  }

  /** The id a bubble carries: interim bubbles have one, final bubbles none. */
  function IdOf(m: Message): Option<string>
  {
    if m.interim then Some(InterimId(m.role)) else None
  }

  predicate IsInterimOf(m: Message, r: Role)
  {
    m.interim && m.role == r
  }

  /** Looking a bubble up by `interim-<role>` finds exactly the interim bubbles of that role. */
  lemma IdIdentifiesInterim(m: Message, r: Role)
    ensures IdOf(m) == Some(InterimId(r)) <==> IsInterimOf(m, r)
  {
    assert |InterimId(Agent)| != |InterimId(User)|;
  }

  /** The invariant the reconciler keeps: no role has two interim bubbles at once. */
  predicate AtMostOneInterim(ms: seq<Message>)
  {
    forall i, j :: 0 <= i < j < |ms| && ms[i].interim && ms[j].interim ==> ms[i].role != ms[j].role
  }

  /** The position of the first interim bubble of `r`, or `|ms|` when there is none. */
  function FirstInterim(ms: seq<Message>, r: Role): (k: nat)
    ensures k <= |ms|
    ensures k < |ms| ==> IsInterimOf(ms[k], r)
    ensures forall j :: 0 <= j < k ==> !IsInterimOf(ms[j], r)
  {
    if ms == [] then 0
    else if IsInterimOf(ms[0], r) then 0
    else 1 + FirstInterim(ms[1..], r)
  }

  /** `ms` without its element at `k`; unchanged when `k == |ms|` (nothing to remove). */
  function RemoveAt(ms: seq<Message>, k: nat): seq<Message>
    requires k <= |ms|
  {
    if k == |ms| then ms else ms[..k] + ms[k + 1..]
  }

  /**
    What one `addMessage(text, isAgent, isFinal)` call does to the list. An interim segment
    replaces the text of the role's interim bubble, or appends one when there is none; a
    final segment removes the role's interim bubble and appends a final bubble.
  */
  function Present(ms: seq<Message>, r: Role, text: string, final: bool): seq<Message>
  {
    var k := FirstInterim(ms, r);
    if !final then
      if k == |ms| then ms + [Message(r, text, true)] else ms[k := ms[k].(text := text)]
    else
      RemoveAt(ms, k) + [Message(r, text, false)]
  }

  /** A batch of segments from one participant, presented in order (the `forEach` of the handler). */
  function PresentAll(ms: seq<Message>, r: Role, segs: seq<Segment>): seq<Message>
    decreases |segs|
  {
    if segs == [] then ms
    else
      var last := segs[|segs| - 1];
      Present(PresentAll(ms, r, segs[..|segs| - 1]), r, last.text, last.final)
  }

  /** The final bubbles of a list, in order. */
  function Finals(ms: seq<Message>): seq<Message>
  {
    if ms == [] then [] else (if ms[0].interim then [] else [ms[0]]) + Finals(ms[1..])
  }

  /** The interim bubbles of role `r` in a list, in order. */
  function Interims(ms: seq<Message>, r: Role): seq<Message>
  {
    if ms == [] then [] else (if IsInterimOf(ms[0], r) then [ms[0]] else []) + Interims(ms[1..], r)
  }

  /** The final bubbles a batch of segments adds, in order. */
  function FinalsOf(r: Role, segs: seq<Segment>): seq<Message>
    decreases |segs|
  {
    if segs == [] then []
    else
      var last := segs[|segs| - 1];
      FinalsOf(r, segs[..|segs| - 1]) + (if last.final then [Message(r, last.text, false)] else [])
  }

  function Other(r: Role): Role
  {
    if r == User then Agent else User
  }

  // ---------------------------------------------------------------------------------------
  // Filter facts

  lemma {:induction false} FinalsAppend(a: seq<Message>, b: seq<Message>)
    ensures Finals(a + b) == Finals(a) + Finals(b)
  {
    if a == [] {
      assert a + b == b;
    } else {
      var head := if a[0].interim then [] else [a[0]];
      assert (a + b)[0] == a[0];
      assert (a + b)[1..] == a[1..] + b;
      FinalsAppend(a[1..], b);
      calc {
        Finals(a + b);
        head + Finals(a[1..] + b);
        head + (Finals(a[1..]) + Finals(b));
        (head + Finals(a[1..])) + Finals(b);
      }
    }
  }

  lemma {:induction false} InterimsAppend(a: seq<Message>, b: seq<Message>, r: Role)
    ensures Interims(a + b, r) == Interims(a, r) + Interims(b, r)
  {
    if a == [] {
      assert a + b == b;
    } else {
      var head := if IsInterimOf(a[0], r) then [a[0]] else [];
      assert (a + b)[0] == a[0];
      assert (a + b)[1..] == a[1..] + b;
      InterimsAppend(a[1..], b, r);
      calc {
        Interims(a + b, r);
        head + Interims(a[1..] + b, r);
        head + (Interims(a[1..], r) + Interims(b, r));
        (head + Interims(a[1..], r)) + Interims(b, r);
      }
    }
  }

  lemma {:induction false} InterimsNone(ms: seq<Message>, r: Role)
    requires forall j :: 0 <= j < |ms| ==> !IsInterimOf(ms[j], r)
    ensures Interims(ms, r) == []
  {
    if ms != [] {
      InterimsNone(ms[1..], r);
    }
  }

  /** Splits the list around position `k` into the part before, the bubble at `k`, and the part after. */
  lemma SplitAt(ms: seq<Message>, k: nat, m: Message)
    requires k < |ms|
    ensures ms[k := m] == ms[..k] + [m] + ms[k + 1..]
    ensures ms == ms[..k] + [ms[k]] + ms[k + 1..]
  {
  }

  /** Removing or rewriting an interim bubble leaves the final bubbles as they were. */
  lemma FinalsIgnoreInterimAt(ms: seq<Message>, k: nat, m: Message)
    requires k < |ms| && ms[k].interim && m.interim
    ensures Finals(ms[k := m]) == Finals(ms)
    ensures Finals(ms[..k] + ms[k + 1..]) == Finals(ms)
  {
    SplitAt(ms, k, m);
    FinalsAppend(ms[..k] + [m], ms[k + 1..]);
    FinalsAppend(ms[..k], [m]);
    FinalsAppend(ms[..k] + [ms[k]], ms[k + 1..]);
    FinalsAppend(ms[..k], [ms[k]]);
    FinalsAppend(ms[..k], ms[k + 1..]);
  }

  /** The interim bubbles of `o` do not see a change at a position that holds no interim bubble of `o`. */
  lemma InterimsIgnoreAt(ms: seq<Message>, k: nat, m: Message, o: Role)
    requires k < |ms| && !IsInterimOf(ms[k], o) && !IsInterimOf(m, o)
    ensures Interims(ms[k := m], o) == Interims(ms, o)
    ensures Interims(ms[..k] + ms[k + 1..], o) == Interims(ms, o)
  {
    SplitAt(ms, k, m);
    InterimsAppend(ms[..k] + [m], ms[k + 1..], o);
    InterimsAppend(ms[..k], [m], o);
    InterimsAppend(ms[..k] + [ms[k]], ms[k + 1..], o);
    InterimsAppend(ms[..k], [ms[k]], o);
    InterimsAppend(ms[..k], ms[k + 1..], o);
  }

  /** Under the invariant, no interim bubble of `r` sits anywhere but at its first one. */
  lemma NoSecondInterim(ms: seq<Message>, r: Role)
    requires AtMostOneInterim(ms)
    requires FirstInterim(ms, r) < |ms|
    ensures forall j :: 0 <= j < |ms| && j != FirstInterim(ms, r) ==> !IsInterimOf(ms[j], r)
  {
    var k := FirstInterim(ms, r);
    forall j | 0 <= j < |ms| && j != k
      ensures !IsInterimOf(ms[j], r)
    {
      if j > k && ms[j].interim {
        assert ms[k].interim && ms[k].role != ms[j].role;
      }
    }
  }

  /** Under the invariant, the first interim bubble of `r` is its only one. */
  lemma OnlyInterim(ms: seq<Message>, r: Role)
    requires AtMostOneInterim(ms)
    requires FirstInterim(ms, r) < |ms|
    ensures Interims(ms, r) == [ms[FirstInterim(ms, r)]]
    ensures forall j :: 0 <= j < |ms| && j != FirstInterim(ms, r) ==> !IsInterimOf(ms[j], r)
  {
    var k := FirstInterim(ms, r);
    NoSecondInterim(ms, r);
    var before, after := ms[..k], ms[k + 1..];
    forall j | 0 <= j < |before|
      ensures !IsInterimOf(before[j], r)
    {
      assert before[j] == ms[j];
    }
    forall j | 0 <= j < |after|
      ensures !IsInterimOf(after[j], r)
    {
      assert after[j] == ms[k + 1 + j];
    }
    InterimsNone(before, r);
    InterimsNone(after, r);
    assert ms == before + [ms[k]] + after;
    InterimsAppend(before + [ms[k]], after, r);
    InterimsAppend(before, [ms[k]], r);
    assert Interims([ms[k]], r) == [ms[k]];
  }

  // ---------------------------------------------------------------------------------------
  // One segment

  /** Presenting any segment keeps at most one interim bubble per role. */
  lemma PresentKeepsAtMostOne(ms: seq<Message>, r: Role, text: string, final: bool)
    requires AtMostOneInterim(ms)
    ensures AtMostOneInterim(Present(ms, r, text, final))
  {
    var k := FirstInterim(ms, r);
    var res := Present(ms, r, text, final);
    if !final && k == |ms| {
      forall i, j | 0 <= i < j < |res| && res[i].interim && res[j].interim
        ensures res[i].role != res[j].role
      {
        if j == |ms| {
          assert !IsInterimOf(ms[i], r);
        }
      }
    } else if !final {
      assert forall i :: 0 <= i < |res| ==> res[i].interim == ms[i].interim && res[i].role == ms[i].role;
    } else {
      var rest := RemoveAt(ms, k);
      assert res == rest + [Message(r, text, false)];
      assert forall i :: 0 <= i < |rest| ==> rest[i] == ms[if i < k then i else i + 1];
    }
  }

  /**
    An interim segment with no interim bubble of its role appends exactly one interim bubble at
    the end; with one, only that bubble's text changes, and length and positions stay the same.
  */
  lemma InterimSegmentEffect(ms: seq<Message>, r: Role, text: string)
    ensures var res := Present(ms, r, text, false);
      var k := FirstInterim(ms, r);
      && (k == |ms| ==> |res| == |ms| + 1 && res[..|ms|] == ms && res[|ms|] == Message(r, text, true))
      && (k < |ms| ==>
            && |res| == |ms|
            && res[k] == Message(r, text, true) && ms[k].role == r && ms[k].interim
            && forall j :: 0 <= j < |ms| && j != k ==> res[j] == ms[j])
  {
  }

  /** Removing position `k` shifts every later bubble down by one and keeps the earlier ones. */
  lemma RemoveAtFrame(ms: seq<Message>, k: nat)
    requires k < |ms|
    ensures |RemoveAt(ms, k)| == |ms| - 1
    ensures forall i :: 0 <= i < |ms| - 1 ==> RemoveAt(ms, k)[i] == ms[if i >= k then i + 1 else i]
  {
    var rest := RemoveAt(ms, k);
    forall i | 0 <= i < |ms| - 1
      ensures rest[i] == ms[if i >= k then i + 1 else i]
    {
      if i < k {
        assert rest[i] == ms[..k][i];
      } else {
        assert rest[i] == ms[k + 1..][i - k];
      }
    }
  }

  /**
    A final segment removes the interim bubble of its role, wherever it sits, and appends one
    final bubble with the given text (empty text included) at the end.
  */
  lemma FinalSegmentEffect(ms: seq<Message>, r: Role, text: string)
    requires AtMostOneInterim(ms)
    ensures var res := Present(ms, r, text, true);
      && |res| == (if FirstInterim(ms, r) < |ms| then |ms| else |ms| + 1)
      && res[|res| - 1] == Message(r, text, false)
      && (forall j :: 0 <= j < |res| ==> !IsInterimOf(res[j], r))
      && var k := FirstInterim(ms, r);
         forall j :: 0 <= j < |res| - 1 ==> res[j] == ms[if k < |ms| && j >= k then j + 1 else j]
  {
    var k := FirstInterim(ms, r);
    var rest := RemoveAt(ms, k);
    var res := Present(ms, r, text, true);
    assert res == rest + [Message(r, text, false)];
    if k < |ms| {
      OnlyInterim(ms, r);
      RemoveAtFrame(ms, k);
      forall j | 0 <= j < |res|
        ensures !IsInterimOf(res[j], r)
      {
        if j < |rest| {
          assert res[j] == ms[if j >= k then j + 1 else j];
        }
      }
    } else {
      assert rest == ms;
    }
    forall j | 0 <= j < |res| - 1
      ensures res[j] == ms[if k < |ms| && j >= k then j + 1 else j]
    {
      assert res[j] == rest[j];
    }
  }

  /** Final bubbles are never modified or removed: a segment adds at most one, at the end of them. */
  lemma {:induction false} PresentFinals(ms: seq<Message>, r: Role, text: string, final: bool)
    ensures Finals(Present(ms, r, text, final)) == Finals(ms) + (if final then [Message(r, text, false)] else [])
  {
    var k := FirstInterim(ms, r);
    var m := Message(r, text, !final);
    if k < |ms| {
      FinalsIgnoreInterimAt(ms, k, ms[k].(text := text));
    }
    if final || k == |ms| {
      FinalsAppend(RemoveAt(ms, k), [m]);
    }
  }

  /** The other role's interim bubble is left exactly as it was. */
  lemma {:induction false} PresentOtherRole(ms: seq<Message>, r: Role, text: string, final: bool)
    ensures Interims(Present(ms, r, text, final), Other(r)) == Interims(ms, Other(r))
  {
    var k := FirstInterim(ms, r);
    var m := Message(r, text, !final);
    if k < |ms| {
      InterimsIgnoreAt(ms, k, ms[k].(text := text), Other(r));
    }
    if final || k == |ms| {
      InterimsAppend(RemoveAt(ms, k), [m], Other(r));
    }
  }

  /**
    After a segment of role `r`, that role has no interim bubble if the segment was final, and
    exactly one, showing the segment's text, if it was interim.
  */
  lemma {:induction false} PresentOwnInterim(ms: seq<Message>, r: Role, text: string, final: bool)
    requires AtMostOneInterim(ms)
    ensures Interims(Present(ms, r, text, final), r) == if final then [] else [Message(r, text, true)]
  {
    var k := FirstInterim(ms, r);
    var m := Message(r, text, !final);
    if k < |ms| {
      OnlyInterim(ms, r);
      var u := ms[k].(text := text);
      SplitAt(ms, k, u);
      InterimsNone(ms[..k], r);
      InterimsNone(ms[k + 1..], r);
      InterimsAppend(ms[..k] + [u], ms[k + 1..], r);
      InterimsAppend(ms[..k], [u], r);
      InterimsAppend(ms[..k], ms[k + 1..], r);
    } else {
      InterimsNone(ms, r);
    }
    if final || k == |ms| {
      InterimsAppend(RemoveAt(ms, k), [m], r);
    }
  }

  // ---------------------------------------------------------------------------------------
  // A batch of segments

  lemma {:induction false} PresentAllKeepsAtMostOne(ms: seq<Message>, r: Role, segs: seq<Segment>)
    requires AtMostOneInterim(ms)
    ensures AtMostOneInterim(PresentAll(ms, r, segs))
    decreases |segs|
  {
    if segs != [] {
      var last := segs[|segs| - 1];
      PresentAllKeepsAtMostOne(ms, r, segs[..|segs| - 1]);
      PresentKeepsAtMostOne(PresentAll(ms, r, segs[..|segs| - 1]), r, last.text, last.final);
    }
  }

  /** Across a batch, the final bubbles only grow, by the batch's final segments in order. */
  lemma {:induction false} PresentAllFinals(ms: seq<Message>, r: Role, segs: seq<Segment>)
    ensures Finals(PresentAll(ms, r, segs)) == Finals(ms) + FinalsOf(r, segs)
    decreases |segs|
  {
    if segs != [] {
      var last := segs[|segs| - 1];
      PresentAllFinals(ms, r, segs[..|segs| - 1]);
      PresentFinals(PresentAll(ms, r, segs[..|segs| - 1]), r, last.text, last.final);
    }
  }

  /** A batch from one participant never touches the other role's interim bubble. */
  lemma {:induction false} PresentAllOtherRole(ms: seq<Message>, r: Role, segs: seq<Segment>)
    ensures Interims(PresentAll(ms, r, segs), Other(r)) == Interims(ms, Other(r))
    decreases |segs|
  {
    if segs != [] {
      var last := segs[|segs| - 1];
      PresentAllOtherRole(ms, r, segs[..|segs| - 1]);
      PresentOtherRole(PresentAll(ms, r, segs[..|segs| - 1]), r, last.text, last.final);
    }
  }

  /**
    After a non-empty batch, the speaker has exactly one interim bubble showing the latest
    text if the last segment was interim, and none if it was final.
  */
  lemma PresentAllOwnInterim(ms: seq<Message>, r: Role, segs: seq<Segment>)
    requires AtMostOneInterim(ms) && segs != []
    ensures var last := segs[|segs| - 1];
      Interims(PresentAll(ms, r, segs), r) == if last.final then [] else [Message(r, last.text, true)]
  {
    var last := segs[|segs| - 1];
    PresentAllKeepsAtMostOne(ms, r, segs[..|segs| - 1]);
    PresentOwnInterim(PresentAll(ms, r, segs[..|segs| - 1]), r, last.text, last.final);
  }

  /** Two interim updates then a final one collapse into a single final agent bubble. */
  lemma AgentScenario()
    ensures PresentAll([], Agent, [Segment("hel", false), Segment("hello", false), Segment("hello there", true)])
         == [Message(Agent, "hello there", false)]
  {
    var segs := [Segment("hel", false), Segment("hello", false), Segment("hello there", true)];
    assert segs[..2][..1][..0] == [];
    assert PresentAll([], Agent, segs[..2][..1]) == [Message(Agent, "hel", true)];
    assert segs[..2][..1] == [Segment("hel", false)];
    assert PresentAll([], Agent, segs[..2]) == [Message(Agent, "hello", true)];
    assert segs[..2] == [Segment("hel", false), Segment("hello", false)];
  }

  // ---------------------------------------------------------------------------------------
  // The transcript container

  /** The `livekit-widget-transcriptions` container and its children. */
  class Transcript {
    /** The bubbles in document order. */
    var messages: seq<Message>
    /** Whether the `livekit-empty-state` placeholder of the initial markup is still present. */
    var emptyState: bool

    ghost predicate Valid()
      reads this
    {
      AtMostOneInterim(messages) && (messages != [] ==> !emptyState)
    }

    /** The container as the widget's markup creates it: only the placeholder. */
    constructor ()
      ensures Valid() && messages == [] && emptyState
    {
      messages := [];
      emptyState := true;
    }

    /** `document.getElementById(id)` restricted to the container: the first bubble with that id. */
    method FindById(id: string) returns (found: bool, k: nat)
      ensures found ==> k < |messages| && IdOf(messages[k]) == Some(id)
      ensures found ==> forall j :: 0 <= j < k ==> IdOf(messages[j]) != Some(id)
      ensures !found ==> forall j :: 0 <= j < |messages| ==> IdOf(messages[j]) != Some(id)
    {
      k := 0;
      while k < |messages|
        invariant k <= |messages|
        invariant forall j :: 0 <= j < k ==> IdOf(messages[j]) != Some(id)
      {
        if IdOf(messages[k]) == Some(id) {
          return true, k;
        }
        k := k + 1;
      }
      found := false;
    }

    /** `addMessage(text, isAgent, isFinal)`. */
    method AddMessage(text: string, isAgent: bool, isFinal: bool)
      requires Valid()
      modifies this
      ensures Valid() && !emptyState
      ensures messages == Present(old(messages), RoleOf(isAgent), text, isFinal)
    {
      emptyState := false;
      var role := RoleOf(isAgent);
      var id := "interim-" + ClassName(role);
      var found, k := FindById(id);

      ghost var first := FirstInterim(messages, role);
      forall j | 0 <= j < |messages|
        ensures IdOf(messages[j]) == Some(id) <==> IsInterimOf(messages[j], role)
      {
        IdIdentifiesInterim(messages[j], role);
      }
      assert found ==> k == first;
      assert !found ==> first == |messages|;
      PresentKeepsAtMostOne(messages, role, text, isFinal);

      if !isFinal {
        if !found {
          messages := messages + [Message(role, text, true)];
        } else {
          messages := messages[k := messages[k].(text := text)];
        }
        return;
      }

      if found {
        messages := messages[..k] + messages[k + 1..];
      }
      messages := messages + [Message(role, text, false)];
    }
  }
}
