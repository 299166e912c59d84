/** Many coroutines in one child, the tasks' own and the ones that carry progress among them, share
    one writer under a lock that is given to whoever came for it first. However their writes
    interleave, the stream reads as whole frames, in the order their senders came for the lock. */
module Wire {
  import opened Results
  import opened Framing

  datatype Sending = Sending(sender: nat, body: Body)

  /** Coroutines are numbered as they come. `created` are those a handler made to carry one frame each,
      that have not run yet; `entered` is every frame so far whose sender has come for the lock. Of
      those `done` have gone out whole, `current` is being written, with `left` to go, and `waiting` are
      in line. */
  datatype Wire = Wire(
    coroutines: nat, created: map<nat, Body>, entered: seq<Sending>, done: seq<Sending>,
    current: Option<Sending>, left: seq<Byte>, waiting: seq<Sending>, out: seq<Byte>)

  datatype Event =
    | Begin                          // a task, or a thread's call, gets a coroutine
    | Send(s: nat, body: Body)       // a coroutine that waits until its frame is out
    | Create(body: Body)             // an async handler's progress: its own coroutine, to run later
    | Started(s: nat)                // and it runs
    | Acquire
    | Emit(n: nat)                   // some bytes of the frame reach the stream
    | Release

  /** Whether a coroutine is waiting for a frame of its own to go out. */
  predicate Busy(w: Wire, s: nat) {
    (w.current.Some? && w.current.value.sender == s) || exists k :: 0 <= k < |w.waiting| && w.waiting[k].sender == s
  }

  function Entering(w: Wire, f: Sending): Wire {
    w.(entered := w.entered + [f], waiting := w.waiting + [f])
  }

  function Step(w: Wire, e: Event): Wire {
    match e
    case Begin => w.(coroutines := w.coroutines + 1)
    case Send(s, body) =>
      if s < w.coroutines && s !in w.created && !Busy(w, s) && |body| <= MAX_FRAME
      then Entering(w, Sending(s, body))
      else w
    case Create(body) =>
      if |body| <= MAX_FRAME then w.(coroutines := w.coroutines + 1, created := w.created[w.coroutines := body]) else w
    case Started(s) =>
      if s in w.created then Entering(w.(created := w.created - {s}), Sending(s, w.created[s])) else w
    case Acquire =>
      if w.current.None? && w.waiting != []
      then w.(current := Some(w.waiting[0]), left := Encode(w.waiting[0].body), waiting := w.waiting[1..]) else w
    case Emit(n) =>
      if w.current.Some? && n <= |w.left| then w.(out := w.out + w.left[..n], left := w.left[n..]) else w
    case Release =>
      if w.current.Some? && w.left == [] then w.(current := None, done := w.done + [w.current.value]) else w
  }

  const QUIET := Wire(0, map[], [], [], None, [], [], [])

  function Run(events: seq<Event>): Wire
    decreases |events|
  {
    if events == [] then QUIET else Step(Run(events[..|events| - 1]), events[|events| - 1])
  }

  // --------------------------------------------------------------- invariants

  function Bodies(frames: seq<Sending>): seq<Body> {
    seq(|frames|, i requires 0 <= i < |frames| => frames[i].body)
  }

  /** One coroutine's frames among these. */
  function Of(frames: seq<Sending>, s: nat): seq<Body> {
    if frames == [] then []
    else Of(frames[..|frames| - 1], s) + if frames[|frames| - 1].sender == s then [frames[|frames| - 1].body] else []
  }

  function Current(w: Wire): seq<Sending> {
    if w.current.Some? then [w.current.value] else []
  }

  predicate AllFit(frames: seq<Sending>) {
    forall k :: 0 <= k < |frames| ==> |frames[k].body| <= MAX_FRAME
  }

  /** Frames pass through in order, and what is on the stream is the ones that are done and the first
      part of the current one. */
  ghost predicate Inv(w: Wire) {
    && w.entered == w.done + Current(w) + w.waiting
    && AllFit(w.entered) && (forall s :: s in w.created ==> s < w.coroutines && |w.created[s]| <= MAX_FRAME)
    && (if w.current.Some? then
          var frame := Encode(w.current.value.body);
          |w.left| <= |frame| && w.out + w.left == Concat(Bodies(w.done)) + frame
        else w.left == [] && w.out == Concat(Bodies(w.done)))
  }

  lemma {:induction false} ConcatOneMore(bodies: seq<Body>, body: Body)
    ensures Concat(bodies + [body]) == Concat(bodies) + Encode(body)
    decreases |bodies|
  {
    if bodies == [] {
      assert bodies + [body] == [body] && Concat([body]) == Encode(body) + Concat([]);
    } else {
      ConcatOneMore(bodies[1..], body);
      assert (bodies + [body])[1..] == bodies[1..] + [body];
      Associates(Encode(bodies[0]), Concat(bodies[1..]), Encode(body));
    }
  }

  lemma BodiesOneMore(frames: seq<Sending>, f: Sending)
    ensures Bodies(frames + [f]) == Bodies(frames) + [f.body]
  {
  }

  lemma {:induction false} OfBoth(a: seq<Sending>, b: seq<Sending>, s: nat)
    ensures Of(a + b, s) == Of(a, s) + Of(b, s)
    decreases |b|
  {
    if b == [] {
      assert a + b == a;
    } else {
      var n := |b| - 1;
      OfBoth(a, b[..n], s);
      assert (a + b)[..|a + b| - 1] == a + b[..n];
    }
  }

  lemma EnteringKeepsInv(w: Wire, f: Sending)
    requires Inv(w) && |f.body| <= MAX_FRAME
    ensures Inv(Entering(w, f))
  {
    assert w.done + Current(w) + w.waiting + [f] == w.done + Current(w) + (w.waiting + [f]);
  }

  lemma AcquireKeepsInv(w: Wire)
    requires Inv(w)
    ensures Inv(Step(w, Acquire))
  {
    if w.current.None? && w.waiting != [] {
      var f := w.waiting[0];
      assert w.done + [] + w.waiting == w.done + [f] + w.waiting[1..];
      assert w.out + Encode(f.body) == Concat(Bodies(w.done)) + Encode(f.body);
    }
  }

  lemma EmitKeepsInv(w: Wire, n: nat)
    requires Inv(w) && w.current.Some? && n <= |w.left|
    ensures Inv(w.(out := w.out + w.left[..n], left := w.left[n..]))
  {
    assert w.out + w.left[..n] + w.left[n..] == w.out + w.left;
  }

  lemma ReleaseKeepsInv(w: Wire)
    requires Inv(w)
    ensures Inv(Step(w, Release))
  {
    if w.current.Some? && w.left == [] {
      var f := w.current.value;
      ConcatOneMore(Bodies(w.done), f.body);
      BodiesOneMore(w.done, f);
      assert w.out + [] == w.out;
      assert w.done + [f] + w.waiting == w.done + [f] + [] + w.waiting;
    }
  }

  lemma StepKeepsInv(w: Wire, e: Event)
    requires Inv(w)
    ensures Inv(Step(w, e))
  {
    match e
    case Begin =>
    case Send(s, body) => if |body| <= MAX_FRAME { EnteringKeepsInv(w, Sending(s, body)); }
    case Create(body) =>
    case Started(s) => if s in w.created { EnteringKeepsInv(w.(created := w.created - {s}), Sending(s, w.created[s])); }
    case Acquire => AcquireKeepsInv(w);
    case Emit(n) => if w.current.Some? && n <= |w.left| { EmitKeepsInv(w, n); }
    case Release => ReleaseKeepsInv(w);
  }

  lemma {:induction false} InvAlways(events: seq<Event>)
    ensures Inv(Run(events))
    decreases |events|
  {
    if events != [] {
      InvAlways(events[..|events| - 1]);
      StepKeepsInv(Run(events[..|events| - 1]), events[|events| - 1]);
    }
  }

  // ------------------------------------------------------------- main results

  /** The frames on the stream: those released, and the current one once its last byte is out. */
  function Whole(w: Wire): seq<Body> {
    Bodies(w.done) + if w.left == [] then Bodies(Current(w)) else []
  }

  lemma PartWritten(out: seq<Byte>, left: seq<Byte>, before: seq<Byte>, frame: seq<Byte>)
    requires out + left == before + frame && |left| <= |frame|
    ensures out == before + frame[..|frame| - |left|]
  {
    assert out == (out + left)[..|out|];
  }

  /** At any moment, with any number of senders writing in any interleaving, the stream reads as the
      whole frames written so far, and then at most the beginning of one more. */
  lemma NoFrameIsTorn(events: seq<Event>)
    ensures var w := Run(events);
            && ReadAll(w.out).0 == Whole(w)
            && (ReadAll(w.out).1.End? || ReadAll(w.out).1.Cut?)
  {
    InvAlways(events);
    StreamIsWhole(Run(events));
  }

  lemma StreamIsWhole(w: Wire)
    requires Inv(w)
    ensures ReadAll(w.out).0 == Whole(w) && (ReadAll(w.out).1.End? || ReadAll(w.out).1.Cut?)
  {
    var before := Bodies(w.done);
    EntryFits(w);
    assert before + [] == before;
    if w.current.None? {
      WrittenIsRead(before);
      assert Bodies([]) == [];
    } else {
      BeingWritten(before, w.current.value.body, w.out, w.left);
      assert Bodies(Current(w)) == [w.current.value.body];
    }
  }

  lemma EntryFits(w: Wire)
    requires Inv(w)
    ensures Fits(Bodies(w.done)) && (w.current.Some? ==> |w.current.value.body| <= MAX_FRAME)
  {
    forall k | 0 <= k < |w.done| ensures |w.done[k].body| <= MAX_FRAME { assert w.entered[k] == w.done[k]; }
    if w.current.Some? { assert w.entered[|w.done|] == w.current.value; }
  }

  lemma BeingWritten(before: seq<Body>, body: Body, out: seq<Byte>, left: seq<Byte>)
    requires Fits(before) && |body| <= MAX_FRAME && |left| <= |Encode(body)|
    requires out + left == Concat(before) + Encode(body)
    ensures ReadAll(out).0 == (if left == [] then before + [body] else before)
    ensures ReadAll(out).1.End? || ReadAll(out).1.Cut?
  {
    PartWritten(out, left, Concat(before), Encode(body));
    if left == [] {
      ConcatOneMore(before, body);
      assert out + [] == out;
      WrittenIsRead(before + [body]);
    } else {
      CutAnywhere(before, body, |Encode(body)| - |left|);
    }
  }

  lemma PrefixOf<T>(whole: seq<T>, a: seq<T>, b: seq<T>)
    requires whole == a + b
    ensures a <= whole
  {
  }

  lemma EnteredIs(w: Wire, rest: seq<Sending>)
    requires Inv(w) && rest == Current(w) + w.waiting
    ensures w.entered == w.done + rest
  {
  }

  lemma OutInOrder(w: Wire, s: nat)
    requires Inv(w)
    ensures w.done <= w.entered && Of(w.done, s) <= Of(w.entered, s)
  {
    var rest := Current(w) + w.waiting;
    EnteredIs(w, rest);
    OfBoth(w.done, rest, s);
    PrefixOf(Of(w.entered, s), Of(w.done, s), Of(rest, s));
  }

  /** Whoever comes for the lock first is out first; so each coroutine's frames go out in the order it
      sent them, none twice. */
  lemma FirstComeFirstOut(events: seq<Event>, s: nat)
    ensures var w := Run(events); w.done <= w.entered && Of(w.done, s) <= Of(w.entered, s)
  {
    InvAlways(events);
    OutInOrder(Run(events), s);
  }

  lemma {:induction false} OfNone(frames: seq<Sending>, s: nat)
    requires forall k :: 0 <= k < |frames| ==> frames[k].sender != s
    ensures Of(frames, s) == []
    decreases |frames|
  {
    if frames != [] {
      OfNone(frames[..|frames| - 1], s);
    }
  }

  lemma NoneOfItsWaits(w: Wire, s: nat)
    requires !Busy(w, s)
    ensures Of(Current(w) + w.waiting, s) == []
  {
    OfNone(w.waiting, s);
    OfNone(Current(w), s);
    OfBoth(Current(w), w.waiting, s);
  }

  lemma AllOut(w: Wire, s: nat)
    requires Inv(w) && !Busy(w, s)
    ensures Of(w.done, s) == Of(w.entered, s)
  {
    NoneOfItsWaits(w, s);
    EnteredIs(w, Current(w) + w.waiting);
    OfBoth(w.done, Current(w) + w.waiting, s);
  }

  /** A coroutine that is not waiting has all its frames out: what it sends next follows them, and what
      a sync handler reported from its thread is out before it goes on. */
  lemma AllOutWhenNotWaiting(events: seq<Event>, s: nat)
    requires !Busy(Run(events), s)
    ensures var w := Run(events); Of(w.done, s) == Of(w.entered, s)
  {
    InvAlways(events);
    AllOut(Run(events), s);
  }

  // ----------------------------------------------- progress that outlives its task

  /** An async handler's progress is another coroutine's frame. It goes out before what its task sends
      afterwards if it has run by then, since it is then ahead in line. */
  lemma ProgressFirstIfItRan(w: Wire, progress: nat, s: nat, answer: Body)
    requires progress in w.created && !Busy(w, s) && s < w.coroutines && s !in w.created && |answer| <= MAX_FRAME
    ensures var entered := Step(Step(w, Started(progress)), Send(s, answer)).entered;
            entered == w.entered + [Sending(progress, w.created[progress]), Sending(s, answer)]
  {
    var started := Step(w, Started(progress));
    assert !Busy(started, s) by {
      assert started.waiting == w.waiting + [Sending(progress, w.created[progress])];
    }
    assert w.entered + [Sending(progress, w.created[progress])] + [Sending(s, answer)]
           == w.entered + [Sending(progress, w.created[progress]), Sending(s, answer)];
  }

  /** And after it if it has not, as nothing makes it: a task's answer can be on the stream before the
      progress it reported. */
  lemma ProgressLastIfItHadNot(w: Wire, progress: nat, s: nat, answer: Body)
    requires progress in w.created && !Busy(w, s) && s < w.coroutines && s !in w.created && |answer| <= MAX_FRAME
    ensures var entered := Step(Step(w, Send(s, answer)), Started(progress)).entered;
            entered == w.entered + [Sending(s, answer), Sending(progress, w.created[progress])]
  {
    assert w.entered + [Sending(s, answer)] + [Sending(progress, w.created[progress])]
           == w.entered + [Sending(s, answer), Sending(progress, w.created[progress])];
  }
}
