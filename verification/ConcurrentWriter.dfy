/**
  Any number of goroutines calling `Writer.Write` and `Writer.WriteWithFlags` on one writer
  (protocol/writer.go:33-54). Each call takes the mutex, fills a scratch header that all
  callers share, writes the header, writes the body and unlocks; every one of these is a
  separate step and the steps of different callers interleave freely.

  `Run` is total over event sequences: an event that is not enabled changes nothing, so a
  statement about `Run(es)` for all `es` is a statement about every interleaving.
 */
module ConcurrentWriter {
  import opened Bytes
  import opened Framing

  datatype Request = Plain(data: Payload) | Flagged(flags: Byte, data: Payload)
  {
    /** The payload a reader should recover. */
    function Message(): Payload {
      match this
      case Plain(d) => d
      case Flagged(f, d) => [f] + d
    }
  }

  datatype Phase = Waiting | Locked | LengthFilled | HeaderFilled | HeaderSent | Finished

  datatype Call = Call(request: Request, phase: Phase)

  datatype State = State(
    calls: map<nat, Call>,      // the call each goroutine is in, if any
    holder: Option<nat>,        // who holds the mutex
    p: seq<Byte>,               // shared scratch of Write
    pwf: seq<Byte>,             // shared scratch of WriteWithFlags
    out: seq<Byte>,             // bytes accepted by the transport
    broken: bool,               // a write has failed
    order: seq<Request>,        // requests in the order they took the mutex
    sent: seq<Request>          // requests whose whole frame is in `out`
  )

  /** `accepted` is how many bytes the transport took; `ok` whether it reported success. */
  datatype Event =
    | Enter(t: nat, request: Request)
    | Lock(t: nat)
    | FillLength(t: nat)
    | FillFlags(t: nat)
    | SendHeader(t: nat, accepted: nat, ok: bool)
    | SendBody(t: nat, accepted: nat, ok: bool)
    | Unlock(t: nat)

  function Init(): State {
    State(map[], None, [0, 0, 0, 0], [0, 0, 0, 0, 0], [], false, [], [])
  }

  predicate At(s: State, t: nat, phase: Phase) {
    t in s.calls && s.calls[t].phase == phase
  }

  function Move(s: State, t: nat, phase: Phase): State
    requires t in s.calls
  {
    s.(calls := s.calls[t := s.calls[t].(phase := phase)])
  }

  /** The header bytes as they stand in the shared scratch, whoever wrote them. */
  function Scratch(s: State, r: Request): seq<Byte> {
    if r.Plain? then s.p else s.pwf
  }

  /** A write the transport can perform: nothing once broken, and success means every byte. */
  predicate Possible(s: State, size: nat, accepted: nat, ok: bool) {
    accepted <= size && (ok ==> accepted == size) && (s.broken ==> accepted == 0 && !ok)
  }

  function Step(s: State, e: Event): State {
    match e
    case Enter(t, r) =>
      if t in s.calls then s else s.(calls := s.calls[t := Call(r, Waiting)])
    case Lock(t) =>
      if !At(s, t, Waiting) || s.holder.Some? then s else
      Move(s, t, Locked).(holder := Some(t), order := s.order + [s.calls[t].request])
    case FillLength(t) =>
      if !At(s, t, Locked) then s else
      (match s.calls[t].request
       case Plain(d) => Move(s, t, HeaderFilled).(p := Be32(|d|))
       case Flagged(_, d) =>
         Move(s, t, LengthFilled).(pwf := if |s.pwf| == 5 then Be32(|d| + 1) + s.pwf[4..] else s.pwf))
    case FillFlags(t) =>
      if !At(s, t, LengthFilled) || !s.calls[t].request.Flagged? || |s.pwf| != 5 then s else
      Move(s, t, HeaderFilled).(pwf := s.pwf[..4] + [s.calls[t].request.flags])
    case SendHeader(t, n, ok) =>
      if !At(s, t, HeaderFilled) then s else
      var r := s.calls[t].request;
      var h := Scratch(s, r);
      if !Possible(s, |h|, n, ok) then s else
      Move(s, t, if ok then HeaderSent else Finished).(
        out := s.out + h[..n], broken := !ok,
        sent := if n == |h| && r.data == [] then s.sent + [r] else s.sent)
    case SendBody(t, n, ok) =>
      if !At(s, t, HeaderSent) then s else
      var r := s.calls[t].request;
      if !Possible(s, |r.data|, n, ok) then s else
      Move(s, t, Finished).(
        out := s.out + r.data[..n], broken := !ok,
        sent := if n == |r.data| && r.data != [] then s.sent + [r] else s.sent)
    case Unlock(t) =>
      if !At(s, t, Finished) then s else s.(calls := s.calls - {t}, holder := None)
  }

  function Run(es: seq<Event>): State {
    if es == [] then Init() else Step(Run(es[..|es| - 1]), es[|es| - 1])
  }

  function Messages(rs: seq<Request>): (ps: seq<Payload>)
    ensures |ps| == |rs| && forall i :: 0 <= i < |rs| ==> ps[i] == rs[i].Message()
  {
    seq(|rs|, i requires 0 <= i < |rs| => rs[i].Message())
  }

  function Header(r: Request): seq<Byte> {
    match r
    case Plain(d) => Be32(|d|)
    case Flagged(f, d) => Be32(|d| + 1) + [f]
  }

  lemma HeaderThenBody(r: Request)
    ensures Header(r) + r.data == Frame(r.Message())
  {
  }

  /** Only the mutex holder is past `Waiting`, and a waiting caller has touched nothing. */
  ghost predicate Exclusive(s: State) {
    && (forall t :: t in s.calls && s.calls[t].phase != Waiting ==> s.holder == Some(t))
    && (s.holder.Some? ==> s.holder.value in s.calls && s.calls[s.holder.value].phase != Waiting)
  }

  /** The shared scratch belongs to the holder from the moment it is filled. */
  ghost predicate ScratchOwned(s: State) {
    && |s.p| == 4 && |s.pwf| == 5
    && (s.holder.Some? && s.holder.value in s.calls ==>
          var c := s.calls[s.holder.value];
          && (c.phase.LengthFilled? ==> c.request.Flagged? && s.pwf[..4] == Be32(|c.request.data| + 1))
          && (c.phase.HeaderFilled? ==> Scratch(s, c.request) == Header(c.request)))
  }

  /** How far the frame of the request that is next in lock order has come. */
  ghost predicate Tail(s: State, tail: seq<Byte>) {
    && s.out == Stream(Messages(s.sent)) + tail
    && s.sent <= s.order
    && (tail == [] ||
        (|s.sent| < |s.order| && tail < Frame(s.order[|s.sent|].Message())))
  }

  ghost predicate Progress(s: State, tail: seq<Byte>) {
    !s.broken ==>
      if s.holder == None || s.holder.value !in s.calls then s.sent == s.order && tail == []
      else
        var c := s.calls[s.holder.value];
        && |s.order| > 0 && s.order[|s.order| - 1] == c.request
        && (c.phase.Finished? || (c.phase.HeaderSent? && c.request.data == []) ==> s.sent == s.order && tail == [])
        && (!c.phase.Finished? && !(c.phase.HeaderSent? && c.request.data == []) ==>
              |s.sent| == |s.order| - 1 && tail == if c.phase.HeaderSent? then Header(c.request) else [])
  }

  ghost predicate Inv(s: State, tail: seq<Byte>) {
    Exclusive(s) && ScratchOwned(s) && Tail(s, tail) && Progress(s, tail)
  }

  lemma SentOne(s: State, r: Request)
    ensures Stream(Messages(s.sent + [r])) == Stream(Messages(s.sent)) + Frame(r.Message())
  {
    assert Messages(s.sent + [r]) == Messages(s.sent) + [r.Message()];
    StreamAppend(Messages(s.sent), [r.Message()]);
    assert Stream([r.Message()]) == Frame(r.Message());
  }

  lemma ExclusiveKept(s: State, e: Event)
    requires Exclusive(s)
    ensures Exclusive(Step(s, e))
  {
  }

  lemma ScratchKept(s: State, e: Event)
    requires Exclusive(s) && ScratchOwned(s)
    ensures ScratchOwned(Step(s, e))
  {
    if e.FillLength? && At(s, e.t, Locked) && s.calls[e.t].request.Flagged? {
      var word := Be32(|s.calls[e.t].request.data| + 1);
      assert (word + s.pwf[4..])[..4] == word;
    }
  }

  /** What is in the stream of the holder's frame after `n` more bytes of the part being sent. */
  lemma PartOfFrame(h: seq<Byte>, data: seq<Byte>, n: nat)
    ensures n <= |h| && (n < |h| || data != []) ==> h[..n] < h + data
    ensures n < |data| ==> h + data[..n] < h + data
    ensures n == |data| ==> h + data[..n] == h + data
  {
    if n < |data| {
      assert h + data[..n] == (h + data)[..|h| + n];
    }
  }

  /** The header of a request, as bytes of the stream. */
  lemma HeaderTail(s: State, tail: seq<Byte>, r: Request, n: nat) returns (tail': seq<Byte>)
    requires Tail(s, tail) && tail == [] && s.order == s.sent + [r] && n <= |Header(r)|
    ensures tail' == if n == |Header(r)| && r.data == [] then [] else Header(r)[..n]
    ensures s.out + Header(r)[..n] ==
            Stream(Messages(if n == |Header(r)| && r.data == [] then s.sent + [r] else s.sent)) + tail'
    ensures tail' == [] || tail' < Frame(r.Message())
  {
    var h := Header(r);
    HeaderThenBody(r);
    PartOfFrame(h, r.data, n);
    if n == |h| && r.data == [] {
      tail' := [];
      SentOne(s, r);
      assert h[..n] == h + r.data;
    } else {
      tail' := h[..n];
    }
  }

  lemma HeaderProgress(s: State, tail: seq<Byte>, t: nat, n: nat, ok: bool, tail': seq<Byte>)
    requires Exclusive(s) && ScratchOwned(s) && Progress(s, tail) && At(s, t, HeaderFilled) && !s.broken
    requires Possible(s, |Header(s.calls[t].request)|, n, ok)
    requires tail' == if n == |Header(s.calls[t].request)| && s.calls[t].request.data == [] then []
                      else Header(s.calls[t].request)[..n]
    requires s.sent + [s.calls[t].request] == s.order
    ensures Progress(Step(s, SendHeader(t, n, ok)), tail')
  {
    var h := Header(s.calls[t].request);
    assert ok ==> h[..n] == h;
  }

  /** The holder's header goes out: its frame is complete only if it has no body. */
  lemma HeaderKeeps(s: State, tail: seq<Byte>, t: nat, n: nat, ok: bool) returns (tail': seq<Byte>)
    requires Inv(s, tail) && At(s, t, HeaderFilled) && !s.broken
    requires Possible(s, |Header(s.calls[t].request)|, n, ok)
    ensures var s' := Step(s, SendHeader(t, n, ok)); Tail(s', tail') && Progress(s', tail')
  {
    var r := s.calls[t].request;
    var s' := Step(s, SendHeader(t, n, ok));
    assert s.holder == Some(t) && Scratch(s, r) == Header(r) && tail == [] && s.sent + [r] == s.order;
    tail' := HeaderTail(s, tail, r, n);
    assert s'.out == s.out + Header(r)[..n] && s'.order == s.order;
    HeaderProgress(s, tail, t, n, ok, tail');
  }

  /** The body of a request whose header has been sent, as bytes of the stream. */
  lemma BodyTail(s: State, tail: seq<Byte>, r: Request, n: nat) returns (tail': seq<Byte>)
    requires Tail(s, tail) && tail == Header(r) && s.order == s.sent + [r] && r.data != [] && n <= |r.data|
    ensures tail' == if n == |r.data| then [] else Header(r) + r.data[..n]
    ensures s.out + r.data[..n] == Stream(Messages(if n == |r.data| then s.sent + [r] else s.sent)) + tail'
    ensures n < |r.data| ==> tail' < Frame(r.Message())
  {
    var h := Header(r);
    HeaderThenBody(r);
    PartOfFrame(h, r.data, n);
    var base := Stream(Messages(s.sent));
    assert (base + h) + r.data[..n] == base + (h + r.data[..n]);
    if n == |r.data| {
      tail' := [];
      SentOne(s, r);
    } else {
      tail' := h + r.data[..n];
    }
  }

  /** The holder's body goes out: the frame is complete once its last byte is accepted. */
  lemma BodyKeeps(s: State, tail: seq<Byte>, t: nat, n: nat, ok: bool) returns (tail': seq<Byte>)
    requires Inv(s, tail) && At(s, t, HeaderSent) && !s.broken
    requires Possible(s, |s.calls[t].request.data|, n, ok)
    ensures var s' := Step(s, SendBody(t, n, ok)); Tail(s', tail') && Progress(s', tail')
  {
    var r := s.calls[t].request;
    var s' := Step(s, SendBody(t, n, ok));
    assert s.holder == Some(t) && s'.order == s.order && s'.broken == !ok;
    assert s'.out == s.out + r.data[..n];
    if r.data == [] {
      tail' := [];
      assert s'.out == s.out && s'.sent == s.sent;
    } else {
      tail' := BodyTail(s, tail, r, n);
      assert s.sent + [r] == s.order;
    }
  }

  /** A step that sends no byte. */
  ghost predicate Quiet(s: State, e: Event) {
    (e.SendHeader? || e.SendBody?) ==> s.broken || Step(s, e) == s
  }

  lemma QuietTail(s: State, tail: seq<Byte>, e: Event)
    requires Tail(s, tail) && Quiet(s, e) && |s.p| == 4 && |s.pwf| == 5
    ensures Tail(Step(s, e), tail) && Step(s, e).broken == s.broken
  {
    var s' := Step(s, e);
    if s' != s {
      match e
      case Enter(_, _) =>
      case Lock(_) =>
      case FillLength(t) => if s.calls[t].request.Plain? {}
      case FillFlags(_) =>
      case SendHeader(_, _, _) => assert s'.out == s.out + [];
      case SendBody(_, _, _) => assert s'.out == s.out + [];
      case Unlock(_) =>
    }
    assert s'.out == s.out && s'.sent == s.sent && s.order <= s'.order;
  }

  lemma QuietProgress(s: State, tail: seq<Byte>, e: Event)
    requires Exclusive(s) && Progress(s, tail) && !s.broken && Quiet(s, e)
    ensures Progress(Step(s, e), tail)
  {
    if Step(s, e) != s {
      match e
      case Enter(_, _) =>
      case Lock(_) =>
      case FillLength(t) => assert s.holder == Some(t);
      case FillFlags(t) => assert s.holder == Some(t);
      case SendHeader(_, _, _) =>
      case SendBody(_, _, _) =>
      case Unlock(t) => assert s.holder == Some(t);
    }
  }

  /** Every other step leaves the stream alone. */
  lemma QuietKeeps(s: State, tail: seq<Byte>, e: Event)
    requires Inv(s, tail) && Quiet(s, e)
    ensures Tail(Step(s, e), tail) && Progress(Step(s, e), tail)
  {
    QuietTail(s, tail, e);
    if !s.broken {
      QuietProgress(s, tail, e);
    }
  }

  lemma StepKeeps(s: State, tail: seq<Byte>, e: Event) returns (tail': seq<Byte>)
    requires Inv(s, tail)
    ensures Inv(Step(s, e), tail')
  {
    ExclusiveKept(s, e);
    ScratchKept(s, e);
    if e.SendHeader? && Step(s, e) != s && !s.broken {
      tail' := HeaderKeeps(s, tail, e.t, e.accepted, e.ok);
    } else if e.SendBody? && Step(s, e) != s && !s.broken {
      tail' := BodyKeeps(s, tail, e.t, e.accepted, e.ok);
    } else {
      tail' := tail;
      QuietKeeps(s, tail, e);
    }
  }

  lemma {:induction false} RunKeeps(es: seq<Event>) returns (tail: seq<Byte>)
    ensures Inv(Run(es), tail)
  {
    if es == [] {
      tail := [];
    } else {
      var before := RunKeeps(es[..|es| - 1]);
      tail := StepKeeps(Run(es[..|es| - 1]), before, es[|es| - 1]);
    }
  }

  /**
    In every interleaving the stream is whole frames in lock order followed by at most one
    proper prefix of the next request's frame. Unless a write failed, that partial frame and
    the one missing request belong to the goroutine holding the mutex.
   */
  lemma StreamIsWholeFramesInLockOrder(es: seq<Event>) returns (tail: seq<Byte>)
    ensures var s := Run(es);
      && s.sent <= s.order
      && s.out == Stream(Messages(s.sent)) + tail
      && (tail != [] ==> |s.sent| < |s.order| && tail < Frame(s.order[|s.sent|].Message()))
      && (!s.broken ==> |s.order| <= |s.sent| + (if s.holder.Some? then 1 else 0))
      && (!s.broken && s.holder.Some? && s.sent != s.order ==>
            s.holder.value in s.calls && s.order[|s.sent|] == s.calls[s.holder.value].request)
  {
    tail := RunKeeps(es);
  }

  /** In every interleaving at most one goroutine is between lock and unlock. */
  lemma MutualExclusion(es: seq<Event>, t: nat, u: nat)
    requires t in Run(es).calls && !Run(es).calls[t].phase.Waiting?
    requires u in Run(es).calls && !Run(es).calls[u].phase.Waiting?
    ensures t == u
  {
    var tail := RunKeeps(es);
  }

  /**
    In every interleaving a reader recovers exactly the messages whose frames are complete,
    in lock order; when nobody holds the mutex and no write failed, that is all of them.
   */
  lemma ReaderRecoversMessages(es: seq<Event>)
    requires Framable(Messages(Run(es).order))
    ensures ReadAll(Run(es).out) == Messages(Run(es).sent)
    ensures Messages(Run(es).sent) <= Messages(Run(es).order)
    ensures Run(es).holder == None && !Run(es).broken ==> ReadAll(Run(es).out) == Messages(Run(es).order)
  {
    var s := Run(es);
    var tail := RunKeeps(es);
    forall i | 0 <= i < |s.sent| ensures |Messages(s.sent)[i]| < WORD {
      assert Messages(s.sent)[i] == Messages(s.order)[i];
    }
    if tail != [] {
      var next := s.order[|s.sent|].Message();
      assert |Messages(s.order)[|s.sent|]| < WORD;
      assert tail == Frame(next)[..|tail|];
      ProperPrefixIsShort(next, |tail|);
    }
    ReadAllStream(Messages(s.sent), tail);
  }
}
