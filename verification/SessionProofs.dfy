/** What one session guarantees over its whole life, whatever its siblings do to the counters
    and the core between its updates. */
module SessionProofs {
  import opened Clock
  import opened SharedStates
  import opened SessionModel

  // ----- lives

  /** One call on a session; counters and core are whatever they are at that moment. */
  datatype Call =
    | UpdateCall(c: Counters, hw: CoreState, epoch: nat, i: UpdateInput)
    | ShutDownCall(c: Counters, hw: CoreState, stop: StopInput)

  function After(s: Session, call: Call): Session {
    match call
    case UpdateCall(c, hw, epoch, i) => Update(Local(s, c, hw), epoch, i).s
    case ShutDownCall(c, hw, i) => ShutDown(Local(s, c, hw), i).s
  }

  function Life(s: Session, calls: seq<Call>): Session {
    if calls == [] then s
    else After(Life(s, calls[..|calls| - 1]), calls[|calls| - 1])
  }

  // ----- what the client receives

  /** The payload of a client stream. */
  function Sent(out: seq<ClientEvent>): seq<byte> {
    if out == [] then []
    else
      var last := out[|out| - 1];
      Sent(out[..|out| - 1]) + if last.Data? then last.bytes else []
  }

  function Flatten(chunks: seq<seq<byte>>): seq<byte> {
    if chunks == [] then [] else Flatten(chunks[..|chunks| - 1]) + chunks[|chunks| - 1]
  }

  lemma SentAppend(out: seq<ClientEvent>, e: ClientEvent)
    ensures Sent(out + [e]) == Sent(out) + if e.Data? then e.bytes else []
  {
    assert (out + [e])[..|out|] == out;
  }

  lemma FlattenAppend(chunks: seq<seq<byte>>, chunk: seq<byte>)
    ensures Flatten(chunks + [chunk]) == Flatten(chunks) + chunk
  {
    assert (chunks + [chunk])[..|chunks|] == chunks;
  }

  /** Nothing yet, or one error, or one start followed by data. */
  ghost predicate ClientGrammar(id: SessionId, out: seq<ClientEvent>) {
    || out == []
    || (|out| == 1 && out[0].Failed?)
    || (out[0] == Started(id) && forall k :: 0 < k < |out| ==> out[k].Data?)
  }

  ghost predicate StartSent(s: Session) {
    s.log.out != [] && s.log.out[0] == Started(s.id)
  }

  ghost predicate GrammarHolds(s: Session) {
    && ClientGrammar(s.id, s.log.out)
    && (s.log.out != [] ==> s.responded)
    && (s.responded && !s.state.Shutdown? ==> StartSent(s))
    && (s.state.Run? ==> s.responded)
  }

  /** Everything read has been sent, in order. */
  ghost predicate AllSent(s: Session) {
    Sent(s.log.out) == Flatten(s.log.chunks)
  }

  /** At worst some bytes at the end of the last chunk are missing. */
  ghost predicate AllSentButTail(s: Session) {
    && Sent(s.log.out) <= Flatten(s.log.chunks)
    && (s.log.chunks == [] || Flatten(s.log.chunks[..|s.log.chunks| - 1]) <= Sent(s.log.out))
  }

  ghost predicate FidelityHolds(s: Session) {
    && AllSentButTail(s)
    && (!s.log.deliveryFailed ==> AllSent(s))
    && (s.log.deliveryFailed ==> s.state.Shutdown?)
  }

  // ----- what the target receives on the down channel

  /** (Start Stop?)* */
  ghost predicate PlainWord(w: seq<Command>) {
    || w == []
    || (w[|w| - 1] == StartTracing && PlainWord(w[..|w| - 1]))
    || (|w| >= 2 && w[|w| - 2..] == [StartTracing, StopTracing] && PlainWord(w[..|w| - 2]))
  }

  /** (Stop (Start Stop?)?)* */
  ghost predicate RestartWord(w: seq<Command>) {
    || w == []
    || (w[|w| - 1] == StopTracing && RestartWord(w[..|w| - 1]))
    || (|w| >= 2 && w[|w| - 2..] == [StopTracing, StartTracing] && RestartWord(w[..|w| - 2]))
    || (|w| >= 3 && w[|w| - 3..] == [StopTracing, StartTracing, StopTracing] && RestartWord(w[..|w| - 3]))
  }

  ghost predicate CommandGrammar(rtt: RttConfig, w: seq<Command>) {
    if rtt.disableControlPlane then w == []
    else if rtt.restart then RestartWord(w)
    else PlainWord(w)
  }

  ghost predicate EndsWithStart(w: seq<Command>) {
    w != [] && w[|w| - 1] == StartTracing
  }

  /** Command `k` is a Stop, and right before it comes the Start of the same episode: the one
      written by the attach attempt that opened it. */
  ghost predicate FollowsItsStart(w: seq<Command>, writers: seq<Writer>, k: nat)
    requires k < |w| == |writers|
  {
    && k > 0
    && w[k] == StopTracing && w[k - 1] == StartTracing
    && writers[k - 1] == ByAttempt(writers[k].n)
  }

  /** Every attach attempt writes at most one Start, nobody else writes one, and what a stop
      writes follows the Start of the episode it ends. */
  ghost predicate Linked(w: seq<Command>, writers: seq<Writer>, tries: nat) {
    && |writers| == |w|
    && (forall k :: 0 <= k < |w| ==> writers[k].n <= tries)
    && (forall k :: 0 <= k < |w| && w[k] == StartTracing ==> writers[k].ByAttempt?)
    && (forall j, k :: 0 <= j < k < |w| && w[j] == StartTracing == w[k] ==> writers[j].n < writers[k].n)
    && (forall k :: 0 <= k < |w| && writers[k].ByStopOf? ==> FollowsItsStart(w, writers, k))
  }

  ghost predicate LastIsBy(writers: seq<Writer>, who: Writer) {
    writers != [] && writers[|writers| - 1] == who
  }

  /** A running session has a down channel unless the control plane is off, and the last
      command on it is the Start of this very episode. */
  ghost predicate CommandsHold(s: Session) {
    && CommandGrammar(s.rtt, s.log.cmds)
    && Linked(s.log.cmds, s.log.writers, s.log.tries)
    && s.log.opener <= s.log.tries
    && (s.state.Run? ==>
          && s.state.handles.hasDownChannel == !s.rtt.disableControlPlane
          && (s.state.handles.hasDownChannel ==>
                EndsWithStart(s.log.cmds) && LastIsBy(s.log.writers, ByAttempt(s.log.opener))))
  }

  lemma LinkedPlusOne(w: seq<Command>, writers: seq<Writer>, tries: nat, c: Command, who: Writer)
    requires Linked(w, writers, tries) && who.n <= tries && (c == StartTracing ==> StartsOlder(w, writers, who.n))
    requires who.ByStopOf? ==> c == StopTracing && EndsWithStart(w) && LastIsBy(writers, ByAttempt(who.n))
    ensures Linked(w + [c], writers + [who], tries)
    ensures LastIsBy(writers + [who], who)
  {
    var w2, writers2 := w + [c], writers + [who];
    forall k | 0 <= k < |w2| && writers2[k].ByStopOf?
      ensures FollowsItsStart(w2, writers2, k)
    {
      assert k < |w| ==> FollowsItsStart(w, writers, k);
    }
  }

  /** What an attempt may write: a Stop, a Start, or both in this order. */
  predicate AttemptWord(w: seq<Command>) {
    w == [] || w == [StopTracing] || w == [StartTracing] || w == [StopTracing, StartTracing]
  }

  lemma AttemptWrites(rtt: RttConfig, i: AttachInput)
    ensures AttemptWord(AttachCommands(rtt, i).0)
  {
    assert [] + [StartTracing] == [StartTracing];
    assert [StopTracing] + [StartTracing] == [StopTracing, StartTracing];
  }

  ghost predicate StartsOlder(w: seq<Command>, writers: seq<Writer>, n: nat)
    requires |writers| == |w|
  {
    forall k :: 0 <= k < |w| && w[k] == StartTracing ==> writers[k].n < n
  }

  lemma LinkedLater(w: seq<Command>, writers: seq<Writer>, n: nat)
    requires Linked(w, writers, n)
    ensures Linked(w, writers, n + 1) && StartsOlder(w, writers, n + 1)
  {
  }

  lemma LinkedAttempt(log: Log, cmds: seq<Command>)
    requires Linked(log.cmds, log.writers, log.tries)
    requires AttemptWord(cmds)
    ensures var log2 := Wrote(Tried(log), cmds, ByAttempt(log.tries + 1));
            && Linked(log2.cmds, log2.writers, log2.tries)
            && (cmds != [] ==> LastIsBy(log2.writers, ByAttempt(log2.tries)))
  {
    hide Linked, LastIsBy, StartsOlder;
    var who := ByAttempt(log.tries + 1);
    LinkedLater(log.cmds, log.writers, log.tries);
    if cmds == [] {
      NothingWritten(Tried(log), who);
    } else if |cmds| == 1 {
      LinkedPlusOne(log.cmds, log.writers, log.tries + 1, cmds[0], who);
      assert seq(|cmds|, k => who) == [who];
    } else {
      LinkedStopStart(log.cmds, log.writers, log.tries + 1);
      assert log.cmds + cmds == log.cmds + [StopTracing] + [StartTracing];
      assert log.writers + seq(|cmds|, k => who) == log.writers + [who] + [who];
    }
  }

  lemma LinkedStopStart(w: seq<Command>, writers: seq<Writer>, n: nat)
    requires Linked(w, writers, n) && StartsOlder(w, writers, n)
    ensures var who := ByAttempt(n);
            && Linked(w + [StopTracing] + [StartTracing], writers + [who] + [who], n)
            && LastIsBy(writers + [who] + [who], who)
  {
    LinkedPlusOne(w, writers, n, StopTracing, ByAttempt(n));
    LinkedPlusOne(w + [StopTracing], writers + [ByAttempt(n)], n, StartTracing, ByAttempt(n));
  }

  lemma LinkedStop(s: Session, i: StopInput)
    requires CommandsHold(s)
    ensures var log2 := Wrote(s.log, StopCommands(s, i), ByStopOf(s.log.opener));
            Linked(log2.cmds, log2.writers, log2.tries)
  {
    hide CommandGrammar;
    if StopCommands(s, i) == [] {
      NothingWritten(s.log, ByStopOf(s.log.opener));
    } else {
      LinkedPlusOne(s.log.cmds, s.log.writers, s.log.tries, StopTracing, ByStopOf(s.log.opener));
    }
  }

  lemma PlainStart(w: seq<Command>)
    requires PlainWord(w)
    ensures PlainWord(w + [StartTracing])
  {
    assert (w + [StartTracing])[..|w|] == w;
  }

  lemma RestartStop(w: seq<Command>)
    requires RestartWord(w)
    ensures RestartWord(w + [StopTracing])
  {
    assert (w + [StopTracing])[..|w|] == w;
  }

  lemma RestartStopStart(w: seq<Command>)
    requires RestartWord(w)
    ensures RestartWord(w + [StopTracing, StartTracing])
  {
    var v := w + [StopTracing, StartTracing];
    assert v[..|v| - 2] == w && v[|v| - 2..] == [StopTracing, StartTracing];
  }

  lemma AttachCommandsFit(rtt: RttConfig, w: seq<Command>, i: AttachInput)
    requires CommandGrammar(rtt, w)
    ensures var (cmds, error) := AttachCommands(rtt, i);
            && CommandGrammar(rtt, w + cmds)
            && (error.None? && !rtt.disableControlPlane ==> EndsWithStart(w + cmds))
  {
    hide PlainWord, RestartWord;
    var (cmds, error) := AttachCommands(rtt, i);
    if cmds == [] {
      assert w + cmds == w;
    } else if !rtt.restart {
      PlainStart(w);
      assert [] + [StartTracing] == [StartTracing];
    } else if error.None? {
      RestartStopStart(w);
      assert [StopTracing] + [StartTracing] == [StopTracing, StartTracing];
    } else {
      RestartStop(w);
    }
  }

  lemma PlainStop(w: seq<Command>)
    requires PlainWord(w) && EndsWithStart(w)
    ensures PlainWord(w + [StopTracing])
  {
    var v := w + [StopTracing];
    assert v[..|v| - 2] == w[..|w| - 1];
    assert v[|v| - 2..] == [StartTracing, StopTracing];
  }

  lemma StopCommandFits(rtt: RttConfig, w: seq<Command>)
    requires CommandGrammar(rtt, w) && !rtt.disableControlPlane && EndsWithStart(w)
    ensures CommandGrammar(rtt, w + [StopTracing])
  {
    hide PlainWord, RestartWord;
    if rtt.restart {
      RestartStop(w);
    } else {
      PlainStop(w);
    }
  }

  /** What a read takes is the front of what was waiting: all of it, or a full buffer; it comes
      back empty only if nothing was waiting. */
  lemma ChunkIsFront(rtt: RttConfig, waiting: seq<byte>)
    ensures Chunk(rtt, waiting) <= waiting
    ensures Chunk(rtt, waiting) == waiting || |Chunk(rtt, waiting)| == BufferSize(rtt)
    ensures Chunk(rtt, waiting) == [] <==> waiting == []
    ensures BufferSize(rtt) >= 64
  {
  }

  // ----- lifecycle

  function Rank(state: State): nat {
    match state
    case Init => 0
    case RttAttach(_) => 1
    case Run(_) => 2
    case Stopped(_) => 3
    case Shutdown => 4
  }

  /** A stopped session says why in a way that only recovering sessions can say. */
  ghost predicate ReasonHolds(s: Session) {
    s.state.Stopped? ==>
      && s.state.reason != ByShutdown
      && (s.state.reason.ByError? ==>
            s.target.autoRecover && s.state.reason.error != ClientDisconnected)
  }

  /** Without recovery there is at most one Run episode. */
  ghost predicate RunsHold(s: Session) {
    !s.target.autoRecover ==> s.log.runs <= if Rank(s.state) < 2 then 0 else 1
  }

  ghost predicate Sound(s: Session) {
    GrammarHolds(s) && FidelityHolds(s) && CommandsHold(s) && ReasonHolds(s) && RunsHold(s)
  }

  /** What holds in the middle of an update that ran into an error: the state has not moved on
      yet, and after a failed write the client lacks the tail of the last chunk. */
  ghost predicate SoundButFor(s: Session, error: Error) {
    && GrammarHolds(s) && CommandsHold(s) && RunsHold(s)
    && CanStop(s)
    && AllSentButTail(s)
    && (error.ClientDisconnected? ==> s.responded)
    && (error.ClientDisconnected? <==> s.log.deliveryFailed)
    && (!s.log.deliveryFailed ==> AllSent(s))
  }

  lemma NewSessionIsSound(id: SessionId, target: TargetConfig, rtt: RttConfig, now: Time)
    ensures Sound(NewSession(id, target, rtt, now))
  {
  }

  lemma StopCommandsKeep(s: Session, i: StopInput)
    requires CommandsHold(s)
    ensures CommandGrammar(s.rtt, s.log.cmds + StopCommands(s, i))
  {
    if StopCommands(s, i) == [] {
      assert s.log.cmds + [] == s.log.cmds;
    } else {
      StopCommandFits(s.rtt, s.log.cmds);
    }
  }

  lemma StopIsSound(l: Local, reason: StoppedReason, i: StopInput)
    requires GrammarHolds(l.s) && FidelityHolds(l.s) && CommandsHold(l.s) && RunsHold(l.s) && CanStop(l.s)
    requires ReasonHolds(l.s.(state := Stopped(reason)))
    ensures Sound(Stop(l, reason, i).s)
  {
    hide CommandGrammar, Linked, EndsWithStart, Sent, Flatten, StopCommands, StoppedCore;
    StopCommandsKeep(l.s, i);
    LinkedStop(l.s, i);
  }

  lemma ShutDownIsSound(l: Local, i: StopInput)
    requires GrammarHolds(l.s) || (ClientGrammar(l.s.id, l.s.log.out) && l.s.responded)
    requires AllSentButTail(l.s) && (!l.s.log.deliveryFailed ==> AllSent(l.s)) && CommandsHold(l.s) && RunsHold(l.s)
    ensures Sound(ShutDown(l, i).s)
  {
    hide CommandGrammar, Linked, EndsWithStart, Sent, Flatten, StopCommands, StoppedCore;
    StopCommandsKeep(l.s, i);
    LinkedStop(l.s, i);
  }

  lemma InnerInitIsSound(l: Local, i: UpdateInput)
    requires Sound(l.s) && l.s.state.Init?
    ensures var o := InnerInit(l, i);
            if o.error.Some? then SoundButFor(o.l.s, o.error.value) else Sound(o.l.s)
  {
    hide DoInit;
    var o := DoInit(l.s.target, l.s.rtt, l.c, l.hw, i.init);
    assert o.error.Some? ==> !o.error.value.ClientDisconnected? by { InitErrors(l, i.init); }
  }

  lemma InitErrors(l: Local, i: InitInput)
    ensures var error := DoInit(l.s.target, l.s.rtt, l.c, l.hw, i).error;
            error.Some? ==> !error.value.ClientDisconnected?
  {
  }

  /** One attach attempt: its commands fit the grammar, and its error is never a lost client. */
  lemma AttachOutcomeFits(s: Session, c: Counters, hw: CoreState, i: AttachInput)
    requires CommandsHold(s)
    ensures var o := DoRttAttach(s.target, s.rtt, c, hw, i);
            && CommandGrammar(s.rtt, s.log.cmds + o.cmds)
            && (o.error.None? && !s.rtt.disableControlPlane ==> EndsWithStart(s.log.cmds + o.cmds))
            && (o.error.Some? ==> !o.error.value.ClientDisconnected?)
            && AttemptWord(o.cmds)
            && (o.error.None? && !s.rtt.disableControlPlane ==> o.cmds != [])
  {
    hide CommandGrammar, Linked, EndsWithStart;
    AttachCommandsFit(s.rtt, s.log.cmds, i);
    AttemptWrites(s.rtt, i);
    assert s.log.cmds + [] == s.log.cmds;
  }

  lemma InnerAttachIsSound(l: Local, epoch: nat, i: UpdateInput)
    requires Sound(l.s) && l.s.state.RttAttach?
    ensures var o := InnerAttach(l, epoch, i);
            if o.error.Some? then SoundButFor(o.l.s, o.error.value) else Sound(o.l.s)
  {
    hide DoRttAttach, CommandGrammar, Linked, EndsWithStart, LastIsBy, Sent, Flatten;
    AttachOutcomeFits(l.s, l.c, l.hw, i.attach);
    LinkedAttempt(l.s.log, DoRttAttach(l.s.target, l.s.rtt, l.c, l.hw, i.attach).cmds);
    SentAppend(l.s.log.out, Started(l.s.id));
  }

  lemma SentData(out: seq<ClientEvent>, bytes: seq<byte>)
    ensures Sent(out + DataEvent(bytes)) == Sent(out) + bytes
  {
    if bytes == [] {
      assert out + [] == out;
    } else {
      SentAppend(out, Data(bytes));
    }
  }

  lemma PrefixIsFront(bytes: seq<byte>, n: nat)
    ensures Prefix(bytes, n) <= bytes
  {
  }

  /** Delivering a chunk keeps the payload in step with what was read. */
  lemma DeliverIsFaithful(s: Session, chunk: seq<byte>, i: RunInput)
    requires AllSent(s) && chunk != []
    ensures AllSentButTail(Deliver(s, chunk, i).s)
    ensures i.writeOk ==> AllSent(Deliver(s, chunk, i).s)
  {
    hide Sent, Flatten, Prefix, DataEvent;
    FlattenAppend(s.log.chunks, chunk);
    assert (s.log.chunks + [chunk])[..|s.log.chunks|] == s.log.chunks;
    SentData(s.log.out, if i.writeOk then chunk else Prefix(chunk, i.written));
    PrefixIsFront(chunk, i.written);
  }

  lemma DeliverIsSound(s: Session, chunk: seq<byte>, i: RunInput)
    requires Sound(s) && s.state.Run? && chunk != []
    ensures var o := Deliver(s, chunk, i);
            && o.s.state == s.state
            && if o.error.Some? then SoundButFor(o.s, o.error.value) else Sound(o.s)
  {
    hide AllSent, AllSentButTail, CommandGrammar, Linked, EndsWithStart;
    DeliverIsFaithful(s, chunk, i);
  }

  lemma DoRunIsSound(s: Session, time: Readings, i: RunInput)
    requires Sound(s) && s.state.Run?
    ensures var o := DoRun(s, time, i);
            && o.s.state == s.state
            && if o.error.Some? then SoundButFor(o.s, o.error.value) else Sound(o.s)
  {
    hide Deliver, ReadDue, Chunk, ClientGrammar, Sent, Flatten, CommandGrammar, Linked, EndsWithStart, HaltCondition;
    if i.coreOk {
      var s1 := AfterReadCheck(s, time.t1);
      if ReadDue(s, time.t1) && i.read.Some? && Chunk(s.rtt, i.read.value) != [] {
        DeliverIsSound(s1.(lastReadHadData := true), Chunk(s.rtt, i.read.value), i);
      } else {
        HaltErrors(i);
      }
    }
  }

  lemma HaltErrors(i: RunInput)
    ensures HaltCondition(i).0.Some? ==> !HaltCondition(i).0.value.ClientDisconnected?
  {
  }

  lemma InnerRunIsSound(l: Local, i: UpdateInput)
    requires Sound(l.s) && l.s.state.Run?
    ensures var o := InnerRun(l, i);
            if o.error.Some? then SoundButFor(o.l.s, o.error.value) else Sound(o.l.s)
  {
    hide DoRun, Stop;
    DoRunIsSound(l.s, i.time, i.run);
    var o := DoRun(l.s, i.time, i.run);
    if o.error.None? {
      match o.condition
      case NotReached =>
      case AtBreakpoint(address) => StopIsSound(l.(s := o.s), ByBreakpoint(address), i.stop);
      case AtResetCatch => StopIsSound(l.(s := o.s), ByResetCatch, i.stop);
    }
  }

  lemma HandleErrorIsSound(l: Local, error: Error, i: UpdateInput)
    requires SoundButFor(l.s, error)
    ensures Sound(HandleError(l, error, i).s)
  {
    hide Stop, ShutDown;
    if l.s.target.autoRecover && !error.ClientDisconnected? {
      StopIsSound(l, ByError(error), i.stop);
    } else {
      SentAppend(l.s.log.out, Failed(error));
      var s1 :=
        if l.s.responded then l.s
        else
          l.s.(responded := true,
               log := if i.errorResponseOk then l.s.log.(out := l.s.log.out + [Failed(error)]) else l.s.log);
      ShutDownIsSound(l.(s := s1), i.stop);
    }
  }

  lemma UpdateIsSound(l: Local, epoch: nat, i: UpdateInput)
    requires Sound(l.s)
    ensures Sound(Update(l, epoch, i).s)
  {
    hide InnerInit, InnerAttach, InnerRun, HandleError, Sound, SoundButFor, Recover;
    match l.s.state {
      case Init => InnerInitIsSound(l, i);
      case RttAttach(_) => InnerAttachIsSound(l, epoch, i);
      case Run(_) => InnerRunIsSound(l, i);
      case Stopped(_) => RecoverIsSound(l.s, i.time.t1, i.recover);
      case Shutdown =>
    }
    var o := UpdateInner(l, epoch, i);
    if CanStop(l.s) && o.error.Some? {
      HandleErrorIsSound(o.l, o.error.value, i);
    }
  }

  lemma RecoverIsSound(s: Session, now: Time, i: RecoverInput)
    requires Sound(s) && s.state.Stopped?
    ensures s.target.autoRecover ==> Sound(Recover(s, now, i))
  {
    hide CommandGrammar, Linked, ClientGrammar, Sent, Flatten;
  }

  lemma {:induction false} LifeIsSound(s: Session, calls: seq<Call>)
    requires Sound(s)
    ensures Sound(Life(s, calls))
  {
    hide Update, ShutDown, Sound;
    if calls != [] {
      var before := Life(s, calls[..|calls| - 1]);
      LifeIsSound(s, calls[..|calls| - 1]);
      match calls[|calls| - 1]
      case UpdateCall(c, hw, epoch, i) => UpdateIsSound(Local(before, c, hw), epoch, i);
      case ShutDownCall(c, hw, i) => SoundShutDown(Local(before, c, hw), i);
    }
  }

  lemma SoundShutDown(l: Local, i: StopInput)
    requires Sound(l.s)
    ensures Sound(ShutDown(l, i).s)
  {
    ShutDownIsSound(l, i);
  }

  // ----- stops and the episodes they end

  /** A Run episode is opened by an attach attempt of its own, whose Start is then the last
      command; which attempt that was does not change as long as the episode lasts. */
  lemma EpisodeHasItsAttempt(l: Local, epoch: nat, i: UpdateInput)
    requires Sound(l.s)
    ensures var log, s2 := l.s.log, Update(l, epoch, i).s;
            if l.s.state.RttAttach? && s2.state.Run? then
              && log.opener < s2.log.opener == log.tries + 1
              && (!s2.rtt.disableControlPlane ==>
                    EndsWithStart(s2.log.cmds) && LastIsBy(s2.log.writers, ByAttempt(s2.log.opener)))
            else s2.log.opener == log.opener
  {
    hide DoInit, DoRttAttach, DoRun, HandleError, Stop, Sound, EndsWithStart, LastIsBy;
    UpdateIsSound(l, epoch, i);
    var o := UpdateInner(l, epoch, i);
    if o.error.Some? {
      FailureKeepsOpener(o.l, o.error.value, i);
    }
    var run := DoRun(l.s, i.time, i.run);
    DoRunKeepsOpener(l.s, i.time, i.run);
    if run.condition.AtBreakpoint? {
      StopKeepsOpener(l.(s := run.s), ByBreakpoint(run.condition.address), i.stop);
    }
    StopKeepsOpener(l.(s := run.s), ByResetCatch, i.stop);
    if Update(l, epoch, i).s.state.Run? && !Update(l, epoch, i).s.rtt.disableControlPlane {
      RunningCommands(Update(l, epoch, i).s);
    }
    OpenerWasTried(l.s);
  }

  lemma RunningCommands(s: Session)
    requires Sound(s) && s.state.Run? && !s.rtt.disableControlPlane
    ensures EndsWithStart(s.log.cmds) && LastIsBy(s.log.writers, ByAttempt(s.log.opener))
  {
  }

  lemma OpenerWasTried(s: Session)
    requires Sound(s)
    ensures s.log.opener <= s.log.tries
  {
  }

  lemma DoRunKeepsOpener(s: Session, time: Readings, i: RunInput)
    ensures var s2 := DoRun(s, time, i).s;
            s2.log.opener == s.log.opener && s2.state == s.state
  {
    hide ReadDue, Chunk, HaltCondition, DataEvent;
  }

  lemma StopKeepsOpener(l: Local, reason: StoppedReason, i: StopInput)
    ensures Stop(l, reason, i).s.log.opener == l.s.log.opener && !CanStop(Stop(l, reason, i).s)
  {
    hide StoppedCore, StopCommands;
  }

  lemma FailureKeepsOpener(l: Local, error: Error, i: UpdateInput)
    ensures HandleError(l, error, i).s.log.opener == l.s.log.opener && !CanStop(HandleError(l, error, i).s)
  {
    hide StoppedCore, StopCommands;
  }

  /** Whatever a stop writes over a whole life comes right after the Start that the attempt
      which opened the stopped episode wrote, and that attempt wrote no other. */
  lemma StopFollowsItsStart(s: Session, calls: seq<Call>, k: nat)
    requires Sound(s) && k < |Life(s, calls).log.writers| && Life(s, calls).log.writers[k].ByStopOf?
    ensures var log := Life(s, calls).log;
            && |log.writers| == |log.cmds| && k > 0
            && log.cmds[k] == StopTracing && log.cmds[k - 1] == StartTracing
            && log.writers[k - 1] == ByAttempt(log.writers[k].n)
            && forall j | 0 <= j < |log.cmds| && j != k - 1 && log.cmds[j] == StartTracing ::
                 log.writers[j] != ByAttempt(log.writers[k].n)
  {
    hide Life, CommandGrammar, GrammarHolds, FidelityHolds, FollowsItsStart;
    LifeIsSound(s, calls);
    var log := Life(s, calls).log;
    StopAfterStart(log.cmds, log.writers, log.tries, k);
  }

  lemma StopAfterStart(w: seq<Command>, writers: seq<Writer>, tries: nat, k: nat)
    requires Linked(w, writers, tries) && k < |w| && writers[k].ByStopOf?
    ensures FollowsItsStart(w, writers, k)
    ensures k > 0 && w[k] == StopTracing && w[k - 1] == StartTracing && writers[k - 1] == ByAttempt(writers[k].n)
    ensures forall j | 0 <= j < |w| && j != k - 1 && w[j] == StartTracing :: writers[j] != ByAttempt(writers[k].n)
  {
  }
}
