/** The HITL verdict gateway (`janus/src/gateway/mod.rs`): callbacks over HTTP
    and from the TUI, awaiters with a timeout, and the expiry race over one map
    under a lock. Every operation is split into the steps between which others
    can run: a callback marks under the lock and sends outside it; an awaiter
    takes its receiver under the lock and waits outside it. Receiving or timing
    out is one step, in which a value that is there wins. */
module Gateway {
  import opened Wrappers

  type Cid = string
  type CallbackId = nat
  type AwaiterId = nat

  datatype Verdict = Approve | Reject | Override(argv: seq<string>)

  datatype CallbackStatus = Resolved | Conflict | Gone | Unauthorized | BadRequest

  /** A pending map entry; `tx` and `rx` say whether it still holds them. */
  datatype Entry = Entry(tx: bool, rx: bool, expiresAt: int, resolved: bool)

  datatype Sender = SenderInEntry | SenderHeldBy(callback: CallbackId) | SenderGone

  datatype Receiver = ReceiverInEntry | ReceiverHeldBy(awaiter: AwaiterId) | ReceiverGone

  /** The one-shot channel of a correlation id: where its ends are and what was
      sent. The last four fields are history that no step looks at. */
  datatype Channel = Channel(
    sender: Sender,
    receiver: Receiver,
    value: Option<Verdict>,
    expiresAt: int,
    owner: AwaiterId,               // the task `dispatch` spawned
    resolver: Option<CallbackId>,   // the callback that was answered Resolved
    taker: Option<AwaiterId>)       // who took the receiver

  datatype CallbackPhase = Marked(tx: bool) | Undelivered | Answered(status: CallbackStatus)

  datatype Callback = Callback(cid: Cid, verdict: Verdict, phase: CallbackPhase)

  datatype AwaitError = UnknownCid | AlreadyAwaited | SenderDropped | Timeout

  datatype AwaiterPhase =
    | Sending
    | Ready
    | Waiting(deadline: int)
    | Got(verdict: Verdict)
    | Reported(verdict: Verdict)
    | Failed(error: AwaitError)
    | Closed(error: AwaitError)

  /** A spawned verdict task, or a direct `await_verdict` caller. `known` says
      whether the task found the entry before it began to wait. */
  datatype Awaiter = Awaiter(cid: Cid, spawned: bool, timeout: nat, known: bool, phase: AwaiterPhase)

  datatype State = State(
    now: int,
    pending: map<Cid, Entry>,
    channels: map<Cid, Channel>,
    callbacks: map<CallbackId, Callback>,
    awaiters: map<AwaiterId, Awaiter>,
    sink: seq<(Cid, Verdict)>)

  // --- What each step does --------------------------------------------------

  /** Removing an entry drops whatever ends it still holds. */
  function Remove(s: State, cid: Cid): State {
    if cid !in s.pending || cid !in s.channels then s.(pending := s.pending - {cid})
    else
      var e := s.pending[cid];
      var ch := s.channels[cid];
      s.(pending := s.pending - {cid},
         channels := s.channels[cid := ch.(sender := if e.tx then SenderGone else ch.sender,
                                           receiver := if e.rx then ReceiverGone else ch.receiver)])
  }

  function SetPhase(s: State, cb: CallbackId, phase: CallbackPhase): State
    requires cb in s.callbacks
  {
    s.(callbacks := s.callbacks[cb := s.callbacks[cb].(phase := phase)])
  }

  function SetAwaiter(s: State, aw: AwaiterId, phase: AwaiterPhase): State
    requires aw in s.awaiters
  {
    s.(awaiters := s.awaiters[aw := s.awaiters[aw].(phase := phase)])
  }

  /** `dispatch` with a correlation id that was never used before. */
  function Dispatch(s: State, aw: AwaiterId, cid: Cid, secs: nat): State {
    if cid in s.channels || aw in s.awaiters then s
    else
      s.(pending := s.pending[cid := Entry(true, true, s.now + secs, false)],
         channels := s.channels[cid := Channel(SenderInEntry, ReceiverInEntry, None, s.now + secs, aw, None, None)],
         awaiters := s.awaiters[aw := Awaiter(cid, true, secs, false, Sending)])
  }

  /** The critical section both kinds of callback share. */
  function Mark(s: State, cb: CallbackId, cid: Cid, v: Verdict): State {
    if cid !in s.pending then s.(callbacks := s.callbacks[cb := Callback(cid, v, Answered(Gone))])
    else
      var e := s.pending[cid];
      if s.now > e.expiresAt then
        Remove(s, cid).(callbacks := s.callbacks[cb := Callback(cid, v, Answered(Gone))])
      else if e.resolved then
        s.(callbacks := s.callbacks[cb := Callback(cid, v, Answered(Conflict))])
      else
        s.(pending := s.pending[cid := e.(resolved := true, tx := false)],
           channels := if e.tx && cid in s.channels
                       then s.channels[cid := s.channels[cid].(sender := SenderHeldBy(cb))] else s.channels,
           callbacks := s.callbacks[cb := Callback(cid, v, Marked(e.tx))])
  }

  /** `resolve_callback` up to the send: authentication first, then the body. */
  function Http(s: State, cb: CallbackId, cid: Cid, authorized: bool, action: Option<Verdict>): State {
    if cb in s.callbacks then s
    else if !authorized then s.(callbacks := s.callbacks[cb := Callback(cid, Reject, Answered(Unauthorized))])
    else if action.None? then s.(callbacks := s.callbacks[cb := Callback(cid, Reject, Answered(BadRequest))])
    else Mark(s, cb, cid, action.value)
  }

  /** `resolve_tui` up to the send. */
  function Tui(s: State, cb: CallbackId, cid: Cid, approve: bool): State {
    if cb in s.callbacks then s else Mark(s, cb, cid, if approve then Approve else Reject)
  }

  predicate CanDeliver(s: State, cb: CallbackId) {
    cb in s.callbacks && s.callbacks[cb].phase.Marked? && s.callbacks[cb].cid in s.channels
  }

  /** `tx.send`: it fails when the receiver is gone. */
  function Deliver(s: State, cb: CallbackId): State {
    if !CanDeliver(s, cb) then s
    else
      var c := s.callbacks[cb];
      var ch := s.channels[c.cid];
      if !c.phase.tx then SetPhase(s, cb, Undelivered)
      else if ch.receiver.ReceiverGone? then
        SetPhase(s, cb, Undelivered).(channels := s.channels[c.cid := ch.(sender := SenderGone)])
      else
        SetPhase(s, cb, Answered(Resolved)).(channels :=
          s.channels[c.cid := ch.(sender := SenderGone, value := Some(c.verdict), resolver := Some(cb))])
  }

  /** An undeliverable verdict removes the dead entry and answers 410. */
  function Discard(s: State, cb: CallbackId): State {
    if cb in s.callbacks && s.callbacks[cb].phase.Undelivered?
    then SetPhase(Remove(s, s.callbacks[cb].cid), cb, Answered(Gone)) else s
  }

  function CardsSent(s: State, aw: AwaiterId): State {
    if aw in s.awaiters && s.awaiters[aw].phase.Sending?
    then s.(awaiters := s.awaiters[aw := s.awaiters[aw].(phase := Ready, known := s.awaiters[aw].cid in s.pending)])
    else s
  }

  /** A direct caller of `await_verdict`. */
  function Direct(s: State, aw: AwaiterId, cid: Cid, timeout: nat): State {
    if aw in s.awaiters then s
    else s.(awaiters := s.awaiters[aw := Awaiter(cid, false, timeout, false, Ready)])
  }

  /** The critical section of `await_verdict_inner`. */
  function Take(s: State, aw: AwaiterId): State {
    if aw !in s.awaiters || !s.awaiters[aw].phase.Ready? then s
    else
      var a := s.awaiters[aw];
      if a.cid !in s.pending || a.cid !in s.channels then SetAwaiter(s, aw, Failed(UnknownCid))
      else if !s.pending[a.cid].rx then SetAwaiter(s, aw, Failed(AlreadyAwaited))
      else
        SetAwaiter(s, aw, Waiting(s.now + a.timeout)).(
          pending := s.pending[a.cid := s.pending[a.cid].(rx := false)],
          channels := s.channels[a.cid := s.channels[a.cid].(receiver := ReceiverHeldBy(aw), taker := Some(aw))])
  }

  predicate CanPoll(s: State, aw: AwaiterId) {
    aw in s.awaiters && s.awaiters[aw].phase.Waiting? && s.awaiters[aw].cid in s.channels
  }

  /** Receive or time out. */
  function Poll(s: State, aw: AwaiterId): State {
    if !CanPoll(s, aw) then s
    else
      var a := s.awaiters[aw];
      var ch := s.channels[a.cid];
      var dropped := s.channels[a.cid := ch.(receiver := ReceiverGone)];
      if ch.value.Some? then SetAwaiter(s, aw, Got(ch.value.value)).(channels := dropped)
      else if ch.sender.SenderGone? then SetAwaiter(s, aw, Failed(SenderDropped)).(channels := dropped)
      else if s.now >= a.phase.deadline then SetAwaiter(s, aw, Failed(Timeout)).(channels := dropped)
      else s
  }

  /** What the spawned task does with the outcome: report it, or remove the entry. */
  function Finish(s: State, aw: AwaiterId): State {
    if aw !in s.awaiters || !s.awaiters[aw].spawned then s
    else
      var a := s.awaiters[aw];
      match a.phase
      case Got(v) => SetAwaiter(s, aw, Reported(v)).(sink := if a.known then s.sink + [(a.cid, v)] else s.sink)
      case Failed(e) => SetAwaiter(Remove(s, a.cid), aw, Closed(e))
      case _ => s
  }

  datatype Op =
    | ClockOp(d: nat)
    | DispatchOp(aw: AwaiterId, cid: Cid, secs: nat)
    | HttpOp(cb: CallbackId, cid: Cid, authorized: bool, action: Option<Verdict>)
    | TuiOp(cb: CallbackId, cid: Cid, approve: bool)
    | DeliverOp(cb: CallbackId)
    | DiscardOp(cb: CallbackId)
    | CardsSentOp(aw: AwaiterId)
    | DirectOp(aw: AwaiterId, cid: Cid, timeout: nat)
    | TakeOp(aw: AwaiterId)
    | PollOp(aw: AwaiterId)
    | FinishOp(aw: AwaiterId)

  function Apply(s: State, op: Op): State {
    match op
    case ClockOp(d) => s.(now := s.now + d)
    case DispatchOp(aw, cid, secs) => Dispatch(s, aw, cid, secs)
    case HttpOp(cb, cid, authorized, action) => Http(s, cb, cid, authorized, action)
    case TuiOp(cb, cid, approve) => Tui(s, cb, cid, approve)
    case DeliverOp(cb) => Deliver(s, cb)
    case DiscardOp(cb) => Discard(s, cb)
    case CardsSentOp(aw) => CardsSent(s, aw)
    case DirectOp(aw, cid, timeout) => Direct(s, aw, cid, timeout)
    case TakeOp(aw) => Take(s, aw)
    case PollOp(aw) => Poll(s, aw)
    case FinishOp(aw) => Finish(s, aw)
  }

  function Exec(s: State, ops: seq<Op>): State {
    if ops == [] then s else Apply(Exec(s, ops[..|ops| - 1]), ops[|ops| - 1])
  }

  function Start(now: int): State {
    State(now, map[], map[], map[], map[], [])
  }

  // --- The invariant --------------------------------------------------------

  /** An unresolved entry still holds its sender, and entry and channel agree. */
  predicate EntryOk(e: Entry, ch: Channel) {
    && e.expiresAt == ch.expiresAt
    && (e.tx <==> ch.sender.SenderInEntry?) && (e.rx <==> ch.receiver.ReceiverInEntry?)
    && (e.resolved <==> !e.tx)
  }

  predicate ChannelOk(s: State, cid: Cid)
    requires cid in s.channels
  {
    var ch := s.channels[cid];
    && (if cid in s.pending then EntryOk(s.pending[cid], ch)
        else !ch.sender.SenderInEntry? && !ch.receiver.ReceiverInEntry?)
    && (ch.sender.SenderHeldBy? ==>
          ch.sender.callback in s.callbacks && s.callbacks[ch.sender.callback].cid == cid
          && s.callbacks[ch.sender.callback].phase == Marked(true))
    && (ch.receiver.ReceiverHeldBy? ==> ch.taker == Some(ch.receiver.awaiter))
    && (ch.receiver.ReceiverInEntry? ==> ch.taker.None?)
    && (ch.receiver.ReceiverGone? && ch.taker.None? ==> cid !in s.pending && s.now > ch.expiresAt)
    && (ch.value.Some? <==> ch.resolver.Some?)
    && (ch.value.Some? ==>
          && ch.sender.SenderGone? && ch.resolver.value in s.callbacks
          && s.callbacks[ch.resolver.value] == Callback(cid, ch.value.value, Answered(Resolved)))
    && (ch.taker.Some? ==>
          && ch.taker.value in s.awaiters && s.awaiters[ch.taker.value].cid == cid
          && TakerOk(s.awaiters[ch.taker.value], ch))
    && ch.owner in s.awaiters && s.awaiters[ch.owner].cid == cid && s.awaiters[ch.owner].spawned
  }

  /** Whoever took the receiver waits with it, has the value, or gave up while
      there was none. */
  predicate TakerOk(a: Awaiter, ch: Channel) {
    match a.phase
    case Waiting(_) => ch.receiver.ReceiverHeldBy?
    case Got(v) => ch.receiver.ReceiverGone? && ch.value == Some(v)
    case Reported(v) => ch.receiver.ReceiverGone? && ch.value == Some(v)
    case Failed(_) => ch.receiver.ReceiverGone? && ch.value.None?
    case Closed(_) => ch.receiver.ReceiverGone? && ch.value.None?
    case _ => false
  }

  predicate CallbackOk(s: State, cb: CallbackId)
    requires cb in s.callbacks
  {
    var c := s.callbacks[cb];
    match c.phase
    case Marked(tx) => tx && c.cid in s.channels && s.channels[c.cid].sender == SenderHeldBy(cb)
    case Undelivered => c.cid in s.channels && s.channels[c.cid].receiver.ReceiverGone?
    case Answered(Resolved) => c.cid in s.channels && s.channels[c.cid].resolver == Some(cb)
    case _ => true
  }

  predicate AwaiterOk(s: State, aw: AwaiterId)
    requires aw in s.awaiters
  {
    var a := s.awaiters[aw];
    && (a.spawned ==> a.cid in s.channels && s.channels[a.cid].owner == aw)
    && (a.phase.Waiting? || a.phase.Got? || a.phase.Reported? ==>
          a.cid in s.channels && s.channels[a.cid].taker == Some(aw) && (a.spawned ==> a.known))
    && (a.spawned && a.phase.Ready? && !a.known ==> a.cid !in s.pending)
    && (a.spawned && a.phase.Failed? && a.cid in s.pending ==> !s.pending[a.cid].rx)
    && (a.phase.Closed? ==> a.spawned && a.cid !in s.pending)
    && (a.phase.Reported? ==> a.spawned)
  }

  predicate SinkOk(s: State) {
    && (forall i | 0 <= i < |s.sink| ::
          && s.sink[i].0 in s.channels && s.channels[s.sink[i].0].owner in s.awaiters
          && s.awaiters[s.channels[s.sink[i].0].owner].phase == Reported(s.sink[i].1))
    && (forall i, j | 0 <= i < j < |s.sink| :: s.sink[i].0 != s.sink[j].0)
  }

  predicate ChannelsOk(s: State) {
    && (forall cid | cid in s.pending :: cid in s.channels)
    && (forall cid | cid in s.channels :: ChannelOk(s, cid))
  }

  predicate CallbacksOk(s: State) {
    forall cb | cb in s.callbacks :: CallbackOk(s, cb)
  }

  predicate AwaitersOk(s: State) {
    forall aw | aw in s.awaiters :: AwaiterOk(s, aw)
  }

  predicate Inv(s: State) {
    ChannelsOk(s) && CallbacksOk(s) && AwaitersOk(s) && SinkOk(s)
  }

  // --- What a step about one correlation id leaves alone --------------------

  predicate SameCallback(s: State, s': State, cb: CallbackId) {
    cb in s.callbacks && cb in s'.callbacks && s'.callbacks[cb] == s.callbacks[cb]
  }

  predicate SameAwaiter(s: State, s': State, aw: AwaiterId) {
    aw in s.awaiters && aw in s'.awaiters && s'.awaiters[aw] == s.awaiters[aw]
  }

  /** Nothing of any other correlation id changed. */
  predicate About(s: State, s': State, cid: Cid) {
    && s'.now == s.now
    && s.channels.Keys <= s'.channels.Keys <= s.channels.Keys + {cid}
    && (forall x | x in s.channels && x != cid :: s'.channels[x] == s.channels[x])
    && (forall x | x in s'.pending && x != cid :: x in s.pending && s'.pending[x] == s.pending[x])
    && (forall x | x in s.pending && x != cid :: x in s'.pending)
    && (forall cb | cb in s.callbacks :: SameCallback(s, s', cb) || s.callbacks[cb].cid == cid)
    && (forall aw | aw in s.awaiters :: SameAwaiter(s, s', aw) || s.awaiters[aw].cid == cid)
  }

  lemma ChannelsStay(s: State, s': State, cid: Cid)
    requires ChannelsOk(s) && About(s, s', cid)
    requires cid in s'.pending ==> cid in s'.channels
    requires cid in s'.channels ==> ChannelOk(s', cid)
    ensures ChannelsOk(s')
  {
  }

  /** Channels only lose ends; a callback that held a sender changed with it. */
  lemma CallbacksStay(s: State, s': State)
    requires CallbacksOk(s) && s.channels.Keys <= s'.channels.Keys
    requires forall x | x in s'.callbacks :: SameCallback(s, s', x) || CallbackOk(s', x)
    requires forall x | x in s.channels ::
               && (s'.channels[x].sender == s.channels[x].sender
                   || (s.channels[x].sender.SenderHeldBy? ==> !SameCallback(s, s', s.channels[x].sender.callback)))
               && (s'.channels[x].resolver == s.channels[x].resolver || s.channels[x].resolver.None?)
               && (s.channels[x].receiver.ReceiverGone? ==> s'.channels[x].receiver.ReceiverGone?)
    ensures CallbacksOk(s')
  {
    forall x | x in s'.callbacks
      ensures CallbackOk(s', x)
    {
      if SameCallback(s, s', x) {
        assert CallbackOk(s, x);
      }
    }
  }

  /** No entry or receiver came back. */
  lemma AwaitersStay(s: State, s': State)
    requires AwaitersOk(s) && s.channels.Keys <= s'.channels.Keys
    requires forall x | x in s'.awaiters :: SameAwaiter(s, s', x) || AwaiterOk(s', x)
    requires forall x | x in s.channels ::
               && s'.channels[x].owner == s.channels[x].owner
               && (s'.channels[x].taker == s.channels[x].taker || s.channels[x].taker.None?)
               && (x in s'.pending ==> x in s.pending && (s'.pending[x].rx ==> s.pending[x].rx))
    ensures AwaitersOk(s')
  {
  }

  lemma SinkStays(s: State, s': State)
    requires SinkOk(s) && s'.sink == s.sink && s.channels.Keys <= s'.channels.Keys
    requires forall x | x in s.channels :: s'.channels[x].owner == s.channels[x].owner
    requires forall x | x in s.awaiters && s.awaiters[x].phase.Reported? :: SameAwaiter(s, s', x)
    ensures SinkOk(s')
  {
  }

  /** The four parts of the invariant at once, for one channel's step. */
  lemma StepStays(s: State, s': State, cid: Cid)
    requires Inv(s) && About(s, s', cid) && s'.sink == s.sink && cid in s.channels
    requires ChannelOk(s', cid)
    requires forall x | x in s'.callbacks :: SameCallback(s, s', x) || CallbackOk(s', x)
    requires forall x | x in s'.awaiters :: SameAwaiter(s, s', x) || AwaiterOk(s', x)
    requires forall x | x in s.awaiters && s.awaiters[x].phase.Reported? :: SameAwaiter(s, s', x)
    requires var ch, ch' := s.channels[cid], s'.channels[cid];
             && (ch'.sender == ch.sender || (ch.sender.SenderHeldBy? ==> !SameCallback(s, s', ch.sender.callback)))
             && (ch'.resolver == ch.resolver || ch.resolver.None?)
             && (ch.receiver.ReceiverGone? ==> ch'.receiver.ReceiverGone?)
             && ch'.owner == ch.owner && (ch'.taker == ch.taker || ch.taker.None?)
             && (cid in s'.pending ==> cid in s.pending && (s'.pending[cid].rx ==> s.pending[cid].rx))
    ensures Inv(s')
  {
    hide ChannelsOk, CallbacksOk, AwaitersOk, SinkOk, ChannelOk, CallbackOk, AwaiterOk;
    ChannelsStay(s, s', cid);
    CallbacksStay(s, s');
    AwaitersStay(s, s');
    SinkStays(s, s');
  }

  /** What the invariant says of one correlation id, callback and awaiter. */
  lemma Facts(s: State, cid: Cid)
    requires Inv(s)
    ensures cid in s.pending ==> cid in s.channels
    ensures cid in s.channels ==> ChannelOk(s, cid)
  {
  }

  lemma CallbackFacts(s: State, cb: CallbackId)
    requires Inv(s) && cb in s.callbacks
    ensures CallbackOk(s, cb)
  {
  }

  lemma AwaiterFacts(s: State, aw: AwaiterId)
    requires Inv(s) && aw in s.awaiters
    ensures AwaiterOk(s, aw)
  {
  }

  // --- Every step keeps the invariant ---------------------------------------

  lemma ClockInv(s: State, d: nat)
    requires Inv(s)
    ensures Inv(s.(now := s.now + d))
  {
    var s' := s.(now := s.now + d);
    forall cid | cid in s.channels
      ensures ChannelOk(s', cid)
    {
      assert ChannelOk(s, cid);
    }
    CallbacksStay(s, s');
    AwaitersStay(s, s');
  }

  lemma DispatchInv(s: State, aw: AwaiterId, cid: Cid, secs: nat)
    requires Inv(s)
    ensures Inv(Dispatch(s, aw, cid, secs))
  {
    hide Inv;
    var s' := Dispatch(s, aw, cid, secs);
    if s' != s {
      Facts(s, cid);
      FreshStays(s, s', aw, cid);
    }
  }

  lemma FreshStays(s: State, s': State, aw: AwaiterId, cid: Cid)
    requires Inv(s) && About(s, s', cid) && s'.sink == s.sink && s'.callbacks == s.callbacks
    requires cid !in s.channels && aw !in s.awaiters && cid in s'.channels
    requires aw in s'.awaiters && s'.awaiters == s.awaiters[aw := s'.awaiters[aw]] && ChannelOk(s', cid) && AwaiterOk(s', aw)
    ensures Inv(s')
  {
    hide ChannelsOk, CallbacksOk, AwaitersOk, SinkOk, ChannelOk, CallbackOk, AwaiterOk;
    ChannelsStay(s, s', cid);
    CallbacksStay(s, s');
    AwaitersStay(s, s');
    SinkStays(s, s');
  }

  /** A dead entry goes: its receiver was taken, or it is expired. */
  lemma RemoveInv(s: State, cid: Cid)
    requires Inv(s)
    requires cid in s.pending && s.pending[cid].rx ==> s.now > s.pending[cid].expiresAt
    ensures Inv(Remove(s, cid)) && cid !in Remove(s, cid).pending
  {
    hide Inv;
    Facts(s, cid);
    if cid in s.pending {
      StepStays(s, Remove(s, cid), cid);
    } else {
      assert Remove(s, cid) == s;
    }
  }

  lemma NewCallbackInv(s: State, cb: CallbackId, c: Callback)
    requires Inv(s) && cb !in s.callbacks && c.phase.Answered? && !c.phase.status.Resolved?
    ensures Inv(s.(callbacks := s.callbacks[cb := c]))
  {
  }

  lemma TakeSenderInv(s: State, cb: CallbackId, cid: Cid, v: Verdict)
    requires Inv(s) && cb !in s.callbacks && cid in s.pending && s.now <= s.pending[cid].expiresAt && !s.pending[cid].resolved
    ensures Inv(Mark(s, cb, cid, v))
  {
    hide Inv;
    Facts(s, cid);
    StepStays(s, Mark(s, cb, cid, v), cid);
  }

  lemma MarkInv(s: State, cb: CallbackId, cid: Cid, v: Verdict)
    requires Inv(s) && cb !in s.callbacks
    ensures Inv(Mark(s, cb, cid, v))
  {
    hide Inv;
    if cid in s.pending && s.now > s.pending[cid].expiresAt {
      RemoveInv(s, cid);
      NewCallbackInv(Remove(s, cid), cb, Callback(cid, v, Answered(Gone)));
    } else if cid !in s.pending {
      NewCallbackInv(s, cb, Callback(cid, v, Answered(Gone)));
    } else if s.pending[cid].resolved {
      NewCallbackInv(s, cb, Callback(cid, v, Answered(Conflict)));
    } else {
      TakeSenderInv(s, cb, cid, v);
    }
  }

  lemma DeliverInv(s: State, cb: CallbackId)
    requires Inv(s)
    ensures Inv(Deliver(s, cb))
  {
    hide Inv;
    if CanDeliver(s, cb) {
      CallbackFacts(s, cb);
      Facts(s, s.callbacks[cb].cid);
      StepStays(s, Deliver(s, cb), s.callbacks[cb].cid);
    }
  }

  lemma DiscardInv(s: State, cb: CallbackId)
    requires Inv(s)
    ensures Inv(Discard(s, cb))
  {
    hide Inv;
    if cb in s.callbacks && s.callbacks[cb].phase.Undelivered? {
      var cid := s.callbacks[cb].cid;
      CallbackFacts(s, cb);
      Facts(s, cid);
      RemoveInv(s, cid);
      var s1 := Remove(s, cid);
      CallbackFacts(s1, cb);
      Facts(s1, cid);
      StepStays(s1, SetPhase(s1, cb, Answered(Gone)), cid);
    }
  }

  /** An awaiter that holds nothing changes. */
  lemma AwaiterOnlyInv(s: State, aw: AwaiterId, a: Awaiter)
    requires Inv(s) && (aw in s.awaiters ==> s.awaiters[aw].phase.Sending? || s.awaiters[aw].phase.Ready?)
    requires aw in s.awaiters ==> a.cid == s.awaiters[aw].cid && a.spawned == s.awaiters[aw].spawned
    requires AwaiterOk(s.(awaiters := s.awaiters[aw := a]), aw)
    ensures Inv(s.(awaiters := s.awaiters[aw := a]))
  {
  }

  lemma TakeReceiverInv(s: State, aw: AwaiterId)
    requires Inv(s) && aw in s.awaiters && s.awaiters[aw].phase.Ready?
    requires s.awaiters[aw].cid in s.pending && s.pending[s.awaiters[aw].cid].rx
    ensures Inv(Take(s, aw))
  {
    hide Inv;
    var cid, s' := s.awaiters[aw].cid, Take(s, aw);
    AwaiterFacts(s, aw);
    Facts(s, cid);
    assert ChannelOk(s', cid) && AwaiterOk(s', aw);
    hide ChannelOk, CallbackOk, AwaiterOk, EntryOk, TakerOk;
    StepStays(s, s', cid);
  }

  lemma TakeInv(s: State, aw: AwaiterId)
    requires Inv(s)
    ensures Inv(Take(s, aw))
  {
    hide Inv;
    if aw in s.awaiters && s.awaiters[aw].phase.Ready? {
      var cid := s.awaiters[aw].cid;
      AwaiterFacts(s, aw);
      Facts(s, cid);
      if cid !in s.pending {
        AwaiterOnlyInv(s, aw, s.awaiters[aw].(phase := Failed(UnknownCid)));
      } else if !s.pending[cid].rx {
        AwaiterOnlyInv(s, aw, s.awaiters[aw].(phase := Failed(AlreadyAwaited)));
      } else {
        TakeReceiverInv(s, aw);
      }
    }
  }

  function Ended(s: State, aw: AwaiterId, phase: AwaiterPhase): State
    requires CanPoll(s, aw)
  {
    var ch := s.channels[s.awaiters[aw].cid];
    SetAwaiter(s, aw, phase).(channels := s.channels[s.awaiters[aw].cid := ch.(receiver := ReceiverGone)])
  }

  lemma EndedInv(s: State, aw: AwaiterId, phase: AwaiterPhase)
    requires Inv(s) && CanPoll(s, aw)
    requires phase.Failed? || phase.Got?
    requires phase.Got? ==> s.channels[s.awaiters[aw].cid].value == Some(phase.verdict)
    requires phase.Failed? ==> s.channels[s.awaiters[aw].cid].value.None?
    ensures Inv(Ended(s, aw, phase))
  {
    hide Inv;
    var cid := s.awaiters[aw].cid;
    AwaiterFacts(s, aw);
    Facts(s, cid);
    StepStays(s, Ended(s, aw, phase), cid);
  }

  lemma PollInv(s: State, aw: AwaiterId)
    requires Inv(s)
    ensures Inv(Poll(s, aw))
  {
    hide Inv;
    if CanPoll(s, aw) && Poll(s, aw) != s {
      EndedInv(s, aw, Poll(s, aw).awaiters[aw].phase);
    }
  }

  /** A value was received: the spawned task tells the sink. */
  lemma ReportInv(s: State, aw: AwaiterId)
    requires Inv(s) && aw in s.awaiters && s.awaiters[aw].spawned && s.awaiters[aw].phase.Got?
    ensures Inv(Finish(s, aw))
  {
    var s' := Finish(s, aw);
    var cid := s.awaiters[aw].cid;
    AwaiterFacts(s, aw);
    Facts(s, cid);
    assert ChannelOk(s', cid) && AwaiterOk(s', aw);
    hide ChannelsOk, CallbacksOk, AwaitersOk, SinkOk, ChannelOk, CallbackOk, AwaiterOk;
    ChannelsStay(s, s', cid);
    CallbacksStay(s, s');
    AwaitersStay(s, s');
    SinkGrows(s, s', aw);
  }

  lemma SinkGrows(s: State, s': State, aw: AwaiterId)
    requires SinkOk(s) && aw in s.awaiters && s.awaiters[aw].phase.Got? && s'.channels == s.channels
    requires s.awaiters[aw].cid in s.channels && s.channels[s.awaiters[aw].cid].owner == aw
    requires s'.awaiters == s.awaiters[aw := s.awaiters[aw].(phase := Reported(s.awaiters[aw].phase.verdict))]
    requires s'.sink == s.sink + [(s.awaiters[aw].cid, s.awaiters[aw].phase.verdict)]
    ensures SinkOk(s')
  {
  }

  lemma FinishInv(s: State, aw: AwaiterId)
    requires Inv(s)
    ensures Inv(Finish(s, aw))
  {
    hide Inv;
    if aw in s.awaiters && s.awaiters[aw].spawned {
      var a := s.awaiters[aw];
      if a.phase.Got? {
        ReportInv(s, aw);
      } else if a.phase.Failed? {
        AwaiterFacts(s, aw);
        Facts(s, a.cid);
        RemoveInv(s, a.cid);
        var s1 := Remove(s, a.cid);
        AwaiterFacts(s1, aw);
        Facts(s1, a.cid);
        StepStays(s1, SetAwaiter(s1, aw, Closed(a.phase.error)), a.cid);
      }
    }
  }

  lemma ApplyInv(s: State, op: Op)
    requires Inv(s)
    ensures Inv(Apply(s, op))
  {
    hide Inv, Dispatch, Mark, Deliver, Discard, Take, Poll, Finish, ChannelOk, CallbackOk;
    match op
    case ClockOp(d) => ClockInv(s, d);
    case DispatchOp(aw, cid, secs) => DispatchInv(s, aw, cid, secs);
    case HttpOp(cb, cid, authorized, action) =>
      if cb !in s.callbacks {
        if !authorized {
          NewCallbackInv(s, cb, Callback(cid, Reject, Answered(Unauthorized)));
        } else if action.None? {
          NewCallbackInv(s, cb, Callback(cid, Reject, Answered(BadRequest)));
        } else {
          MarkInv(s, cb, cid, action.value);
        }
      }
    case TuiOp(cb, cid, approve) =>
      if cb !in s.callbacks {
        MarkInv(s, cb, cid, if approve then Approve else Reject);
      }
    case DeliverOp(cb) => DeliverInv(s, cb);
    case DiscardOp(cb) => DiscardInv(s, cb);
    case CardsSentOp(aw) =>
      if aw in s.awaiters && s.awaiters[aw].phase.Sending? {
        AwaiterFacts(s, aw);
        AwaiterOnlyInv(s, aw, s.awaiters[aw].(phase := Ready, known := s.awaiters[aw].cid in s.pending));
      }
    case DirectOp(aw, cid, timeout) =>
      if aw !in s.awaiters {
        AwaiterOnlyInv(s, aw, Awaiter(cid, false, timeout, false, Ready));
      }
    case TakeOp(aw) => TakeInv(s, aw);
    case PollOp(aw) => PollInv(s, aw);
    case FinishOp(aw) => FinishInv(s, aw);
  }

  /** The invariant holds in every interleaving of callbacks, awaiters and time. */
  lemma {:induction false} ReachableInv(now: int, ops: seq<Op>)
    ensures Inv(Exec(Start(now), ops))
  {
    if ops != [] {
      ReachableInv(now, ops[..|ops| - 1]);
      ApplyInv(Exec(Start(now), ops[..|ops| - 1]), ops[|ops| - 1]);
    }
  }

  // --- Main results ---------------------------------------------------------

  /** The callback was answered Resolved. */
  predicate Won(s: State, cb: CallbackId) {
    cb in s.callbacks && s.callbacks[cb].phase == Answered(Resolved)
  }

  /** At most one callback per correlation id is answered Resolved. */
  lemma AtMostOneResolved(s: State, a: CallbackId, b: CallbackId)
    requires Inv(s) && Won(s, a) && Won(s, b) && s.callbacks[a].cid == s.callbacks[b].cid
    ensures a == b
  {
    CallbackFacts(s, a);
    CallbackFacts(s, b);
  }

  /** The sink is told at most once per correlation id, with the verdict of the
      callback that was answered Resolved. */
  lemma SinkTellsTheVerdict(s: State, i: nat)
    requires Inv(s) && i < |s.sink|
    ensures exists cb :: Won(s, cb) && s.callbacks[cb].cid == s.sink[i].0 && s.callbacks[cb].verdict == s.sink[i].1
    ensures forall j: nat | j < |s.sink| && j != i :: s.sink[j].0 != s.sink[i].0
  {
    var cid := s.sink[i].0;
    var aw := s.channels[cid].owner;
    AwaiterFacts(s, aw);
    Facts(s, cid);
    assert Won(s, s.channels[cid].resolver.value);
  }

  /** A request of callback `cb`, over HTTP or from the TUI. */
  ghost predicate Names(op: Op, cb: CallbackId) {
    (op.HttpOp? || op.TuiOp?) && op.cb == cb
  }

  /** An authenticated, well-formed request of `cb` for `cid` that asks for `v`. */
  ghost predicate Carries(op: Op, cb: CallbackId, cid: Cid, v: Verdict) {
    match op
    case HttpOp(b, id, authorized, action) => b == cb && id == cid && authorized && action == Some(v)
    case TuiOp(b, id, approve) => b == cb && id == cid && v == if approve then Approve else Reject
    case _ => false
  }

  predicate Refusal(phase: CallbackPhase) {
    phase == Answered(Unauthorized) || phase == Answered(BadRequest)
  }

  lemma RemoveKeepsRequests(s: State, cid: Cid)
    ensures Remove(s, cid).callbacks == s.callbacks && Remove(s, cid).awaiters == s.awaiters
    ensures Remove(s, cid).sink == s.sink && Remove(s, cid).now == s.now
  {
  }

  lemma MarkedRequest(s: State, cb: CallbackId, cid: Cid, v: Verdict)
    ensures var s' := Mark(s, cb, cid, v);
            && s'.callbacks.Keys == s.callbacks.Keys + {cb} && s'.callbacks - {cb} == s.callbacks - {cb}
            && s'.callbacks[cb].cid == cid && s'.callbacks[cb].verdict == v && !Refusal(s'.callbacks[cb].phase)
  {
    hide Mark, Refusal;
    var c := MarkAdds(s, cb, cid, v);
    AddedAlone(s.callbacks, cb, c);
  }

  lemma MarkAdds(s: State, cb: CallbackId, cid: Cid, v: Verdict) returns (c: Callback)
    ensures Mark(s, cb, cid, v).callbacks == s.callbacks[cb := c] && c.cid == cid && c.verdict == v && !Refusal(c.phase)
  {
    RemoveKeepsRequests(s, cid);
    hide Remove;
    c := Mark(s, cb, cid, v).callbacks[cb];
  }

  lemma AddedAlone<K, V>(m: map<K, V>, k: K, v: V)
    ensures m[k := v].Keys == m.Keys + {k} && m[k := v] - {k} == m - {k}
  {
  }

  /** Steps other than requests leave every request as it is. */
  lemma OthersKeepRequests(s: State, op: Op, cb: CallbackId)
    requires !op.HttpOp? && !op.TuiOp?
    ensures Apply(s, op).callbacks.Keys == s.callbacks.Keys
    ensures cb in s.callbacks ==>
              var c, c' := s.callbacks[cb], Apply(s, op).callbacks[cb];
              c'.cid == c.cid && c'.verdict == c.verdict && (Refusal(c.phase) <==> Refusal(c'.phase))
  {
    hide Remove, Mark;
    if op.DiscardOp? && op.cb in s.callbacks {
      RemoveKeepsRequests(s, s.callbacks[op.cb].cid);
    }
    if op.FinishOp? && op.aw in s.awaiters {
      RemoveKeepsRequests(s, s.awaiters[op.aw].cid);
    }
  }

  /** No step changes what a callback asked for, or takes a refusal back. */
  lemma RequestStays(s: State, op: Op, cb: CallbackId)
    requires cb in s.callbacks
    ensures cb in Apply(s, op).callbacks
    ensures var c, c' := s.callbacks[cb], Apply(s, op).callbacks[cb];
            c'.cid == c.cid && c'.verdict == c.verdict && (Refusal(c.phase) <==> Refusal(c'.phase))
  {
    hide Mark, Deliver, Discard, Finish;
    match op
    case HttpOp(b, cid, authorized, action) =>
      if b !in s.callbacks && authorized && action.Some? {
        MarkedRequest(s, b, cid, action.value);
        assert cb in s.callbacks - {b};
      }
    case TuiOp(b, cid, approve) =>
      if b !in s.callbacks {
        MarkedRequest(s, b, cid, if approve then Approve else Reject);
        assert cb in s.callbacks - {b};
      }
    case _ => OthersKeepRequests(s, op, cb);
  }

  /** A new callback is refused exactly when it is unauthenticated or malformed;
      otherwise it asks for what its request carries. */
  lemma RequestMade(s: State, op: Op, cb: CallbackId)
    requires cb !in s.callbacks && cb in Apply(s, op).callbacks
    ensures Names(op, cb)
    ensures var c := Apply(s, op).callbacks[cb];
            if Refusal(c.phase) then op.HttpOp? && op.cid == c.cid && (!op.authorized || op.action.None?)
            else Carries(op, cb, c.cid, c.verdict)
  {
    hide Mark, Deliver, Discard, Finish;
    match op
    case HttpOp(b, cid, authorized, action) =>
      if b !in s.callbacks && authorized && action.Some? {
        MarkedRequest(s, b, cid, action.value);
      }
    case TuiOp(b, cid, approve) =>
      if b !in s.callbacks {
        MarkedRequest(s, b, cid, if approve then Approve else Reject);
      }
    case _ => OthersKeepRequests(s, op, cb);
  }

  /** In every run the first request of a callback decides what it asks for. */
  lemma {:induction false} FirstRequestDecides(now: int, ops: seq<Op>, cb: CallbackId) returns (i: nat)
    requires cb in Exec(Start(now), ops).callbacks
    ensures i < |ops| && Names(ops[i], cb) && forall j: nat | j < i :: !Names(ops[j], cb)
    ensures var c := Exec(Start(now), ops).callbacks[cb];
            if Refusal(c.phase) then ops[i].HttpOp? && ops[i].cid == c.cid && (!ops[i].authorized || ops[i].action.None?)
            else Carries(ops[i], cb, c.cid, c.verdict)
  {
    hide Apply, Refusal, Carries;
    var init, last := ops[..|ops| - 1], ops[|ops| - 1];
    var s := Exec(Start(now), init);
    if cb in s.callbacks {
      i := FirstRequestDecides(now, init, cb);
      RequestStays(s, last, cb);
    } else {
      i := |ops| - 1;
      RequestMade(s, last, cb);
      forall j: nat | j < i
        ensures !Names(ops[j], cb)
      {
        if Names(init[j], cb) {
          NamedIsThere(now, init, j, cb);
        }
      }
    }
  }

  lemma NamedIsAdded(s: State, op: Op, cb: CallbackId)
    requires Names(op, cb)
    ensures cb in Apply(s, op).callbacks
  {
  }

  lemma {:induction false} NamedIsThere(now: int, ops: seq<Op>, j: nat, cb: CallbackId)
    requires j < |ops| && Names(ops[j], cb)
    ensures cb in Exec(Start(now), ops).callbacks
  {
    hide Apply, Names;
    var init := ops[..|ops| - 1];
    if j == |ops| - 1 {
      NamedIsAdded(Exec(Start(now), init), ops[j], cb);
    } else {
      NamedIsThere(now, init, j, cb);
      RequestStays(Exec(Start(now), init), ops[|ops| - 1], cb);
    }
  }

  /** Every entry of the sink is the verdict that some authenticated request
      carried for that correlation id, and that callback was answered Resolved. */
  lemma SinkTellsWhatWasAsked(now: int, ops: seq<Op>, n: nat) returns (i: nat, cb: CallbackId)
    requires n < |Exec(Start(now), ops).sink|
    ensures var s := Exec(Start(now), ops);
            i < |ops| && Carries(ops[i], cb, s.sink[n].0, s.sink[n].1) && Won(s, cb)
  {
    hide Inv, Apply, Carries;
    ReachableInv(now, ops);
    var s := Exec(Start(now), ops);
    SinkTellsTheVerdict(s, n);
    cb :| Won(s, cb) && s.callbacks[cb].cid == s.sink[n].0 && s.callbacks[cb].verdict == s.sink[n].1;
    i := FirstRequestDecides(now, ops, cb);
  }

  /** How a request is answered at once: Gone without an entry or with an expired
      one, which goes; Conflict on a resolved one; otherwise the callback holds the
      sender and the entry is resolved. No other entry changes. */
  lemma RequestAnswered(s: State, op: Op, cb: CallbackId, cid: Cid, v: Verdict)
    requires Inv(s) && cb !in s.callbacks && Carries(op, cb, cid, v)
    ensures var s' := Apply(s, op);
            && cb in s'.callbacks && s'.pending - {cid} == s.pending - {cid}
            && if cid !in s.pending || s.now > s.pending[cid].expiresAt
               then s'.callbacks[cb].phase == Answered(Gone) && cid !in s'.pending
               else if s.pending[cid].resolved
               then s'.callbacks[cb].phase == Answered(Conflict) && s'.pending == s.pending
               else s'.callbacks[cb].phase == Marked(true) && cid in s'.pending && s'.pending[cid].resolved
  {
    hide Inv, Mark;
    MarkAnswers(s, cb, cid, v);
  }

  lemma MarkAnswers(s: State, cb: CallbackId, cid: Cid, v: Verdict)
    requires Inv(s)
    ensures var s' := Mark(s, cb, cid, v);
            && cb in s'.callbacks && s'.pending - {cid} == s.pending - {cid}
            && if cid !in s.pending || s.now > s.pending[cid].expiresAt
               then s'.callbacks[cb].phase == Answered(Gone) && cid !in s'.pending
               else if s.pending[cid].resolved
               then s'.callbacks[cb].phase == Answered(Conflict) && s'.pending == s.pending
               else s'.callbacks[cb].phase == Marked(true) && cid in s'.pending && s'.pending[cid].resolved
  {
    assert cid in s.pending ==> ChannelOk(s, cid);
    hide Inv, ChannelOk;
  }

  /** What can become of a callback that found its entry unresolved: it is answered
      Resolved, or, when the verdict cannot be delivered, Gone with the entry removed. */
  lemma MarkedIsAnswered(s: State, cb: CallbackId)
    requires Inv(s) && cb in s.callbacks && s.callbacks[cb].phase.Marked?
    ensures var s1 := Deliver(s, cb);
            var s2 := Discard(s1, cb);
            cb in s1.callbacks && cb in s2.callbacks
            && if s.channels[s.callbacks[cb].cid].receiver.ReceiverGone?
               then s2.callbacks[cb].phase == Answered(CallbackStatus.Gone) && s.callbacks[cb].cid !in s2.pending
               else s1.callbacks[cb].phase == Answered(CallbackStatus.Resolved) && s2 == s1
  {
    CallbackFacts(s, cb);
  }

  /** An entry that is not resolved still holds its sender, so that a callback
      never finds it missing. */
  lemma SenderIsThere(s: State, cid: Cid, cb: CallbackId)
    requires Inv(s)
    ensures cid in s.pending && !s.pending[cid].resolved ==> s.pending[cid].tx
    ensures cb in s.callbacks && s.callbacks[cb].phase.Marked? ==> s.callbacks[cb].phase.tx
  {
  }

  /** The receiver was taken out of the entry before anything removed it. */
  predicate Taken(s: State, cid: Cid) {
    cid in s.channels && s.channels[cid].taker.Some?
  }

  function TakerOf(s: State, cid: Cid): Awaiter
    requires Inv(s) && Taken(s, cid)
  {
    Facts(s, cid);
    s.awaiters[s.channels[cid].taker.value]
  }

  /** Once an awaiter has the receiver, a Resolved answer means that it gets
      that verdict: it never times out, whatever the clock says. */
  lemma ResolvedReachesAwaiter(s: State, cb: CallbackId)
    requires Inv(s) && Won(s, cb) && Taken(s, s.callbacks[cb].cid)
    ensures var phase := TakerOf(s, s.callbacks[cb].cid).phase;
            var v := s.callbacks[cb].verdict;
            && (phase.Waiting? || phase == Got(v) || phase == Reported(v))
            && (phase.Waiting? ==>
                  var aw := s.channels[s.callbacks[cb].cid].taker.value;
                  Poll(s, aw).awaiters[aw].phase == Got(v))
  {
    CallbackFacts(s, cb);
    Facts(s, s.callbacks[cb].cid);
  }

  /** The receiver is taken once: whoever comes second is told so, and whoever
      finds no entry that the id is unknown. */
  lemma TakenOnce(s: State, aw: AwaiterId)
    requires Inv(s) && aw in s.awaiters && s.awaiters[aw].phase.Ready?
    ensures var cid, phase := s.awaiters[aw].cid, Take(s, aw).awaiters[aw].phase;
            && (phase == Failed(UnknownCid) <==> cid !in s.pending)
            && (phase == Failed(AlreadyAwaited) <==> cid in s.pending && Taken(s, cid))
            && (phase.Waiting? <==> cid in s.pending && !Taken(s, cid))
  {
    Facts(s, s.awaiters[aw].cid);
  }

  /** How a wait ends: with the value that was sent, else when the sender is gone,
      else at the deadline. */
  lemma WaitEndsAs(s: State, aw: AwaiterId)
    requires Inv(s) && aw in s.awaiters && s.awaiters[aw].phase.Waiting?
    ensures s.awaiters[aw].cid in s.channels
    ensures var ch, phase := s.channels[s.awaiters[aw].cid], Poll(s, aw).awaiters[aw].phase;
            && (forall v :: phase == Got(v) <==> ch.value == Some(v))
            && (phase == Failed(SenderDropped) <==> ch.value.None? && ch.sender.SenderGone?)
            && (phase == Failed(Timeout) <==> ch.value.None? && !ch.sender.SenderGone? && s.now >= s.awaiters[aw].phase.deadline)
  {
    AwaiterFacts(s, aw);
  }

  /** A verdict the spawned task received is always reported. */
  lemma ReceivedIsReported(s: State, aw: AwaiterId)
    requires Inv(s) && aw in s.awaiters && s.awaiters[aw].spawned && s.awaiters[aw].phase.Got?
    ensures Finish(s, aw).sink == s.sink + [(s.awaiters[aw].cid, s.awaiters[aw].phase.verdict)]
  {
  }

  /** A callback that holds the sender is answered Resolved exactly when the
      awaiter has not given up and the entry was not removed with the receiver. */
  lemma DeliveredExactly(s: State, cb: CallbackId)
    requires Inv(s) && cb in s.callbacks && s.callbacks[cb].phase.Marked?
    ensures var cid := s.callbacks[cb].cid;
            Won(Deliver(s, cb), cb) <==> (if Taken(s, cid) then TakerOf(s, cid).phase.Waiting? else cid in s.pending)
  {
    CallbackFacts(s, cb);
    Facts(s, s.callbacks[cb].cid);
  }

  /** A Resolved verdict that nobody can receive any more. */
  predicate Lost(s: State, cid: Cid) {
    && cid in s.channels && s.channels[cid].value.Some?
    && !Taken(s, cid) && cid !in s.pending
  }

  /** A verdict is lost only after expiry. */
  lemma LostMeansExpired(s: State, cid: Cid)
    requires Inv(s) && Lost(s, cid)
    ensures s.now > s.channels[cid].expiresAt
  {
  }

  /** The callback that finds an expired entry removes it. */
  predicate Expires(s: State, op: Op, cid: Cid) {
    && cid in s.pending && s.now > s.pending[cid].expiresAt
    && match op
       case HttpOp(cb, id, authorized, action) => cb !in s.callbacks && id == cid && authorized && action.Some?
       case TuiOp(cb, id, approve) => cb !in s.callbacks && id == cid
       case _ => false
  }

  lemma MarkLoses(s: State, cb: CallbackId, id: Cid, v: Verdict, cid: Cid)
    requires Inv(s) && !Lost(s, cid) && cb !in s.callbacks
    ensures Lost(Mark(s, cb, id, v), cid)
            <==> (id == cid && cid in s.pending && s.now > s.pending[cid].expiresAt && s.pending[cid].rx && s.channels[cid].value.Some?)
  {
    hide Inv;
    Facts(s, cid);
    Facts(s, id);
  }

  lemma OthersLoseNothing(s: State, op: Op, cid: Cid)
    requires Inv(s) && !Lost(s, cid) && !op.HttpOp? && !op.TuiOp?
    ensures !Lost(Apply(s, op), cid)
  {
    hide Inv, Mark;
    Facts(s, cid);
    match op
    case DiscardOp(cb) =>
      if cb in s.callbacks {
        CallbackFacts(s, cb);
      }
    case DeliverOp(cb) =>
      if cb in s.callbacks {
        CallbackFacts(s, cb);
      }
    case FinishOp(aw) =>
      if aw in s.awaiters {
        AwaiterFacts(s, aw);
      }
    case _ =>
  }

  /** A step loses a verdict exactly when it is a callback that finds the entry
      expired while the receiver, with the verdict, is still inside. */
  lemma LostExactlyByExpiry(s: State, op: Op, cid: Cid)
    requires Inv(s) && !Lost(s, cid)
    ensures Lost(Apply(s, op), cid)
            <==> (Expires(s, op, cid) && s.pending[cid].rx && cid in s.channels && s.channels[cid].value.Some?)
  {
    hide Inv, Mark;
    Facts(s, cid);
    match op
    case HttpOp(cb, id, authorized, action) =>
      if cb !in s.callbacks && authorized && action.Some? {
        MarkLoses(s, cb, id, action.value, cid);
      }
    case TuiOp(cb, id, approve) =>
      if cb !in s.callbacks {
        MarkLoses(s, cb, id, if approve then Approve else Reject, cid);
      }
    case _ => OthersLoseNothing(s, op, cid);
  }

  /** The awaiter took the receiver and gave up: it timed out, or its channel closed. */
  predicate GaveUp(s: State, aw: AwaiterId) {
    && aw in s.awaiters && (s.awaiters[aw].phase.Failed? || s.awaiters[aw].phase.Closed?)
    && s.awaiters[aw].cid in s.channels && s.channels[s.awaiters[aw].cid].taker == Some(aw)
  }

  /** The receiver is gone and nothing was ever sent. */
  predicate Dead(s: State, cid: Cid) {
    cid in s.channels && s.channels[cid].receiver.ReceiverGone? && s.channels[cid].value.None?
  }

  lemma DeadStays(s: State, op: Op, cid: Cid)
    requires Inv(s) && Dead(s, cid)
    ensures Dead(Apply(s, op), cid)
  {
    hide Inv;
    Facts(s, cid);
  }

  lemma {:induction false} DeadForever(s: State, ops: seq<Op>, cid: Cid)
    requires Inv(s) && Dead(s, cid)
    ensures Dead(Exec(s, ops), cid) && Inv(Exec(s, ops))
  {
    if ops != [] {
      DeadForever(s, ops[..|ops| - 1], cid);
      DeadStays(Exec(s, ops[..|ops| - 1]), ops[|ops| - 1], cid);
      ApplyInv(Exec(s, ops[..|ops| - 1]), ops[|ops| - 1]);
    }
  }

  /** From then on no callback is ever answered Resolved, not even one that
      already holds the sender. */
  lemma GaveUpIsFinal(s: State, aw: AwaiterId, ops: seq<Op>, cb: CallbackId)
    requires Inv(s) && GaveUp(s, aw) && Won(Exec(s, ops), cb)
    ensures Exec(s, ops).callbacks[cb].cid != s.awaiters[aw].cid
  {
    var cid := s.awaiters[aw].cid;
    Facts(s, cid);
    DeadForever(s, ops, cid);
    CallbackFacts(Exec(s, ops), cb);
    Facts(Exec(s, ops), cid);
  }

  /** Waiting until `deadline`, not waiting any more, or timed out by then. */
  predicate WaitsUntil(s: State, aw: AwaiterId, deadline: int) {
    aw in s.awaiters &&
    match s.awaiters[aw].phase
    case Sending => false
    case Ready => false
    case Waiting(d) => d == deadline
    case Failed(e) => e == Timeout ==> s.now >= deadline
    case Closed(e) => e == Timeout ==> s.now >= deadline
    case _ => true
  }

  lemma WaitsOn(s: State, op: Op, aw: AwaiterId, deadline: int)
    requires WaitsUntil(s, aw, deadline)
    ensures WaitsUntil(Apply(s, op), aw, deadline)
  {
    if op.HttpOp? || op.TuiOp? || op.DeliverOp? || op.DiscardOp? {
      CallbacksKeepAwaiters(s, op);
      hide Apply;
    } else {
      hide Remove;
      if op.FinishOp? && op.aw in s.awaiters {
        RemoveKeepsRequests(s, s.awaiters[op.aw].cid);
      }
    }
  }

  lemma CallbacksKeepAwaiters(s: State, op: Op)
    requires op.HttpOp? || op.TuiOp? || op.DeliverOp? || op.DiscardOp?
    ensures Apply(s, op).awaiters == s.awaiters && Apply(s, op).now == s.now
  {
    hide Remove;
    match op
    case HttpOp(cb, cid, authorized, action) => RemoveKeepsRequests(s, cid);
    case TuiOp(cb, cid, approve) => RemoveKeepsRequests(s, cid);
    case DiscardOp(cb) =>
      if cb in s.callbacks {
        RemoveKeepsRequests(s, s.callbacks[cb].cid);
      }
    case _ =>
  }

  lemma {:induction false} WaitsThrough(s: State, ops: seq<Op>, aw: AwaiterId, deadline: int)
    requires WaitsUntil(s, aw, deadline)
    ensures WaitsUntil(Exec(s, ops), aw, deadline)
  {
    if ops != [] {
      WaitsThrough(s, ops[..|ops| - 1], aw, deadline);
      WaitsOn(Exec(s, ops[..|ops| - 1]), ops[|ops| - 1], aw, deadline);
    }
  }

  lemma TakeStarts(s: State, aw: AwaiterId)
    requires aw in s.awaiters && s.awaiters[aw].phase.Ready? && Take(s, aw).awaiters[aw].phase.Waiting?
    ensures WaitsUntil(Take(s, aw), aw, s.now + s.awaiters[aw].timeout)
  {
  }

  lemma WaitEnds(s: State, aw: AwaiterId, deadline: int)
    requires Inv(s) && WaitsUntil(s, aw, deadline)
    ensures aw in s.awaiters && aw in Poll(s, aw).awaiters
    ensures s.awaiters[aw].phase in {Failed(Timeout), Closed(Timeout)} ==> s.now >= deadline
    ensures s.now >= deadline ==> !Poll(s, aw).awaiters[aw].phase.Waiting?
  {
    AwaiterFacts(s, aw);
    hide Inv;
  }

  /** Whoever takes the receiver is not timed out before its whole timeout is
      over, in any run; and a poll after that ends the wait. */
  lemma TimesOutInTime(s: State, aw: AwaiterId, ops: seq<Op>)
    requires Inv(s) && aw in s.awaiters && s.awaiters[aw].phase.Ready? && Take(s, aw).awaiters[aw].phase.Waiting?
    ensures var s' := Exec(Take(s, aw), ops);
            aw in s'.awaiters
            && (s'.awaiters[aw].phase == Failed(Timeout) || s'.awaiters[aw].phase == Closed(Timeout) ==>
                  s'.now >= s.now + s.awaiters[aw].timeout)
            && (s'.now >= s.now + s.awaiters[aw].timeout ==> !Poll(s', aw).awaiters[aw].phase.Waiting?)
  {
    hide Inv, Exec, Poll, WaitsUntil;
    TakeStarts(s, aw);
    WaitsThrough(Take(s, aw), ops, aw, s.now + s.awaiters[aw].timeout);
    TakeInv(s, aw);
    InvThrough(Take(s, aw), ops);
    WaitEnds(Exec(Take(s, aw), ops), aw, s.now + s.awaiters[aw].timeout);
  }

  lemma {:induction false} InvThrough(s: State, ops: seq<Op>)
    requires Inv(s)
    ensures Inv(Exec(s, ops))
  {
    if ops != [] {
      InvThrough(s, ops[..|ops| - 1]);
      ApplyInv(Exec(s, ops[..|ops| - 1]), ops[|ops| - 1]);
    }
  }

  /** The card of that id expires then, and its task awaits it that long. */
  predicate CardOf(s: State, aw: AwaiterId, cid: Cid, secs: nat, expiresAt: int) {
    && cid in s.channels && s.channels[cid].owner == aw && s.channels[cid].expiresAt == expiresAt
    && (cid in s.pending ==> s.pending[cid].expiresAt == expiresAt)
    && aw in s.awaiters && s.awaiters[aw].cid == cid && s.awaiters[aw].timeout == secs && s.awaiters[aw].spawned
  }

  lemma CardStays(s: State, op: Op, aw: AwaiterId, cid: Cid, secs: nat, expiresAt: int)
    requires CardOf(s, aw, cid, secs, expiresAt)
    ensures CardOf(Apply(s, op), aw, cid, secs, expiresAt)
  {
    hide Mark, CardOf;
    match op
    case HttpOp(cb, id, authorized, action) =>
      if cb !in s.callbacks && authorized && action.Some? {
        MarkKeepsCard(s, cb, id, action.value, aw, cid, secs, expiresAt);
      } else {
        OthersKeepCard(s, op, aw, cid, secs, expiresAt);
      }
    case TuiOp(cb, id, approve) =>
      if cb !in s.callbacks {
        MarkKeepsCard(s, cb, id, if approve then Approve else Reject, aw, cid, secs, expiresAt);
      }
    case _ => OthersKeepCard(s, op, aw, cid, secs, expiresAt);
  }

  lemma MarkKeepsCard(s: State, cb: CallbackId, id: Cid, v: Verdict, aw: AwaiterId, cid: Cid, secs: nat, expiresAt: int)
    requires CardOf(s, aw, cid, secs, expiresAt)
    ensures CardOf(Mark(s, cb, id, v), aw, cid, secs, expiresAt)
  {
  }

  lemma OthersKeepCard(s: State, op: Op, aw: AwaiterId, cid: Cid, secs: nat, expiresAt: int)
    requires CardOf(s, aw, cid, secs, expiresAt) && !op.TuiOp?
    requires op.HttpOp? ==> op.cb in s.callbacks || !op.authorized || op.action.None?
    ensures CardOf(Apply(s, op), aw, cid, secs, expiresAt)
  {
    hide Mark, Remove;
    if op.DiscardOp? && op.cb in s.callbacks {
      RemoveKeepsCard(s, s.callbacks[op.cb].cid, aw, cid, secs, expiresAt);
    } else if op.FinishOp? && op.aw in s.awaiters {
      RemoveKeepsCard(s, s.awaiters[op.aw].cid, aw, cid, secs, expiresAt);
    }
  }

  lemma RemoveKeepsCard(s: State, id: Cid, aw: AwaiterId, cid: Cid, secs: nat, expiresAt: int)
    requires CardOf(s, aw, cid, secs, expiresAt)
    ensures CardOf(Remove(s, id), aw, cid, secs, expiresAt)
  {
  }

  /** In every run a card expires exactly its timeout after its dispatch. */
  lemma {:induction false} ExpiresInTime(s: State, aw: AwaiterId, cid: Cid, secs: nat, ops: seq<Op>)
    requires cid !in s.channels && aw !in s.awaiters
    ensures CardOf(Exec(Apply(s, DispatchOp(aw, cid, secs)), ops), aw, cid, secs, s.now + secs)
  {
    if ops != [] {
      ExpiresInTime(s, aw, cid, secs, ops[..|ops| - 1]);
      CardStays(Exec(Apply(s, DispatchOp(aw, cid, secs)), ops[..|ops| - 1]), ops[|ops| - 1], aw, cid, secs, s.now + secs);
    }
  }

  lemma AbsentStays(s: State, op: Op, cid: Cid)
    requires cid in s.channels && cid !in s.pending
    ensures cid in Apply(s, op).channels && cid !in Apply(s, op).pending
  {
  }

  /** A removed entry never comes back: every later callback is answered Gone. */
  lemma {:induction false} ClosedStaysAbsent(s: State, aw: AwaiterId, ops: seq<Op>)
    requires Inv(s) && aw in s.awaiters && s.awaiters[aw].phase.Closed?
    ensures s.awaiters[aw].cid in Exec(s, ops).channels && s.awaiters[aw].cid !in Exec(s, ops).pending
  {
    AwaiterFacts(s, aw);
    if ops != [] {
      ClosedStaysAbsent(s, aw, ops[..|ops| - 1]);
      AbsentStays(Exec(s, ops[..|ops| - 1]), ops[|ops| - 1], s.awaiters[aw].cid);
    }
  }

  /** A refused callback learns nothing and changes nothing but its own answer. */
  lemma RefusedTouchesNothing(s: State, cb: CallbackId, cid: Cid, authorized: bool, action: Option<Verdict>)
    requires cb !in s.callbacks && (!authorized || action.None?)
    ensures var s' := Http(s, cb, cid, authorized, action);
            && s'.callbacks[cb].phase == Answered(if authorized then BadRequest else Unauthorized)
            && s' == s.(callbacks := s'.callbacks) && s'.callbacks - {cb} == s.callbacks - {cb}
  {
  }

  /** A run in which a verdict is answered Resolved and lost: it arrives while
      the cards are still being sent, and an expired duplicate removes it. */
  function LossRun(cid: Cid, secs: nat): seq<Op> {
    [DispatchOp(0, cid, secs), TuiOp(0, cid, true), DeliverOp(0),
     ClockOp(secs + 1), TuiOp(1, cid, true), CardsSentOp(0), TakeOp(0)]
  }

  /** After the third step: answered, with the verdict in the channel. */
  function Answer(now: int, cid: Cid, secs: nat): State {
    State(now, map[cid := Entry(false, true, now + secs, true)],
          map[cid := Channel(SenderGone, ReceiverInEntry, Some(Approve), now + secs, 0, Some(0), None)],
          map[0 := Callback(cid, Approve, Answered(Resolved))],
          map[0 := Awaiter(cid, true, secs, false, Sending)], [])
  }

  lemma Answered3(now: int, cid: Cid, secs: nat)
    ensures Deliver(Tui(Dispatch(Start(now), 0, cid, secs), 0, cid, true), 0) == Answer(now, cid, secs)
  {
    var marked := Mark(Dispatch(Start(now), 0, cid, secs), 0, cid, Approve);
    assert marked.callbacks == map[0 := Callback(cid, Approve, Marked(true))];
    assert marked.channels == map[cid := Channel(SenderHeldBy(0), ReceiverInEntry, None, now + secs, 0, None, None)];
  }

  lemma FirstHalf(now: int, cid: Cid, secs: nat)
    ensures Exec(Start(now), LossRun(cid, secs)[..3]) == Answer(now, cid, secs)
  {
    hide Dispatch, Tui, Deliver;
    var ops := LossRun(cid, secs);
    Then(Start(now), ops, 0);
    Then(Start(now), ops, 1);
    Then(Start(now), ops, 2);
    Answered3(now, cid, secs);
  }

  lemma SecondHalf(now: int, cid: Cid, secs: nat)
    ensures var expired := Apply(Apply(Answer(now, cid, secs), ClockOp(secs + 1)), TuiOp(1, cid, true));
            var s := Apply(Apply(expired, CardsSentOp(0)), TakeOp(0));
            Won(s, 0) && s.callbacks[0].verdict == Approve && Lost(s, cid)
            && 0 in s.awaiters && s.awaiters[0].phase == Failed(UnknownCid)
  {
  }

  lemma VerdictCanBeLost(now: int, cid: Cid, secs: nat)
    ensures var s := Exec(Start(now), LossRun(cid, secs));
            Won(s, 0) && s.callbacks[0].verdict == Approve && Lost(s, cid)
            && 0 in s.awaiters && s.awaiters[0].phase == Failed(UnknownCid)
  {
    hide Apply, Won, Lost;
    var ops := LossRun(cid, secs);
    FirstHalf(now, cid, secs);
    Then(Start(now), ops, 3);
    Then(Start(now), ops, 4);
    Then(Start(now), ops, 5);
    Then(Start(now), ops, 6);
    assert ops[..7] == ops;
    SecondHalf(now, cid, secs);
  }

  lemma Then(s: State, ops: seq<Op>, k: nat)
    requires k < |ops|
    ensures Exec(s, ops[..k + 1]) == Apply(Exec(s, ops[..k]), ops[k])
  {
    assert ops[..k + 1][..k] == ops[..k];
  }

  // --- The gateway as an object ---------------------------------------------

  class HitlGateway {
    var now: int
    var pending: map<Cid, Entry>
    var channels: map<Cid, Channel>
    var callbacks: map<CallbackId, Callback>
    var awaiters: map<AwaiterId, Awaiter>
    var sink: seq<(Cid, Verdict)>

    function View(): State
      reads this
    {
      State(now, pending, channels, callbacks, awaiters, sink)
    }

    constructor (now: int)
      ensures View() == Start(now) && Inv(View())
    {
      this.now, pending, channels, callbacks, awaiters, sink := now, map[], map[], map[], map[], [];
    }

    method AdvanceClock(d: nat)
      requires Inv(View())
      modifies this`now
      ensures View() == Apply(old(View()), ClockOp(d)) && Inv(View())
    {
      ClockInv(View(), d);
      now := now + d;
    }

    /** The caller mints a fresh correlation id. */
    method DispatchCard(aw: AwaiterId, cid: Cid, secs: nat)
      requires Inv(View()) && cid !in channels && aw !in awaiters
      modifies this
      ensures View() == Apply(old(View()), DispatchOp(aw, cid, secs)) && Inv(View())
    {
      hide Inv;
      DispatchInv(View(), aw, cid, secs);
      pending := pending[cid := Entry(true, true, now + secs, false)];
      channels := channels[cid := Channel(SenderInEntry, ReceiverInEntry, None, now + secs, aw, None, None)];
      awaiters := awaiters[aw := Awaiter(cid, true, secs, false, Sending)];
    }

    /** Removing an entry drops the channel ends it holds. */
    method RemoveEntry(cid: Cid)
      requires Inv(View())
      modifies this`pending, this`channels
      ensures View() == Remove(old(View()), cid)
    {
      Facts(View(), cid);
      if cid in pending {
        var e := pending[cid];
        if e.tx {
          channels := channels[cid := channels[cid].(sender := SenderGone)];
        }
        if e.rx {
          channels := channels[cid := channels[cid].(receiver := ReceiverGone)];
        }
        pending := pending - {cid};
      }
    }

    method MarkEntry(cb: CallbackId, cid: Cid, v: Verdict)
      requires Inv(View()) && cb !in callbacks
      modifies this`pending, this`channels, this`callbacks
      ensures View() == Mark(old(View()), cb, cid, v) && Inv(View())
    {
      hide Inv;
      MarkInv(View(), cb, cid, v);
      Facts(View(), cid);
      if cid !in pending {
        callbacks := callbacks[cb := Callback(cid, v, Answered(Gone))];
        return;
      }
      var entry := pending[cid];
      if now > entry.expiresAt {
        RemoveEntry(cid);
        callbacks := callbacks[cb := Callback(cid, v, Answered(Gone))];
        return;
      }
      if entry.resolved {
        callbacks := callbacks[cb := Callback(cid, v, Answered(Conflict))];
        return;
      }
      pending := pending[cid := entry.(resolved := true, tx := false)];
      if entry.tx {
        channels := channels[cid := channels[cid].(sender := SenderHeldBy(cb))];
      }
      callbacks := callbacks[cb := Callback(cid, v, Marked(entry.tx))];
    }

    method ResolveCallback(cb: CallbackId, cid: Cid, authorized: bool, action: Option<Verdict>)
      requires Inv(View()) && cb !in callbacks
      modifies this`pending, this`channels, this`callbacks
      ensures View() == Apply(old(View()), HttpOp(cb, cid, authorized, action)) && Inv(View())
    {
      hide Inv, Mark;
      ApplyInv(View(), HttpOp(cb, cid, authorized, action));
      if !authorized {
        callbacks := callbacks[cb := Callback(cid, Reject, Answered(Unauthorized))];
        return;
      }
      if action.None? {
        callbacks := callbacks[cb := Callback(cid, Reject, Answered(BadRequest))];
        return;
      }
      MarkEntry(cb, cid, action.value);
    }

    method ResolveTui(cb: CallbackId, cid: Cid, approve: bool)
      requires Inv(View()) && cb !in callbacks
      modifies this`pending, this`channels, this`callbacks
      ensures View() == Apply(old(View()), TuiOp(cb, cid, approve)) && Inv(View())
    {
      hide Inv, Mark;
      MarkEntry(cb, cid, if approve then Approve else Reject);
    }

    /** Outside the lock: the send, which may find the receiver gone. */
    method SendVerdict(cb: CallbackId)
      requires Inv(View())
      modifies this`channels, this`callbacks
      ensures View() == Apply(old(View()), DeliverOp(cb)) && Inv(View())
    {
      hide Inv;
      DeliverInv(View(), cb);
      if cb in callbacks && callbacks[cb].phase.Marked? {
        CallbackFacts(View(), cb);
        var c := callbacks[cb];
        var ch := channels[c.cid];
        if ch.receiver.ReceiverGone? {
          channels := channels[c.cid := ch.(sender := SenderGone)];
          callbacks := callbacks[cb := c.(phase := Undelivered)];
        } else {
          channels := channels[c.cid := ch.(sender := SenderGone, value := Some(c.verdict), resolver := Some(cb))];
          callbacks := callbacks[cb := c.(phase := Answered(Resolved))];
        }
      }
    }

    method DiscardEntry(cb: CallbackId)
      requires Inv(View())
      modifies this`pending, this`channels, this`callbacks
      ensures View() == Apply(old(View()), DiscardOp(cb)) && Inv(View())
    {
      hide Inv;
      DiscardInv(View(), cb);
      if cb in callbacks && callbacks[cb].phase.Undelivered? {
        RemoveEntry(callbacks[cb].cid);
        callbacks := callbacks[cb := callbacks[cb].(phase := Answered(Gone))];
      }
    }

    method FinishSending(aw: AwaiterId)
      requires Inv(View())
      modifies this`awaiters
      ensures View() == Apply(old(View()), CardsSentOp(aw)) && Inv(View())
    {
      hide Inv;
      ApplyInv(View(), CardsSentOp(aw));
      if aw in awaiters && awaiters[aw].phase.Sending? {
        awaiters := awaiters[aw := awaiters[aw].(phase := Ready, known := awaiters[aw].cid in pending)];
      }
    }

    method AwaitVerdict(aw: AwaiterId, cid: Cid, timeout: nat)
      requires Inv(View()) && aw !in awaiters
      modifies this`awaiters
      ensures View() == Apply(old(View()), DirectOp(aw, cid, timeout)) && Inv(View())
    {
      hide Inv;
      ApplyInv(View(), DirectOp(aw, cid, timeout));
      awaiters := awaiters[aw := Awaiter(cid, false, timeout, false, Ready)];
    }

    method TakeReceiver(aw: AwaiterId)
      requires Inv(View())
      modifies this`pending, this`channels, this`awaiters
      ensures View() == Apply(old(View()), TakeOp(aw)) && Inv(View())
    {
      hide Inv;
      TakeInv(View(), aw);
      if aw in awaiters && awaiters[aw].phase.Ready? {
        var a := awaiters[aw];
        Facts(View(), a.cid);
        if a.cid !in pending {
          awaiters := awaiters[aw := a.(phase := Failed(UnknownCid))];
        } else if !pending[a.cid].rx {
          awaiters := awaiters[aw := a.(phase := Failed(AlreadyAwaited))];
        } else {
          pending := pending[a.cid := pending[a.cid].(rx := false)];
          channels := channels[a.cid := channels[a.cid].(receiver := ReceiverHeldBy(aw), taker := Some(aw))];
          awaiters := awaiters[aw := a.(phase := Waiting(now + a.timeout))];
        }
      }
    }

    method ReceiveOrTimeOut(aw: AwaiterId)
      requires Inv(View())
      modifies this`channels, this`awaiters
      ensures View() == Apply(old(View()), PollOp(aw)) && Inv(View())
    {
      hide Inv;
      PollInv(View(), aw);
      if aw in awaiters && awaiters[aw].phase.Waiting? {
        AwaiterFacts(View(), aw);
        var a := awaiters[aw];
        var ch := channels[a.cid];
        var next := a.phase;
        if ch.value.Some? {
          next := Got(ch.value.value);
        } else if ch.sender.SenderGone? {
          next := Failed(SenderDropped);
        } else if now >= a.phase.deadline {
          next := Failed(Timeout);
        }
        if next != a.phase {
          awaiters := awaiters[aw := a.(phase := next)];
          channels := channels[a.cid := ch.(receiver := ReceiverGone)];
        }
      }
    }

    method FinishTask(aw: AwaiterId)
      requires Inv(View())
      modifies this`pending, this`channels, this`awaiters, this`sink
      ensures View() == Apply(old(View()), FinishOp(aw)) && Inv(View())
    {
      hide Inv;
      FinishInv(View(), aw);
      if aw in awaiters && awaiters[aw].spawned {
        var a := awaiters[aw];
        if a.phase.Got? {
          if a.known {
            sink := sink + [(a.cid, a.phase.verdict)];
          }
          awaiters := awaiters[aw := a.(phase := Reported(a.phase.verdict))];
        } else if a.phase.Failed? {
          RemoveEntry(a.cid);
          awaiters := awaiters[aw := a.(phase := Closed(a.phase.error))];
        }
      }
    }
  }
}
