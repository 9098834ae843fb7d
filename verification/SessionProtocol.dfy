/** One session shared by any number of threads: Send, DoSend, SendJob, RecvJob and
    Disconnect cut into their atomic steps. */
module SessionProtocol {
  import opened Bytes

  type Packet = p: seq<Byte> | p != [] witness [0]

  /** Who called DoSend. */
  datatype Caller = FromSend | FromSendJob

  /** A swapped batch: the packets number `from` up to `to` of all that were ever pushed. */
  datatype Batch = Batch(from: nat, to: nat)

  /** The next step inside Send and DoSend. `RetireHeld` and `ClearHeld` belong to the repaired
      error path, which retires the fd while the flag is still held. */
  datatype SendPc =
    | TestAndSet
    | Rearm
    | Swap(c: Caller)
    | ClearEmpty(c: Caller)
    | CheckFd(c: Caller, b: Batch)
    | FetchFd(c: Caller, b: Batch)
    | Writev(c: Caller, b: Batch, fetched: bool)
    | ClearFull(c: Caller)
    | ClearGone(c: Caller)
    | ClearBlocked(c: Caller)
    | ClearBroken(c: Caller)
    | SaveTail(c: Caller)
    | Arm(c: Caller)
    | RetireHeld(c: Caller)
    | ClearHeld(c: Caller, won: bool)

  /** The next step inside Disconnect. */
  datatype DisconnectPc = Retire | DeleteEpoll | CloseFd | ReadRecving | ReadSending | CallDisconnected

  /** The next step inside RecvJob. */
  datatype RecvPc = Check | Recv | Completing | Arming | Recheck | Stop

  /** Where a thread goes on after Disconnect. */
  datatype After = ToRearm | ToIdle | ToSave(c: Caller)

  datatype Pc = Idle | InSend(send: SendPc) | InDisconnect(step: DisconnectPc, after: After) | InRecv(recv: RecvPc)

  /** The sending half. mPackets holds the pushed packets from number `taken` on. A byte on the
      wire is named by its place in the concatenation of `pushed`. `stuck`: a short write has
      left the flag set; `lost`: a failed writev has thrown away a batch that ended before
      packet `lostTo` and lets others send; `torn`: something was written after that. */
  datatype Sending = Sending(
    pushed: seq<Packet>, taken: nat, flag: bool, wire: seq<nat>,
    stuck: bool, lost: bool, lostTo: nat, torn: bool,
    armed: bool, ready: nat)
  {
    /** The place of the first byte of packet number k. */
    function Offset(k: nat): nat
      requires k <= |pushed|
    {
      |Concat(pushed[..k])|
    }
  }

  datatype FdEvent = Deleted | Closed
  datatype Socket = Socket(live: bool, log: seq<FdEvent>)

  /** Where the session's RecvJob is. */
  datatype Token = Armed | Ready | Running | Gone
  datatype Callback = OnRecv | OnDisconnected
  datatype Receiving = Receiving(flag: bool, token: Token, calls: seq<Callback>)

  /** Whether a failed writev clears the flag before retiring the fd, as written, or after. */
  datatype Order = AsWritten | RetireFirst

  datatype State = State(order: Order, tx: Sending, fd: Socket, rx: Receiving, pcs: seq<Pc>) {
    function To(t: nat, pc: Pc): State
      requires t < |pcs|
    {
      this.(pcs := pcs[t := pc])
    }
  }

  /** What an idle thread may begin. */
  datatype Begin = Send(p: Packet) | Disconnect | RunSendJob | RunRecvJob

  /** What the environment may answer to writev, and to a thread running RecvJob. */
  datatype WriteAnswer = Wrote(n: nat) | Interrupted | WouldBlock | Failed
  datatype RecvAnswer = More | Drained | Ended | Shown | NothingUnread | Rearmed | NotRearmed

  /** `Go` is the next step of a thread where the code leaves no choice. */
  datatype Label =
    | Starts(t: nat, begin: Begin)
    | Go(t: nat)
    | Writes(t: nat, write: WriteAnswer)
    | Receives(t: nat, answer: RecvAnswer)
    | SendFires
    | RecvFires

  /** Back from DoSend: Send goes on to arm the event, SendJob is done. */
  function Returned(c: Caller): Pc {
    if c == FromSend then InSend(Rearm) else Idle
  }

  function AfterFor(c: Caller): After {
    if c == FromSend then ToRearm else ToIdle
  }

  function Resumed(a: After): Pc {
    match a
    case ToRearm => InSend(Rearm)
    case ToIdle => Idle
    case ToSave(c) => InSend(SaveTail(c))
  }

  function Cleared(s: State): State {
    s.(tx := s.tx.(flag := false))
  }

  function Armed(s: State): State {
    s.(tx := s.tx.(armed := s.tx.armed || s.fd.live))
  }

  function GoSend(s: State, t: nat, pc: SendPc): State
    requires t < |s.pcs| && s.tx.taken <= |s.tx.pushed|
  {
    match pc
    case TestAndSet =>
      s.(tx := s.tx.(flag := true)).To(t, if s.tx.flag then Idle else InSend(Swap(FromSend)))
    case Rearm => Armed(s).To(t, Idle)
    case Swap(c) =>
      var b := Batch(s.tx.taken, |s.tx.pushed|);
      if b.from == b.to then s.To(t, InSend(ClearEmpty(c)))
      else s.(tx := s.tx.(taken := b.to)).To(t, InSend(CheckFd(c, b)))
    case ClearEmpty(c) => Cleared(s).To(t, Returned(c))
    case CheckFd(c, b) => s.To(t, InSend(if s.fd.live then FetchFd(c, b) else ClearGone(c)))
    case FetchFd(c, b) => s.To(t, InSend(Writev(c, b, s.fd.live)))
    case Writev(c, b, fetched) => s
    case ClearFull(c) => Cleared(s).To(t, Returned(c))
    case ClearGone(c) => Cleared(s).To(t, InDisconnect(Retire, AfterFor(c)))
    case ClearBlocked(c) => Cleared(s).To(t, InDisconnect(Retire, AfterFor(c)))
    case ClearBroken(c) => Cleared(s).To(t, InDisconnect(Retire, ToSave(c)))
    case SaveTail(c) => s.To(t, InSend(Arm(c)))
    case Arm(c) => Armed(s).To(t, Returned(c))
    case RetireHeld(c) => s.(fd := s.fd.(live := false)).To(t, InSend(ClearHeld(c, s.fd.live)))
    case ClearHeld(c, won) =>
      Cleared(s).To(t, InDisconnect(if won then DeleteEpoll else ReadRecving, AfterFor(c)))
  }

  function GoDisconnect(s: State, t: nat, step: DisconnectPc, a: After): State
    requires t < |s.pcs|
  {
    match step
    case Retire =>
      s.(fd := s.fd.(live := false)).To(t, InDisconnect(if s.fd.live then DeleteEpoll else ReadRecving, a))
    case DeleteEpoll =>
      s.(fd := s.fd.(log := s.fd.log + [Deleted]),
         rx := if s.rx.token == Token.Armed then s.rx.(token := Gone) else s.rx).To(t, InDisconnect(CloseFd, a))
    case CloseFd => s.(fd := s.fd.(log := s.fd.log + [Closed])).To(t, InDisconnect(ReadRecving, a))
    case ReadRecving => s.To(t, if s.rx.flag then Resumed(a) else InDisconnect(ReadSending, a))
    case ReadSending => s.To(t, if s.tx.flag then Resumed(a) else InDisconnect(CallDisconnected, a))
    case CallDisconnected => s.(rx := s.rx.(calls := s.rx.calls + [OnDisconnected])).To(t, Resumed(a))
  }

  function GoRecv(s: State, t: nat, pc: RecvPc): State
    requires t < |s.pcs|
  {
    match pc
    case Check => s.To(t, InRecv(if s.fd.live then Recv else Stop))
    case Recheck =>
      if s.fd.live then s.(rx := s.rx.(token := Gone)).To(t, Idle) else s.To(t, InRecv(Stop))
    case Stop => s.(rx := s.rx.(flag := false, token := Gone)).To(t, InDisconnect(Retire, ToIdle))
    case _ => s
  }

  function Start(s: State, t: nat, b: Begin): State
    requires t < |s.pcs|
  {
    match b
    case Send(p) => s.(tx := s.tx.(pushed := s.tx.pushed + [p])).To(t, InSend(TestAndSet))
    case Disconnect => s.To(t, InDisconnect(Retire, ToIdle))
    case RunSendJob =>
      s.(tx := s.tx.(ready := if s.tx.ready > 0 then s.tx.ready - 1 else 0)).To(t, InSend(Swap(FromSendJob)))
    case RunRecvJob => s.(rx := s.rx.(token := Running)).To(t, InRecv(Check))
  }

  /** Consecutive places. */
  function Places(at: nat, n: nat): (p: seq<nat>)
    ensures |p| == n && forall i :: 0 <= i < n ==> p[i] == at + i
  {
    seq(n, i requires 0 <= i < n => at + i)
  }

  /** What writev leaves: a short write goes on with the flag still set; a failed one, as
      written, will clear the flag with the fd still in place. */
  function Write(s: State, t: nat, c: Caller, b: Batch, fetched: bool, answer: WriteAnswer): State
    requires t < |s.pcs| && b.from <= |s.tx.pushed| && b.to <= |s.tx.pushed|
  {
    match answer
    case Wrote(n) =>
      var tx := s.tx.(wire := s.tx.wire + Places(s.tx.Offset(b.from), n), torn := s.tx.torn || s.tx.lost);
      if n == s.tx.Offset(b.to) - s.tx.Offset(b.from) then s.(tx := tx).To(t, InSend(ClearFull(c)))
      else s.(tx := tx.(stuck := true)).To(t, InSend(SaveTail(c)))
    case Interrupted => s.To(t, InSend(CheckFd(c, b)))
    case _ =>
      if s.order == RetireFirst then s.To(t, InSend(RetireHeld(c)))
      else
        var tx := if fetched && !s.tx.lost then s.tx.(lost := true, lostTo := b.to) else s.tx;
        s.(tx := tx).To(t, InSend(if answer == WouldBlock then ClearBlocked(c) else ClearBroken(c)))
  }

  function Receive(s: State, t: nat, answer: RecvAnswer): State
    requires t < |s.pcs|
  {
    match answer
    case More => s.To(t, InRecv(Check))
    case Drained => s.To(t, InRecv(Completing))
    case Ended => s.To(t, InRecv(Stop))
    case Shown => s.(rx := s.rx.(calls := s.rx.calls + [OnRecv])).To(t, InRecv(Arming))
    case NothingUnread => s.To(t, InRecv(Arming))
    case Rearmed => s.(rx := s.rx.(token := Token.Armed)).To(t, Idle)
    case NotRearmed => s.To(t, InRecv(Recheck))
  }

  predicate CanStart(s: State, b: Begin) {
    (b.RunSendJob? ==> s.tx.ready > 0) && (b.RunRecvJob? ==> s.rx.token == Ready)
  }

  /** writev takes at most the batch, and needs an fd that was valid when it was fetched and
      that nobody has closed yet. */
  predicate CanWrite(s: State, pc: SendPc, answer: WriteAnswer) {
    pc.Writev? && pc.b.from <= pc.b.to <= |s.tx.pushed|
    && match answer
       case Wrote(n) =>
         pc.fetched && Closed !in s.fd.log && 0 < n <= s.tx.Offset(pc.b.to) - s.tx.Offset(pc.b.from)
       case WouldBlock => pc.fetched
       case _ => true
  }

  /** Arming again needs the fd to be still in the epoll set. */
  predicate CanReceive(s: State, pc: RecvPc, answer: RecvAnswer) {
    match answer
    case More => pc == Recv
    case Drained => pc == Recv
    case Ended => pc == Recv
    case Shown => pc == Completing
    case NothingUnread => pc == Completing
    case Rearmed => pc == Arming && s.fd.log == []
    case NotRearmed => pc == Arming
  }

  predicate CanGo(pc: Pc) {
    match pc
    case Idle => false
    case InSend(x) => !x.Writev?
    case InDisconnect(_, _) => true
    case InRecv(x) => x == Check || x == Recheck || x == Stop
  }

  predicate Enabled(s: State, l: Label) {
    s.tx.taken <= |s.tx.pushed|
    && match l
       case Starts(t, b) => t < |s.pcs| && s.pcs[t].Idle? && CanStart(s, b)
       case Go(t) => t < |s.pcs| && CanGo(s.pcs[t])
       case Writes(t, w) => t < |s.pcs| && s.pcs[t].InSend? && CanWrite(s, s.pcs[t].send, w)
       case Receives(t, a) => t < |s.pcs| && s.pcs[t].InRecv? && CanReceive(s, s.pcs[t].recv, a)
       case SendFires => s.tx.armed
       case RecvFires => s.rx.token == Token.Armed
  }

  function GoStep(s: State, t: nat): State
    requires Enabled(s, Go(t))
  {
    match s.pcs[t]
    case InSend(x) => GoSend(s, t, x)
    case InDisconnect(x, a) => GoDisconnect(s, t, x, a)
    case InRecv(x) => GoRecv(s, t, x)
    case Idle => s
  }

  function Next(s: State, l: Label): State
    requires Enabled(s, l)
  {
    match l
    case Starts(t, b) => Start(s, t, b)
    case Go(t) => GoStep(s, t)
    case Writes(t, w) =>
      var pc := s.pcs[t].send;
      Write(s, t, pc.c, pc.b, pc.fetched, w)
    case Receives(t, a) => Receive(s, t, a)
    case SendFires => s.(tx := s.tx.(armed := false, ready := s.tx.ready + 1))
    case RecvFires => s.(rx := s.rx.(token := Ready))
  }

  /** A new session: its RecvJob armed, no thread doing anything yet. */
  ghost predicate Initial(s: State) {
    && s.tx == Sending([], 0, false, [], false, false, 0, false, false, 0)
    && s.fd == Socket(true, [])
    && s.rx == Receiving(true, Token.Armed, [])
    && forall i :: 0 <= i < |s.pcs| ==> s.pcs[i] == Idle
  }

  /** The label sequences that a state allows, and where they lead. */
  ghost predicate LegalRun(s: State, ls: seq<Label>)
    decreases |ls|, 0
  {
    ls == [] || (LegalRun(s, ls[..|ls| - 1]) && Enabled(Run(s, ls[..|ls| - 1]), ls[|ls| - 1]))
  }

  ghost function Run(s: State, ls: seq<Label>): State
    requires LegalRun(s, ls)
    decreases |ls|, 1
  {
    if ls == [] then s else Next(Run(s, ls[..|ls| - 1]), ls[|ls| - 1])
  }
}
