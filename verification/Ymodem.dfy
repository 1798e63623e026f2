/** Sending one file by YMODEM batch over a link that loses or detectably damages packets and
    replies. Sender and receiver run side by side; a time-out fires only when nothing is under way. */
module Ymodem {
  import opened Wrappers

  const BLOCK := 1024
  const PAD := 0x1a
  const RETRIES := 10
  const STARTUP_RETRIES := 30

  type File = seq<int>

  /** How many data blocks a file takes. */
  function Blocks(f: File): nat { (|f| + BLOCK - 1) / BLOCK }

  function Least(a: int, b: int): int { if a < b then a else b }

  /** How many bytes of the file the first `r` blocks carry. */
  function Bytes(f: File, r: nat): nat { Least(BLOCK * r, |f|) }

  /** The payload of data block `i`, filled up with the pad byte. */
  function Block(f: File, i: nat): (b: seq<int>)
    requires i >= 1 && BLOCK * (i - 1) <= |f|
    ensures |b| == BLOCK
  {
    var part := f[BLOCK * (i - 1)..Bytes(f, i)];
    part + seq(BLOCK - |part|, _ => PAD)
  }

  // A packet under way: 0 is the header, 1 to n the data blocks, n + 1 the end of the transmission.
  // Only its number modulo 256 is on the wire.

  datatype Reply = Ack | Nak | Ready | Noise

  /** `cur` is -1 until the receiver has asked for the header; `awaits` is the pause between the
      header's acknowledgement and the request for data; `sends` counts the tries of `cur`. */
  datatype Sender = Sender(cur: int, awaits: bool, sends: nat, stopped: bool)

  /** `r` is -1 until the header has come, then the number of blocks taken. */
  datatype Receiver = Receiver(
    r: int, errors: nat, waiting: nat, headers: nat, sunk: seq<int>, finished: bool, failed: bool)

  datatype Link = Link(snd: Sender, rcv: Receiver, fwd: seq<nat>, rev: seq<Reply>)

  datatype Event =
    | SenderReads | SenderTimesOut | SenderGivesUp
    | ReceiverReads(intact: bool) | ReceiverTimesOut | ReceiverGivesUp | BothTimeOut
    | LosePacket(k: nat) | LoseReply(k: nat) | GarbleReply(k: nat)

  const START := Link(Sender(-1, false, 0, false), Receiver(-1, 0, 0, 0, [], false, false), [], [Ready])

  // ---------- the sender ----------

  function Send(l: Link, s: Sender): Link
    requires s.cur >= 0
  {
    l.(snd := s, fwd := l.fwd + [s.cur])
  }

  function Stop(l: Link): Link { l.(snd := l.snd.(stopped := true)) }

  /** The current packet once more, unless it has been tried often enough. */
  function Resend(f: File, l: Link): Link {
    if l.snd.cur < 0 then l
    else if l.snd.cur <= Blocks(f) && l.snd.sends >= RETRIES then Stop(l)
    else Send(l, l.snd.(sends := l.snd.sends + 1))
  }

  function SenderTakes(f: File, l: Link, c: Reply): Link {
    var s := l.snd;
    if s.cur < 0 then if c == Ready then Send(l, Sender(0, false, 1, false)) else l
    else if s.awaits then if c == Ready then Send(l, Sender(1, false, 1, false)) else Stop(l)
    else if c != Ack then Resend(f, l)
    else if s.cur == 0 then l.(snd := s.(awaits := true))
    else if s.cur <= Blocks(f) then Send(l, Sender(s.cur + 1, false, 1, false))
    else Stop(l)
  }

  /** Silence: the request for data does not come, or the packet has to be sent again. */
  function SenderWaits(f: File, l: Link): Link { if l.snd.awaits then Stop(l) else Resend(f, l) }

  // ---------- the receiver ----------

  function Answer(l: Link, r: Receiver, replies: seq<Reply>): Link { l.(rcv := r, rev := l.rev + replies) }

  function Fail(l: Link): Link { l.(rcv := l.rcv.(failed := true)) }

  /** Ask for the header again, or give up. */
  function AskAgain(l: Link): Link {
    if l.rcv.waiting + 1 >= STARTUP_RETRIES then Fail(l)
    else Answer(l, l.rcv.(waiting := l.rcv.waiting + 1), [Ready])
  }

  /** One more error in the data phase: answer with `replies`, or give up. */
  function Trouble(l: Link, replies: seq<Reply>): Link {
    if l.rcv.errors + 1 >= RETRIES then Fail(l) else Answer(l, l.rcv.(errors := l.rcv.errors + 1), replies)
  }

  /** An intact packet numbered `i`, while the header is awaited. */
  function TakesHeader(l: Link, i: nat): Link {
    if i == 0 then Answer(l, l.rcv.(r := 0, errors := 0, headers := l.rcv.headers + 1), [Ack, Ready])
    else AskAgain(l)
  }

  /** What the receiver does with the payload of block `i` it takes for the next one: it writes out as much
      as the announced size leaves room for. */
  function Accepts(f: File, l: Link, i: nat): Link
    requires 0 <= l.rcv.r < Blocks(f) && 1 <= i <= Blocks(f)
  {
    var room := |f| - Bytes(f, l.rcv.r);
    Answer(l, l.rcv.(r := l.rcv.r + 1, errors := 0, sunk := l.rcv.sunk + Block(f, i)[..Least(BLOCK, room)]), [Ack])
  }

  /** The end of the transmission: the file is finished if it has the announced size. */
  function TakesEnd(f: File, l: Link): Link
    requires 0 <= l.rcv.r
  {
    if Bytes(f, l.rcv.r) != |f| then Fail(l) else l.(rcv := l.rcv.(finished := true))
  }

  /** An intact packet in the data phase. Of its number `i` the receiver sees the last eight bits; a repeated
      header counts as such only before the first block. */
  function TakesData(f: File, l: Link, i: nat): Link
    requires 0 <= l.rcv.r <= Blocks(f) && i <= Blocks(f) + 1
  {
    var r := l.rcv.r;
    if i == Blocks(f) + 1 then TakesEnd(f, l)
    else if i % 256 == 0 && r == 0 then
      if i == 0 then Answer(l, l.rcv.(errors := 0, headers := l.rcv.headers + 1), [Ack, Ready]) else Fail(l)
    else if i % 256 == (r + 1) % 256 then
      if r == Blocks(f) || i == 0 then Fail(l) else Accepts(f, l, i)
    else if i % 256 == r % 256 then Trouble(l, [Ack])
    else Fail(l)
  }

  function ReceiverTakes(f: File, l: Link, i: nat, intact: bool): Link
    requires -1 <= l.rcv.r <= Blocks(f) && i <= Blocks(f) + 1
  {
    if l.rcv.r < 0 then if intact then TakesHeader(l, i) else AskAgain(l)
    else if intact then TakesData(f, l, i) else Trouble(l, [Nak])
  }

  /** Silence: before the first block it may be the sender that missed the acknowledgement of the header. */
  function ReceiverWaits(l: Link): Link {
    if l.rcv.r < 0 then AskAgain(l) else Trouble(l, if l.rcv.r == 0 then [Ack, Ready] else [Nak])
  }

  // ---------- the two together ----------

  predicate Receiving(l: Link) { !l.rcv.finished && !l.rcv.failed }

  predicate Idle(l: Link) { l.fwd == [] && l.rev == [] }

  predicate InBounds(f: File, l: Link) {
    -1 <= l.rcv.r <= Blocks(f) && forall p :: 0 <= p < |l.fwd| ==> l.fwd[p] <= Blocks(f) + 1
  }

  predicate Enabled(l: Link, e: Event) {
    match e
    case SenderReads => !l.snd.stopped && |l.rev| > 0
    case SenderTimesOut => !l.snd.stopped && Idle(l)
    case SenderGivesUp => true
    case ReceiverReads(_) => Receiving(l) && |l.fwd| > 0
    case ReceiverTimesOut => Receiving(l) && Idle(l)
    case ReceiverGivesUp => Receiving(l)
    case BothTimeOut => !l.snd.stopped && Receiving(l) && Idle(l)
    case LosePacket(k) => k < |l.fwd|
    case LoseReply(k) => k < |l.rev|
    case GarbleReply(k) => k < |l.rev|
  }

  function Next(f: File, l: Link, e: Event): Link
    requires InBounds(f, l) && Enabled(l, e)
  {
    match e
    case SenderReads => SenderTakes(f, l.(rev := l.rev[1..]), l.rev[0])
    case SenderTimesOut => SenderWaits(f, l)
    case SenderGivesUp => Stop(l)
    case ReceiverReads(intact) => ReceiverTakes(f, l.(fwd := l.fwd[1..]), l.fwd[0], intact)
    case ReceiverTimesOut => ReceiverWaits(l)
    case ReceiverGivesUp => Fail(l)
    case BothTimeOut => ReceiverWaits(SenderWaits(f, l))
    case LosePacket(k) => l.(fwd := Without(l.fwd, k))
    case LoseReply(k) => l.(rev := Without(l.rev, k))
    case GarbleReply(k) => l.(rev := l.rev[k := Noise])
  }

  function Without<T>(s: seq<T>, k: nat): seq<T>
    requires k < |s|
  {
    s[..k] + s[k + 1..]
  }

  ghost predicate Follows(f: File, l: Link, l': Link) {
    InBounds(f, l) && exists e :: Enabled(l, e) && l' == Next(f, l, e)
  }

  /** `run` is a run of the link from its start. */
  ghost predicate IsRun(f: File, run: seq<Link>) {
    |run| > 0 && run[0] == START && forall i :: 0 < i < |run| ==> Follows(f, run[i - 1], run[i])
  }

  // ---------- how far apart the two can get ----------

  /** How many replies a packet can bring about. */
  function Weight(i: nat): nat { if i == 0 then 2 else 1 }

  function Load(fwd: seq<nat>): nat { if fwd == [] then 0 else Weight(fwd[0]) + Load(fwd[1..]) }

  function Acks(rev: seq<Reply>): nat { if rev == [] then 0 else (if rev[0] == Ack then 1 else 0) + Acks(rev[1..]) }

  function Headers(fwd: seq<nat>): nat { if fwd == [] then 0 else (if fwd[0] == 0 then 1 else 0) + Headers(fwd[1..]) }

  lemma {:induction false} LoadAdds(a: seq<nat>, b: seq<nat>)
    ensures Load(a + b) == Load(a) + Load(b)
    ensures Headers(a + b) == Headers(a) + Headers(b)
  {
    if a == [] {
      assert a + b == b;
    } else {
      assert (a + b)[1..] == a[1..] + b;
      LoadAdds(a[1..], b);
    }
  }

  lemma {:induction false} AcksAdd(a: seq<Reply>, b: seq<Reply>)
    ensures Acks(a + b) == Acks(a) + Acks(b)
  {
    if a == [] {
      assert a + b == b;
    } else {
      assert (a + b)[1..] == a[1..] + b;
      AcksAdd(a[1..], b);
    }
  }

  lemma {:induction false} FewerAcks(rev: seq<Reply>)
    ensures Acks(rev) <= |rev|
  {
    if rev != [] { FewerAcks(rev[1..]); }
  }

  lemma {:induction false} AcksLost(rev: seq<Reply>, k: nat)
    requires k < |rev|
    ensures Acks(Without(rev, k)) <= Acks(rev) && Acks(rev[k := Noise]) <= Acks(rev)
  {
    AcksAdd(rev[..k], rev[k + 1..]);
    AcksAdd(rev[..k], [rev[k]] + rev[k + 1..]);
    AcksAdd([rev[k]], rev[k + 1..]);
    AcksAdd(rev[..k], [Noise] + rev[k + 1..]);
    AcksAdd([Noise], rev[k + 1..]);
    assert rev == rev[..k] + ([rev[k]] + rev[k + 1..]);
    assert rev[k := Noise] == rev[..k] + ([Noise] + rev[k + 1..]);
  }

  // What stays true of the packets under way as the sender and the receiver go on.

  const SLACK := RETRIES + 2

  predicate InOrder(fwd: seq<nat>, cur: int) {
    (forall p, q :: 0 <= p < q < |fwd| ==> fwd[p] <= fwd[q]) && (forall p :: 0 <= p < |fwd| ==> fwd[p] <= cur)
  }

  /** What is under way ahead of a packet bounds how far the sender has got past it. */
  predicate Close(fwd: seq<nat>, cur: int, replies: int) {
    forall p :: 0 <= p < |fwd| ==> cur - fwd[p] + replies + Load(fwd[..p]) <= SLACK
  }

  lemma {:induction false} CloseWhenSent(fwd: seq<nat>, cur: int, replies: int, next: nat)
    requires InOrder(fwd, cur) && Close(fwd, cur, replies) && cur <= next
    requires 0 <= replies && replies + Load(fwd) <= SLACK
    requires next > cur ==> Close(fwd, next, replies)
    ensures InOrder(fwd + [next], next) && Close(fwd + [next], next, replies)
    ensures Load(fwd + [next]) == Load(fwd) + Weight(next)
    ensures Headers(fwd + [next]) == Headers(fwd) + if next == 0 then 1 else 0
  {
    LoadAdds(fwd, [next]);
    forall p | 0 <= p < |fwd + [next]|
      ensures next - (fwd + [next])[p] + replies + Load((fwd + [next])[..p]) <= SLACK
    {
      assert (fwd + [next])[..p] == fwd[..p];
      if p == |fwd| { assert fwd[..p] == fwd; }
    }
  }

  lemma {:induction false} CloseWhenTaken(fwd: seq<nat>, cur: int, replies: int, more: nat)
    requires fwd != [] && InOrder(fwd, cur) && Close(fwd, cur, replies) && more <= Weight(fwd[0])
    ensures InOrder(fwd[1..], cur) && Close(fwd[1..], cur, replies + more)
    ensures Load(fwd) == Weight(fwd[0]) + Load(fwd[1..])
    ensures cur - fwd[0] + replies <= SLACK
  {
    assert cur - fwd[0] + replies + Load(fwd[..0]) <= SLACK;
    forall p | 0 <= p < |fwd[1..]|
      ensures cur - fwd[1..][p] + replies + more + Load(fwd[1..][..p]) <= SLACK
    {
      assert fwd[..p + 1][1..] == fwd[1..][..p];
      assert cur - fwd[p + 1] + replies + Load(fwd[..p + 1]) <= SLACK;
    }
  }

  lemma {:induction false} LighterWhenLost(fwd: seq<nat>, k: nat)
    requires k < |fwd|
    ensures Load(Without(fwd, k)) <= Load(fwd) && Headers(Without(fwd, k)) <= Headers(fwd)
  {
    LoadAdds(fwd[..k], fwd[k + 1..]);
    LoadAdds([fwd[k]], fwd[k + 1..]);
    LoadAdds(fwd[..k], [fwd[k]] + fwd[k + 1..]);
    assert fwd == fwd[..k] + ([fwd[k]] + fwd[k + 1..]);
  }

  lemma {:induction false} CloseWhenLost(fwd: seq<nat>, cur: int, replies: int, k: nat)
    requires k < |fwd| && InOrder(fwd, cur) && Close(fwd, cur, replies)
    ensures InOrder(Without(fwd, k), cur) && Close(Without(fwd, k), cur, replies)
  {
    hide Load;
    var rest := Without(fwd, k);
    forall p | 0 <= p < |rest|
      ensures cur - rest[p] + replies + Load(rest[..p]) <= SLACK
    {
      if p < k {
        assert rest[..p] == fwd[..p];
      } else {
        assert rest[..p] == Without(fwd[..p + 1], k);
        LighterWhenLost(fwd[..p + 1], k);
        assert cur - fwd[p + 1] + replies + Load(fwd[..p + 1]) <= SLACK;
      }
    }
  }

  // ---------- the invariant ----------

  /** How often the header has been sent; it is sent no more once it has been acknowledged. */
  function HeaderSends(s: Sender): nat { if s.cur < 0 then 0 else if s.cur == 0 then s.sends else RETRIES }

  /** How far the sender has got, counting the acknowledgement of the header. */
  function Reached(s: Sender): int { s.cur + if s.awaits then 1 else 0 }

  predicate Underway(f: File, l: Link) {
    var s := l.snd;
    -1 <= s.cur <= Blocks(f) + 1 && (s.cur >= 0 ==> s.sends >= 1) && HeaderSends(s) <= RETRIES && (s.awaits ==> s.cur == 0) &&
    InOrder(l.fwd, s.cur) && Close(l.fwd, s.cur, |l.rev|) && |l.rev| + Load(l.fwd) <= 2 + HeaderSends(s) &&
    l.rcv.headers + Headers(l.fwd) <= HeaderSends(s)
  }

  /** How far the sender can be past the receiver: before the first block, each header that came may have
      acknowledged one step; after it, no more than what is under way. */
  predicate Together(l: Link) {
    var r := l.rcv.r;
    r <= l.snd.cur && l.rcv.errors < RETRIES && (forall p :: 0 <= p < |l.fwd| ==> r <= l.fwd[p]) &&
    (r < 0 ==> Reached(l.snd) <= 0 && Acks(l.rev) == 0) &&
    (r == 0 ==> Reached(l.snd) + Acks(l.rev) <= RETRIES * l.rcv.headers + l.rcv.errors) &&
    (r > 0 ==> l.snd.cur - r + Acks(l.rev) <= SLACK + 1)
  }

  predicate Kept(f: File, l: Link) {
    -1 <= l.rcv.r <= Blocks(f) && l.rcv.sunk == f[..if l.rcv.r < 0 then 0 else Bytes(f, l.rcv.r)] &&
    (l.rcv.finished ==> l.rcv.sunk == f)
  }

  predicate Inv(f: File, l: Link) { Underway(f, l) && (Receiving(l) ==> Together(l)) && Kept(f, l) }

  // ---------- every event keeps it ----------

  /** The sender's next packet, after one reply has been read or while nothing is under way. */
  lemma {:induction false} SendKeeps(f: File, l: Link, s: Sender)
    requires Underway(f, l) && 0 <= s.cur <= Blocks(f) + 1 && !s.awaits && s.sends >= 1
    requires HeaderSends(l.snd) + Weight(s.cur) - 1 <= HeaderSends(s) <= RETRIES
    requires l.snd.cur <= s.cur && Close(l.fwd, s.cur, |l.rev|)
    requires |l.rev| + Load(l.fwd) <= 1 + HeaderSends(l.snd)
    ensures Underway(f, Send(l, s))
  {
    CloseWhenSent(l.fwd, l.snd.cur, |l.rev|, s.cur);
  }

  lemma {:induction false} ResendKeeps(f: File, l: Link)
    requires Inv(f, l) && !l.snd.awaits && |l.rev| + Load(l.fwd) <= 1 + HeaderSends(l.snd)
    ensures Inv(f, Resend(f, l))
  {
    hide Close, InOrder, Load, Headers, Acks;
    var s := l.snd.(sends := l.snd.sends + 1);
    if l.snd.cur >= 0 && !(l.snd.cur <= Blocks(f) && l.snd.sends >= RETRIES) {
      SendKeeps(f, l, s);
    }
  }

  /** One reply read leaves room for one step of the sender. */
  lemma {:induction false} ReplyRead(f: File, l: Link)
    requires Inv(f, l) && l.rev != []
    ensures Inv(f, l.(rev := l.rev[1..]))
    ensures Close(l.fwd, l.snd.cur + 1, |l.rev[1..]|) && |l.rev[1..]| + Load(l.fwd) <= 1 + HeaderSends(l.snd)
    ensures Acks(l.rev) == Acks(l.rev[1..]) + if l.rev[0] == Ack then 1 else 0
  {
  }

  lemma {:induction false} SenderTakesKeeps(f: File, l: Link)
    requires Inv(f, l) && Enabled(l, SenderReads)
    ensures Inv(f, Next(f, l, SenderReads))
  {
    hide Close, InOrder, Load, Headers, Acks;
    ReplyRead(f, l);
    var c, l0 := l.rev[0], l.(rev := l.rev[1..]);
    var s := l.snd;
    if s.cur < 0 {
      if c == Ready { StepKeeps(f, l, 0); }
    } else if s.awaits {
      if c == Ready { StepKeeps(f, l, 1); }
    } else if c != Ack {
      ResendKeeps(f, l0);
    } else if 0 < s.cur <= Blocks(f) {
      StepKeeps(f, l, s.cur + 1);
    }
  }

  /** The sender going on to packet `next`. */
  lemma {:induction false} StepKeeps(f: File, l: Link, next: nat)
    requires Inv(f, l) && l.rev != [] && next <= Blocks(f) + 1 && next == l.snd.cur + 1
    requires if next == 0 then true else if next == 1 then l.snd.awaits else l.rev[0] == Ack
    ensures Inv(f, Send(l.(rev := l.rev[1..]), Sender(next, false, 1, false)))
  {
    hide Close, InOrder, Load, Headers, Acks;
    ReplyRead(f, l);
    SendKeeps(f, l.(rev := l.rev[1..]), Sender(next, false, 1, false));
  }

  /** What replies bring about in the counts. */
  lemma {:induction false} ReplySent(rev: seq<Reply>, replies: seq<Reply>)
    requires |replies| <= 2
    ensures Acks(rev + replies) == Acks(rev) + (if |replies| > 0 && replies[0] == Ack then 1 else 0)
                                   + (if |replies| > 1 && replies[1] == Ack then 1 else 0)
  {
    AcksAdd(rev, replies);
    if |replies| == 2 {
      assert replies[1..][1..] == [] && Acks(replies[1..]) == if replies[1] == Ack then 1 else 0;
    } else if |replies| == 1 {
      assert replies[1..] == [];
    } else {
      assert replies == [];
    }
  }

  /** The receiver's answer to the packet it has read: `l` is the link before it. */
  lemma {:induction false} AnswerKeepsUnderway(f: File, l: Link, r: Receiver, replies: seq<Reply>)
    requires Underway(f, l) && l.fwd != [] && |replies| <= Weight(l.fwd[0])
    requires r.headers <= l.rcv.headers + if l.fwd[0] == 0 then 1 else 0
    ensures Underway(f, Answer(l.(fwd := l.fwd[1..]), r, replies))
  {
    CloseWhenTaken(l.fwd, l.snd.cur, |l.rev|, |replies|);
  }

  /** The true number of an intact packet is known from its last eight bits. */
  lemma {:induction false} NumberIsKnown(f: File, l: Link)
    requires Inv(f, l) && Receiving(l) && l.fwd != [] && l.rcv.r >= 0
    ensures l.rcv.r <= l.fwd[0] <= l.rcv.r + RETRIES * RETRIES + RETRIES
    ensures l.fwd[0] % 256 == (l.rcv.r + 1) % 256 <==> l.fwd[0] == l.rcv.r + 1
    ensures l.fwd[0] % 256 == l.rcv.r % 256 <==> l.fwd[0] == l.rcv.r
    ensures l.rcv.r == 0 ==> (l.fwd[0] % 256 == 0 <==> l.fwd[0] == 0)
    ensures l.snd.cur - l.fwd[0] + |l.rev| <= SLACK
  {
    CloseWhenTaken(l.fwd, l.snd.cur, |l.rev|, 0);
  }

  lemma {:induction false} BlockContinues(f: File, r: nat)
    requires r < Blocks(f)
    ensures f[..Bytes(f, r)] + Block(f, r + 1)[..Least(BLOCK, |f| - Bytes(f, r))] == f[..Bytes(f, r + 1)]
  {
    var room := Least(BLOCK, |f| - Bytes(f, r));
    var part := f[BLOCK * r..Bytes(f, r + 1)];
    assert Bytes(f, r) == BLOCK * r && Bytes(f, r + 1) == BLOCK * r + room;
    assert Block(f, r + 1)[..room] == part;
  }

  lemma {:induction false} AcceptKeeps(f: File, l: Link)
    requires Inv(f, l) && Receiving(l) && l.fwd != [] && 0 <= l.rcv.r < Blocks(f) && l.fwd[0] == l.rcv.r + 1
    ensures Inv(f, Accepts(f, l.(fwd := l.fwd[1..]), l.fwd[0]))
  {
    hide Close, Load, Headers, Acks, Block;
    var l' := Accepts(f, l.(fwd := l.fwd[1..]), l.fwd[0]);
    AnswerKeepsUnderway(f, l, l'.rcv, [Ack]);
    NumberIsKnown(f, l);
    ReplySent(l.rev, [Ack]);
    FewerAcks(l.rev);
    BlockContinues(f, l.rcv.r);
  }

  lemma {:induction false} TakesDataKeeps(f: File, l: Link)
    requires Inv(f, l) && Receiving(l) && l.fwd != [] && l.rcv.r >= 0
    ensures Inv(f, TakesData(f, l.(fwd := l.fwd[1..]), l.fwd[0]))
  {
    hide Close, Load, Headers, Acks, Block;
    var i, r := l.fwd[0], l.rcv.r;
    NumberIsKnown(f, l);
    AnswerKeepsUnderway(f, l, l.rcv, []);
    if i == Blocks(f) + 1 {
    } else if i == 0 {
      AnswerKeepsUnderway(f, l, l.rcv.(errors := 0, headers := l.rcv.headers + 1), [Ack, Ready]);
      ReplySent(l.rev, [Ack, Ready]);
    } else if i == r + 1 {
      if r < Blocks(f) { AcceptKeeps(f, l); }
    } else if i == r {
      AnswerKeepsUnderway(f, l, l.rcv.(errors := l.rcv.errors + 1), [Ack]);
      ReplySent(l.rev, [Ack]);
      FewerAcks(l.rev);
    }
  }

  lemma {:induction false} TakesHeaderKeeps(f: File, l: Link, intact: bool)
    requires Inv(f, l) && Receiving(l) && l.fwd != [] && l.rcv.r < 0
    ensures Inv(f, ReceiverTakes(f, l.(fwd := l.fwd[1..]), l.fwd[0], intact))
  {
    hide Close, Load, Headers, Acks, Block;
    AnswerKeepsUnderway(f, l, l.rcv, []);
    AnswerKeepsUnderway(f, l, l.rcv.(waiting := l.rcv.waiting + 1), [Ready]);
    if l.fwd[0] == 0 {
      AnswerKeepsUnderway(f, l, l.rcv.(r := 0, errors := 0, headers := l.rcv.headers + 1), [Ack, Ready]);
    }
    ReplySent(l.rev, [Ready]);
    ReplySent(l.rev, [Ack, Ready]);
  }

  lemma {:induction false} ReceiverTakesKeeps(f: File, l: Link, intact: bool)
    requires Inv(f, l) && Enabled(l, ReceiverReads(intact))
    ensures Inv(f, Next(f, l, ReceiverReads(intact)))
  {
    hide Close, Load, Headers, Acks, Block, TakesData;
    if l.rcv.r < 0 {
      TakesHeaderKeeps(f, l, intact);
    } else if intact {
      TakesDataKeeps(f, l);
    } else {
      AnswerKeepsUnderway(f, l, l.rcv, []);
      AnswerKeepsUnderway(f, l, l.rcv.(errors := l.rcv.errors + 1), [Nak]);
      ReplySent(l.rev, [Nak]);
    }
  }

  /** The receiver's answer to silence, while at most one packet sent in the same silence is under way. */
  lemma {:induction false} WaitKeepsUnderway(f: File, l: Link, r: Receiver, replies: seq<Reply>)
    requires Underway(f, l) && Fresh(l) && |replies| <= 2 && r.headers == l.rcv.headers
    ensures Underway(f, Answer(l, r, replies))
  {
    if l.fwd != [] {
      assert l.fwd[..0] == [];
      assert l.fwd[1..] == [] && Load(l.fwd) == Weight(l.fwd[0]);
    }
  }

  lemma {:induction false} ReceiverWaitsKeeps(f: File, l: Link)
    requires Inv(f, l) && Receiving(l) && Fresh(l)
    ensures Inv(f, ReceiverWaits(l))
  {
    hide Close, Load, Headers, Acks, Block;
    var l' := ReceiverWaits(l);
    assert Acks([]) == 0 by { FewerAcks([]); }
    ReplySent([], [Ready]);
    ReplySent([], [Ack, Ready]);
    ReplySent([], [Nak]);
    if Receiving(l') {
      WaitKeepsUnderway(f, l, l'.rcv, if l.rcv.r < 0 then [Ready] else if l.rcv.r == 0 then [Ack, Ready] else [Nak]);
    }
  }

  /** No reply is under way, and no packet but one just sent again. */
  predicate Fresh(l: Link) { l.rev == [] && (l.fwd == [] || (l.fwd == [l.snd.cur] && (l.snd.cur == 0 ==> l.snd.sends >= 2))) }

  lemma {:induction false} SenderWaitsKeeps(f: File, l: Link)
    requires Inv(f, l) && Idle(l)
    ensures Inv(f, SenderWaits(f, l)) && Fresh(SenderWaits(f, l)) && SenderWaits(f, l).rcv == l.rcv
  {
    if !l.snd.awaits { IdleResendKeeps(f, l); }
  }

  lemma {:induction false} PacketLossKeeps(f: File, l: Link, k: nat)
    requires Inv(f, l) && k < |l.fwd|
    ensures Inv(f, l.(fwd := Without(l.fwd, k)))
  {
    hide Load, Headers, Acks, Close;
    CloseWhenLost(l.fwd, l.snd.cur, |l.rev|, k);
    LighterWhenLost(l.fwd, k);
  }

  lemma {:induction false} ReplyLossKeeps(f: File, l: Link, rev: seq<Reply>)
    requires Inv(f, l) && |rev| <= |l.rev| && Acks(rev) <= Acks(l.rev)
    ensures Inv(f, l.(rev := rev))
  {
    hide Load, Headers, Acks;
  }

  lemma {:induction false} StepKeepsInv(f: File, l: Link, e: Event)
    requires Inv(f, l) && Enabled(l, e)
    ensures InBounds(f, l) && Inv(f, Next(f, l, e))
  {
    hide Load, Headers, Acks, Close, ReceiverTakes, SenderTakes, ReceiverWaits, SenderWaits, Block;
    match e
    case SenderReads => SenderTakesKeeps(f, l);
    case SenderTimesOut => SenderWaitsKeeps(f, l);
    case SenderGivesUp =>
    case ReceiverReads(intact) => ReceiverTakesKeeps(f, l, intact);
    case ReceiverTimesOut => ReceiverWaitsKeeps(f, l);
    case BothTimeOut => SenderWaitsKeeps(f, l); ReceiverWaitsKeeps(f, SenderWaits(f, l));
    case ReceiverGivesUp =>
    case LosePacket(k) => PacketLossKeeps(f, l, k);
    case LoseReply(k) => AcksLost(l.rev, k); ReplyLossKeeps(f, l, Without(l.rev, k));
    case GarbleReply(k) => AcksLost(l.rev, k); ReplyLossKeeps(f, l, l.rev[k := Noise]);
  }

  lemma {:induction false} IdleResendKeeps(f: File, l: Link)
    requires Inv(f, l) && Idle(l) && !l.snd.awaits
    ensures Inv(f, Resend(f, l))
  {
    ResendKeeps(f, l);
  }

  // ---------- what the transfer guarantees ----------

  lemma {:induction false} RunKeepsInv(f: File, run: seq<Link>, i: nat)
    requires IsRun(f, run) && i < |run|
    ensures Inv(f, run[i])
  {
    hide Inv, Next, InBounds, Enabled;
    if i == 0 {
      StartIsSafe(f);
    } else {
      RunKeepsInv(f, run, i - 1);
      assert Follows(f, run[i - 1], run[i]);
      var e :| Enabled(run[i - 1], e) && run[i] == Next(f, run[i - 1], e);
      StepKeepsInv(f, run[i - 1], e);
    }
  }

  lemma {:induction false} StartIsSafe(f: File)
    ensures Inv(f, START)
  {
  }

  /** What was written out is never taken back. */
  lemma {:induction false} StepOnlyAdds(f: File, l: Link, l': Link)
    requires Inv(f, l) && Follows(f, l, l')
    ensures l.rcv.sunk <= l'.rcv.sunk
  {
    hide Load, Headers, Acks, Close, Block;
  }

  lemma {:induction false} RunOnlyAdds(f: File, run: seq<Link>, i: nat, j: nat)
    requires IsRun(f, run) && i <= j < |run|
    ensures run[i].rcv.sunk <= run[j].rcv.sunk
  {
    hide Inv, Follows;
    if i < j {
      RunOnlyAdds(f, run, i, j - 1);
      RunKeepsInv(f, run, j - 1);
      StepOnlyAdds(f, run[j - 1], run[j]);
    }
  }

  /** Over every run, whatever is lost, damaged or sent twice: the bytes written out are the first bytes of the
      file, what was written out is never taken back, and the file is finished only when it is complete. */
  lemma {:induction false} SunkIsAlwaysAPrefix(f: File, run: seq<Link>, i: nat, j: nat)
    requires IsRun(f, run) && i <= j < |run|
    ensures run[i].rcv.sunk <= run[j].rcv.sunk <= f
    ensures run[i].rcv.finished ==> run[j].rcv.sunk == run[i].rcv.sunk == f
  {
    RunKeepsInv(f, run, i);
    RunKeepsInv(f, run, j);
    RunOnlyAdds(f, run, i, j);
  }

  // ---------- and losses do not stand in the way ----------

  /** What a course of events leads to; None when one of them is not possible. */
  function Played(f: File, l: Link, events: seq<Event>): Option<Link>
    decreases |events|
  {
    if events == [] then Some(l)
    else if InBounds(f, l) && Enabled(l, events[0]) then Played(f, Next(f, l, events[0]), events[1..])
    else None
  }

  const LOST_PACKET := [LosePacket(0), SenderTimesOut]
  const LOST_REPLY := [ReceiverReads(true), LoseReply(0), SenderTimesOut]

  /** `n` packets lost one after the other, each noticed by the sender's time-out. */
  function LostPackets(n: nat): seq<Event> { if n == 0 then [] else LOST_PACKET + LostPackets(n - 1) }

  /** Attempts that come to nothing: the packet is lost, or else the reply to it. */
  function Attempts(losses: seq<bool>): seq<Event> {
    if losses == [] then [] else (if losses[0] then LOST_PACKET else LOST_REPLY) + Attempts(losses[1..])
  }

  /** A block comes through after those attempts. */
  function Delivery(losses: seq<bool>): seq<Event> { Attempts(losses) + [ReceiverReads(true), SenderReads] }

  function Deliveries(losses: seq<seq<bool>>): seq<Event> {
    if losses == [] then [] else Delivery(losses[0]) + Deliveries(losses[1..])
  }

  /** A whole transfer: so many headers lost, these attempts for each block, so many ends lost. */
  function Transfer(headers: nat, losses: seq<seq<bool>>, ends: nat): seq<Event> {
    [SenderReads] + LostPackets(headers) + [ReceiverReads(true), SenderReads, SenderReads] + Deliveries(losses) +
    LostPackets(ends) + [ReceiverReads(true)]
  }

  /** Block `r + 1` (or the end) has been sent `tries` times; the receiver has it already if `got`. */
  function Sending(f: File, r: nat, got: bool, tries: nat, errors: nat): Link
    requires r <= Blocks(f) && (got ==> r < Blocks(f))
  {
    var n := if got then r + 1 else r;
    Link(Sender(r + 1, false, tries, false), Receiver(n, errors, 0, 1, f[..Bytes(f, n)], false, false), [r + 1], [])
  }

  lemma {:induction false} PlayedOn(f: File, l: Link, first: seq<Event>, later: seq<Event>)
    requires Played(f, l, first).Some?
    ensures Played(f, l, first + later) == Played(f, Played(f, l, first).value, later)
    decreases |first|
  {
    hide Next, Enabled, InBounds;
    if first == [] {
      assert first + later == later;
    } else {
      assert (first + later)[1..] == first[1..] + later;
      PlayedOn(f, Next(f, l, first[0]), first[1..], later);
    }
  }

  lemma {:induction false} PlayTwo(f: File, l: Link, a: Event, b: Event)
    requires InBounds(f, l) && Enabled(l, a) && InBounds(f, Next(f, l, a)) && Enabled(Next(f, l, a), b)
    ensures Played(f, l, [a, b]) == Some(Next(f, Next(f, l, a), b))
  {
    hide Next, Enabled, InBounds;
    assert [a, b][1..] == [b] && [b][1..] == [];
    assert Played(f, Next(f, l, a), [b]) == Played(f, Next(f, Next(f, l, a), b), []);
  }

  lemma {:induction false} PlayThree(f: File, l: Link, a: Event, b: Event, c: Event)
    requires InBounds(f, l) && Enabled(l, a) && InBounds(f, Next(f, l, a)) && Enabled(Next(f, l, a), b)
    requires var m := Next(f, Next(f, l, a), b); InBounds(f, m) && Enabled(m, c)
    ensures Played(f, l, [a, b, c]) == Some(Next(f, Next(f, Next(f, l, a), b), c))
  {
    hide Next, Enabled, InBounds;
    assert [a, b, c][1..] == [b, c];
    PlayTwo(f, Next(f, l, a), b, c);
  }

  // ---------- the header ----------

  function Asked(tries: nat): Link {
    Link(Sender(0, false, tries, false), Receiver(-1, 0, 0, 0, [], false, false), [0], [])
  }

  /** The only packet under way lost, and sent again. */
  lemma {:induction false} Lost(f: File, l: Link)
    requires InBounds(f, l) && l.snd.cur >= 0 && l.fwd == [l.snd.cur] && l.rev == [] && !l.snd.awaits && !l.snd.stopped
    requires l.snd.sends < RETRIES || l.snd.cur > Blocks(f)
    ensures Played(f, l, LOST_PACKET) == Some(l.(snd := l.snd.(sends := l.snd.sends + 1)))
  {
    var lost := l.(fwd := []);
    assert Without(l.fwd, 0) == [];
    assert Next(f, l, LosePacket(0)) == lost;
    assert [] + [l.snd.cur] == l.fwd;
    assert Next(f, lost, SenderTimesOut) == l.(snd := l.snd.(sends := l.snd.sends + 1));
    PlayTwo(f, l, LosePacket(0), SenderTimesOut);
  }

  lemma {:induction false} HeadersLost(f: File, tries: nat, n: nat)
    requires tries + n <= RETRIES
    ensures Played(f, Asked(tries), LostPackets(n)) == Some(Asked(tries + n))
    decreases n
  {
    if n > 0 {
      Lost(f, Asked(tries));
      HeadersLost(f, tries + 1, n - 1);
      hide Played;
      PlayedOn(f, Asked(tries), LOST_PACKET, LostPackets(n - 1));
    }
  }

  lemma {:induction false} HeaderComesThrough(f: File, tries: nat)
    ensures Played(f, Asked(tries), [ReceiverReads(true), SenderReads, SenderReads]) == Some(Sending(f, 0, false, 1, 0))
  {
    var rcv := Receiver(0, 0, 0, 1, [], false, false);
    var l, m := Asked(tries), Link(Asked(tries).snd, rcv, [], [Ack, Ready]);
    assert l.fwd[1..] == [] && [] + [Ack, Ready] == [Ack, Ready];
    assert Next(f, l, ReceiverReads(true)) == m;
    var n := Link(Sender(0, true, tries, false), rcv, [], [Ready]);
    assert m.rev[1..] == [Ready];
    assert Next(f, m, SenderReads) == n;
    assert n.rev[1..] == [] && [] + [1] == [1] && f[..Bytes(f, 0)] == [];
    assert Next(f, n, SenderReads) == Sending(f, 0, false, 1, 0);
    PlayThree(f, l, ReceiverReads(true), SenderReads, SenderReads);
  }

  // ---------- a block ----------

  /** Repeats of a block the receiver has are counted as errors, but there have been fewer of them than tries. */
  predicate Bearable(got: bool, tries: nat, errors: nat) { tries >= 1 && (got ==> errors + 2 <= tries) }

  lemma {:induction false} PacketIsLost(f: File, r: nat, got: bool, tries: nat, errors: nat)
    requires r <= Blocks(f) && (got ==> r < Blocks(f)) && (tries < RETRIES || r == Blocks(f))
    ensures Played(f, Sending(f, r, got, tries, errors), LOST_PACKET) == Some(Sending(f, r, got, tries + 1, errors))
  {
    Lost(f, Sending(f, r, got, tries, errors));
  }

  lemma {:induction false} BlockIsTaken(f: File, r: nat, got: bool, tries: nat, errors: nat)
    requires r < Blocks(f) && Bearable(got, tries, errors) && tries <= RETRIES
    ensures var l := Sending(f, r, got, tries, errors);
            InBounds(f, l) && Enabled(l, ReceiverReads(true)) &&
            Next(f, l, ReceiverReads(true)) ==
            Sending(f, r, true, tries, if got then errors + 1 else 0).(fwd := [], rev := [Ack])
  {
    BlockContinues(f, r);
    hide Block;
  }

  lemma {:induction false} ReplyIsLost(f: File, r: nat, got: bool, tries: nat, errors: nat)
    requires r < Blocks(f) && tries < RETRIES && Bearable(got, tries, errors)
    ensures Played(f, Sending(f, r, got, tries, errors), LOST_REPLY) ==
            Some(Sending(f, r, true, tries + 1, if got then errors + 1 else 0))
  {
    BlockIsTaken(f, r, got, tries, errors);
    hide Block, ReceiverTakes, Bytes;
    var e := if got then errors + 1 else 0;
    var l, n := Sending(f, r, got, tries, errors), Sending(f, r, true, tries, e);
    var m := n.(fwd := [], rev := [Ack]);
    assert Without(m.rev, 0) == [];
    assert Next(f, m, LoseReply(0)) == n.(fwd := []);
    assert [] + [r + 1] == [r + 1];
    assert Next(f, n.(fwd := []), SenderTimesOut) == Sending(f, r, true, tries + 1, e);
    PlayThree(f, l, ReceiverReads(true), LoseReply(0), SenderTimesOut);
  }

  lemma {:induction false} AttemptsFail(f: File, r: nat, got: bool, tries: nat, errors: nat, losses: seq<bool>)
    returns (got': bool, errors': nat)
    requires r < Blocks(f) && tries + |losses| <= RETRIES && Bearable(got, tries, errors)
    ensures Bearable(got', tries + |losses|, errors')
    ensures Played(f, Sending(f, r, got, tries, errors), Attempts(losses)) ==
            Some(Sending(f, r, got', tries + |losses|, errors'))
    decreases |losses|
  {
    hide Played, Sending;
    if losses == [] {
      got', errors' := got, errors;
      PlayedNone(f, Sending(f, r, got, tries, errors));
    } else {
      var first := if losses[0] then LOST_PACKET else LOST_REPLY;
      if losses[0] {
        PacketIsLost(f, r, got, tries, errors);
        got', errors' := AttemptsFail(f, r, got, tries + 1, errors, losses[1..]);
      } else {
        ReplyIsLost(f, r, got, tries, errors);
        got', errors' := AttemptsFail(f, r, true, tries + 1, if got then errors + 1 else 0, losses[1..]);
      }
      PlayedOn(f, Sending(f, r, got, tries, errors), first, Attempts(losses[1..]));
    }
  }

  lemma {:induction false} PlayedNone(f: File, l: Link)
    ensures Played(f, l, []) == Some(l)
  {
  }

  lemma {:induction false} BlockComesThrough(f: File, r: nat, got: bool, tries: nat, errors: nat)
    requires r < Blocks(f) && tries <= RETRIES && Bearable(got, tries, errors)
    ensures Played(f, Sending(f, r, got, tries, errors), [ReceiverReads(true), SenderReads]) ==
            Some(Sending(f, r + 1, false, 1, if got then errors + 1 else 0))
  {
    BlockIsTaken(f, r, got, tries, errors);
    hide Block, ReceiverTakes, Bytes;
    var e := if got then errors + 1 else 0;
    var l, m := Sending(f, r, got, tries, errors), Sending(f, r, true, tries, e).(fwd := [], rev := [Ack]);
    assert m.rev[1..] == [] && [] + [r + 2] == [r + 2];
    assert Next(f, m, SenderReads) == Sending(f, r + 1, false, 1, e);
    PlayTwo(f, l, ReceiverReads(true), SenderReads);
  }

  lemma {:induction false} BlockIsDelivered(f: File, r: nat, errors: nat, losses: seq<bool>) returns (errors': nat)
    requires r < Blocks(f) && |losses| < RETRIES
    ensures Played(f, Sending(f, r, false, 1, errors), Delivery(losses)) == Some(Sending(f, r + 1, false, 1, errors'))
  {
    hide Played, Sending;
    var got, e := AttemptsFail(f, r, false, 1, errors, losses);
    BlockComesThrough(f, r, got, 1 + |losses|, e);
    errors' := if got then e + 1 else 0;
    PlayedOn(f, Sending(f, r, false, 1, errors), Attempts(losses), [ReceiverReads(true), SenderReads]);
  }

  lemma {:induction false} BlocksAreDelivered(f: File, r: nat, errors: nat, losses: seq<seq<bool>>) returns (errors': nat)
    requires r + |losses| == Blocks(f) && forall i :: 0 <= i < |losses| ==> |losses[i]| < RETRIES
    ensures Played(f, Sending(f, r, false, 1, errors), Deliveries(losses)) ==
            Some(Sending(f, Blocks(f), false, 1, errors'))
    decreases |losses|
  {
    hide Played, Sending, Delivery;
    if losses == [] {
      errors' := errors;
      PlayedNone(f, Sending(f, r, false, 1, errors));
    } else {
      var e := BlockIsDelivered(f, r, errors, losses[0]);
      errors' := BlocksAreDelivered(f, r + 1, e, losses[1..]);
      PlayedOn(f, Sending(f, r, false, 1, errors), Delivery(losses[0]), Deliveries(losses[1..]));
    }
  }

  // ---------- the end ----------

  lemma {:induction false} EndsLost(f: File, tries: nat, errors: nat, n: nat)
    ensures Played(f, Sending(f, Blocks(f), false, tries, errors), LostPackets(n)) ==
            Some(Sending(f, Blocks(f), false, tries + n, errors))
    decreases n
  {
    hide Played, Sending;
    if n == 0 {
      PlayedNone(f, Sending(f, Blocks(f), false, tries, errors));
    } else {
      PacketIsLost(f, Blocks(f), false, tries, errors);
      EndsLost(f, tries + 1, errors, n - 1);
      PlayedOn(f, Sending(f, Blocks(f), false, tries, errors), LOST_PACKET, LostPackets(n - 1));
    }
  }

  lemma {:induction false} EndComesThrough(f: File, tries: nat, errors: nat)
    ensures var l := Played(f, Sending(f, Blocks(f), false, tries, errors), [ReceiverReads(true)]);
            l.Some? && l.value.rcv.finished && l.value.rcv.sunk == f
  {
    assert [ReceiverReads(true)][1..] == [];
    assert f[..Bytes(f, Blocks(f))] == f;
    var l := Sending(f, Blocks(f), false, tries, errors);
    assert Played(f, l, [ReceiverReads(true)]) == Played(f, Next(f, l, ReceiverReads(true)), []);
  }

  /** A course of events is a run. */
  lemma {:induction false} PlayedIsRun(f: File, run: seq<Link>, events: seq<Event>) returns (more: seq<Link>)
    requires IsRun(f, run) && Played(f, run[|run| - 1], events).Some?
    ensures IsRun(f, more) && more[|more| - 1] == Played(f, run[|run| - 1], events).value
    decreases |events|
  {
    hide Next, Enabled, InBounds;
    if events == [] {
      more := run;
    } else {
      GoesOn(f, run, events[0]);
      var l := Next(f, run[|run| - 1], events[0]);
      more := PlayedIsRun(f, run + [l], events[1..]);
    }
  }

  lemma {:induction false} GoesOn(f: File, run: seq<Link>, e: Event)
    requires IsRun(f, run) && InBounds(f, run[|run| - 1]) && Enabled(run[|run| - 1], e)
    ensures IsRun(f, run + [Next(f, run[|run| - 1], e)])
  {
    hide Next, Enabled, InBounds;
    var more := run + [Next(f, run[|run| - 1], e)];
    forall i | 0 < i < |more|
      ensures Follows(f, more[i - 1], more[i])
    {
      if i < |run| { assert Follows(f, run[i - 1], run[i]); }
    }
  }

  lemma {:induction false} HeaderIsSent(f: File)
    ensures Played(f, START, [SenderReads]) == Some(Asked(1))
  {
    assert [SenderReads][1..] == [];
    assert START.rev[1..] == [] && [] + [0] == [0];
    assert Next(f, START, SenderReads) == Asked(1);
    assert Played(f, START, [SenderReads]) == Played(f, Next(f, START, SenderReads), []);
  }

  lemma {:induction false} TransferBegins(f: File, headers: nat)
    requires headers < RETRIES
    ensures Played(f, START, [SenderReads] + LostPackets(headers) + [ReceiverReads(true), SenderReads, SenderReads]) ==
            Some(Sending(f, 0, false, 1, 0))
  {
    hide Played, Sending, LostPackets;
    HeaderIsSent(f);
    HeadersLost(f, 1, headers);
    PlayedOn(f, START, [SenderReads], LostPackets(headers));
    HeaderComesThrough(f, 1 + headers);
    PlayedOn(f, START, [SenderReads] + LostPackets(headers), [ReceiverReads(true), SenderReads, SenderReads]);
  }

  /** Every file, of whatever size, is delivered although the header, each of its blocks, or the acknowledgement
      of it, is lost up to nine times, in any order, and the end as often as you like. */
  lemma {:induction false} EveryFileIsDeliveredDespiteLosses(f: File, headers: nat, losses: seq<seq<bool>>, ends: nat)
    returns (run: seq<Link>)
    requires headers < RETRIES && |losses| == Blocks(f) && forall i :: 0 <= i < |losses| ==> |losses[i]| < RETRIES
    ensures IsRun(f, run) && Played(f, START, Transfer(headers, losses, ends)) == Some(run[|run| - 1])
    ensures run[|run| - 1].rcv.finished && run[|run| - 1].rcv.sunk == f
  {
    assert IsRun(f, [START]);
    hide Played, Sending, IsRun, Deliveries, LostPackets;
    var first := [SenderReads] + LostPackets(headers) + [ReceiverReads(true), SenderReads, SenderReads];
    TransferBegins(f, headers);
    var errors := BlocksAreDelivered(f, 0, 0, losses);
    PlayedOn(f, START, first, Deliveries(losses));
    EndsLost(f, 1, errors, ends);
    PlayedOn(f, START, first + Deliveries(losses), LostPackets(ends));
    EndComesThrough(f, 1 + ends, errors);
    PlayedOn(f, START, first + Deliveries(losses) + LostPackets(ends), [ReceiverReads(true)]);
    run := PlayedIsRun(f, [START], Transfer(headers, losses, ends));
  }
}
