/** The non-blocking SDR sender: whatever the sockets accept, each client's bytes
    are whole frames and a prefix of one more. */
module SdrStream {
  import opened Wrappers

  type Frame = seq<int>

  /** A frame on its way to one client. */
  datatype Pending = Pending(frame: Frame, offset: nat)

  /** What one non-blocking send did. */
  datatype Outcome = Sent(count: nat) | Blocked | Broken

  /** What one client has been through: the frames sampled while it was connected,
      which of them it took whole, which is pending, and every accepted byte. */
  datatype Stream = Stream(sampled: seq<Frame>, whole: seq<nat>, current: nat, bytes: seq<int>)

  const FRESH := Stream([], [], 0, [])

  function Concat(frames: seq<Frame>): (bytes: seq<int>) {
    if frames == [] then [] else Concat(frames[..|frames| - 1]) + frames[|frames| - 1]
  }

  function Pick(frames: seq<Frame>, picked: seq<nat>): (r: seq<Frame>)
    requires forall i :: 0 <= i < |picked| ==> picked[i] < |frames|
    ensures |r| == |picked| && forall i :: 0 <= i < |r| ==> r[i] == frames[picked[i]]
  {
    seq(|picked|, i requires 0 <= i < |picked| => frames[picked[i]])
  }

  /** The bytes are frames that were sampled, each in one piece, none twice and in
      the order sampled, and then a prefix of the pending one. */
  ghost predicate StreamOk(size: nat, pending: Option<Pending>, s: Stream) {
    && (forall i :: 0 <= i < |s.sampled| ==> |s.sampled[i]| == size)
    && (forall i :: 0 <= i < |s.whole| ==> s.whole[i] < |s.sampled|)
    && (forall i, j :: 0 <= i < j < |s.whole| ==> s.whole[i] < s.whole[j])
    && match pending
       case None => s.bytes == Concat(Pick(s.sampled, s.whole))
       case Some(p) =>
         && s.current < |s.sampled| && s.sampled[s.current] == p.frame && p.offset < size
         && (forall i :: 0 <= i < |s.whole| ==> s.whole[i] < s.current)
         && s.bytes == Concat(Pick(s.sampled, s.whole)) + p.frame[..p.offset]
  }

  // ------------------------------------------------------------------- one client

  datatype Kept = Gone | Kept(pending: Option<Pending>, stream: Stream)

  /** The frame a client is served from: the pending one, or else the new one. */
  function Current(pending: Option<Pending>, frame: Frame): Pending {
    if pending.Some? then pending.value else Pending(frame, 0)
  }

  /** What a send may report: no more than what was left. */
  predicate Possible(pending: Option<Pending>, frame: Frame, outcome: Outcome) {
    var p := Current(pending, frame);
    p.offset <= |p.frame| && (outcome.Sent? ==> outcome.count <= |p.frame| - p.offset)
  }

  /** One client's part of a pass. */
  function Offered(pending: Option<Pending>, s: Stream, frame: Frame, outcome: Outcome): Kept
    requires Possible(pending, frame, outcome)
  {
    var p := Current(pending, frame);
    var seen := Settled(pending, s, frame);
    match outcome
    case Broken => Gone
    case Blocked => Kept(Some(p), seen)
    case Sent(count) =>
      if count == 0 then Gone else AfterSend(p, seen, count)
  }

  function AfterSend(p: Pending, seen: Stream, count: nat): (kept: Kept)
    requires 0 < count <= |p.frame| - p.offset
    ensures kept.Kept?
  {
    var offset := p.offset + count;
    var sent := seen.(bytes := seen.bytes + p.frame[p.offset..offset]);
    if offset == |p.frame| then Kept(None, sent.(whole := seen.whole + [seen.current]))
    else Kept(Some(Pending(p.frame, offset)), sent)
  }

  lemma PickGrows(frames: seq<Frame>, frame: Frame, picked: seq<nat>)
    requires forall i :: 0 <= i < |picked| ==> picked[i] < |frames|
    ensures Pick(frames + [frame], picked) == Pick(frames, picked)
  {}

  lemma PickOneMore(frames: seq<Frame>, picked: seq<nat>, next: nat)
    requires forall i :: 0 <= i < |picked| ==> picked[i] < |frames|
    requires next < |frames|
    ensures Concat(Pick(frames, picked + [next])) == Concat(Pick(frames, picked)) + frames[next]
  {
    var r := Pick(frames, picked + [next]);
    assert r[..|r| - 1] == Pick(frames, picked);
  }

  /** What the stream is once the pass has settled which frame to send. */
  function Settled(pending: Option<Pending>, s: Stream, frame: Frame): Stream {
    s.(sampled := s.sampled + [frame], current := if pending.Some? then s.current else |s.sampled|)
  }

  lemma SettledOk(size: nat, pending: Option<Pending>, s: Stream, frame: Frame)
    requires StreamOk(size, pending, s) && |frame| == size > 0
    ensures StreamOk(size, Some(Current(pending, frame)), Settled(pending, s, frame))
  {
    PickGrows(s.sampled, frame, s.whole);
    assert s.bytes == Concat(Pick(s.sampled, s.whole)) + Current(pending, frame).frame[..Current(pending, frame).offset];
  }

  lemma PartSentOk(size: nat, p: Pending, s: Stream, offset: nat)
    requires StreamOk(size, Some(p), s) && p.offset < offset < size
    ensures StreamOk(size, Some(Pending(p.frame, offset)), s.(bytes := s.bytes + p.frame[p.offset..offset]))
  {
    assert p.frame[..p.offset] + p.frame[p.offset..offset] == p.frame[..offset];
    assert (Concat(Pick(s.sampled, s.whole)) + p.frame[..p.offset]) + p.frame[p.offset..offset]
           == Concat(Pick(s.sampled, s.whole)) + (p.frame[..p.offset] + p.frame[p.offset..offset]);
  }

  lemma AllSentOk(size: nat, p: Pending, s: Stream)
    requires StreamOk(size, Some(p), s)
    ensures StreamOk(size, None, s.(bytes := s.bytes + p.frame[p.offset..size], whole := s.whole + [s.current]))
  {
    PickOneMore(s.sampled, s.whole, s.current);
    assert p.frame[..p.offset] + p.frame[p.offset..size] == p.frame;
    assert (Concat(Pick(s.sampled, s.whole)) + p.frame[..p.offset]) + p.frame[p.offset..size]
           == Concat(Pick(s.sampled, s.whole)) + (p.frame[..p.offset] + p.frame[p.offset..size]);
  }

  /** Every outcome of a send keeps the stream whole. */
  lemma OfferedOk(size: nat, pending: Option<Pending>, s: Stream, frame: Frame, outcome: Outcome)
    requires StreamOk(size, pending, s) && |frame| == size > 0 && Possible(pending, frame, outcome)
    ensures var kept := Offered(pending, s, frame, outcome);
            kept.Kept? ==> StreamOk(size, kept.pending, kept.stream)
  {
    var p, seen := Current(pending, frame), Settled(pending, s, frame);
    SettledOk(size, pending, s, frame);
    if outcome.Sent? && 0 < outcome.count { SentOk(size, p, seen, outcome.count); }
  }

  lemma SentOk(size: nat, p: Pending, seen: Stream, count: nat)
    requires StreamOk(size, Some(p), seen) && 0 < count <= |p.frame| - p.offset
    ensures var kept := AfterSend(p, seen, count); StreamOk(size, kept.pending, kept.stream)
  {
    if p.offset + count == size { AllSentOk(size, p, seen); } else { PartSentOk(size, p, seen, p.offset + count); }
  }

  lemma OfferedIs(pending: Option<Pending>, s: Stream, frame: Frame, outcome: Outcome)
    requires Possible(pending, frame, outcome)
    ensures var kept, p := Offered(pending, s, frame, outcome), Current(pending, frame);
            && (kept.Gone? <==> outcome == Broken || outcome == Sent(0))
            && (outcome == Blocked ==> kept.Kept? && kept.pending == Some(p))
            && (outcome.Sent? && outcome.count > 0 ==>
                  kept.Kept? && kept.pending == if p.offset + outcome.count == |p.frame| then None
                                                else Some(Pending(p.frame, p.offset + outcome.count)))
  {}

  // -------------------------------------------------------------------- the sender

  class SdrSender {
    const size: nat
    var clients: map<int, Option<Pending>>
    ghost var streams: map<int, Stream>

    ghost predicate Valid()
      reads this
    {
      && size > 0
      && clients.Keys == streams.Keys
      && forall c :: c in clients ==> StreamOk(size, clients[c], streams[c])
    }

    constructor (frameSize: nat)
      requires frameSize > 0
      ensures Valid() && clients == map[] && size == frameSize
    {
      size := frameSize;
      clients, streams := map[], map[];
    }

    method Accept(client: int)
      requires Valid() && client !in clients
      modifies this
      ensures Valid()
      ensures clients == old(clients)[client := None] && streams == old(streams)[client := FRESH]
    {
      clients, streams := clients[client := None], streams[client := FRESH];
    }

    /** Serves one client; a failed send closes it. */
    method Serve(client: int, frame: Frame, outcome: Outcome)
      requires Valid() && client in clients && |frame| == size && Possible(clients[client], frame, outcome)
      modifies this
      ensures Valid()
      ensures var kept := Offered(old(clients[client]), old(streams[client]), frame, outcome);
              if kept.Gone? then clients == old(clients) - {client} && streams == old(streams) - {client}
              else && clients == old(clients)[client := kept.pending]
                   && streams == old(streams)[client := kept.stream]
    {
      OfferedOk(size, clients[client], streams[client], frame, outcome);
      ghost var kept := Offered(clients[client], streams[client], frame, outcome);
      var closed, next := Send(clients[client], frame, outcome);
      OfferedIs(clients[client], streams[client], frame, outcome);
      clients := if closed then clients - {client} else clients[client := next];
      streams := if kept.Gone? then streams - {client} else streams[client := kept.stream];
    }

    /** Whether the client is closed, and what is pending for it otherwise. */
    static method Send(was: Option<Pending>, frame: Frame, outcome: Outcome) returns (closed: bool, next: Option<Pending>)
      ensures closed <==> outcome == Broken || outcome == Sent(0)
      ensures var pending := if was.Some? then was.value else Pending(frame, 0);
              match outcome
              case Blocked => next == Some(pending)
              case Broken => true
              case Sent(count) =>
                next == if pending.offset + count == |pending.frame| then None
                        else Some(Pending(pending.frame, pending.offset + count))
    {
      var pending := if was.Some? then was.value else Pending(frame, 0);
      closed, next := false, Some(pending);
      match outcome {
        case Blocked =>
        case Broken => closed := true;
        case Sent(count) =>
          closed := count == 0;
          var offset := pending.offset + count;
          next := if offset == |pending.frame| then None else Some(Pending(pending.frame, offset));
      }
    }

    method ServeInPass(client: int, frame: Frame, outcomes: map<int, Outcome>, ghost before: map<int, Client>, ghost left: set<int>)
      requires Valid() && |frame| == size && client in left
      requires Passed(before, Joined(clients, streams), left, frame, outcomes)
      modifies this
      ensures Valid() && Passed(before, Joined(clients, streams), left - {client}, frame, outcomes)
    {
      ghost var mid := Joined(clients, streams);
      assert mid[client] == before[client];
      Serve(client, frame, outcomes[client]);
      PassedOne(before, mid, Joined(clients, streams), left, client, frame, outcomes);
    }

    /** One pass: the same new frame is offered to every client once. */
    method Pass(frame: Frame, outcomes: map<int, Outcome>)
      requires Valid() && |frame| == size
      requires forall c :: c in clients ==> c in outcomes && Possible(clients[c], frame, outcomes[c])
      modifies this
      ensures Valid()
      ensures Passed(old(Joined(clients, streams)), Joined(clients, streams), {}, frame, outcomes)
      ensures forall c :: c in old(clients) ==>
                            Delivers(old(Joined(clients, streams))[c], Joined(clients, streams), c, frame, outcomes[c])
    {
      var left := clients.Keys;
      ghost var before := Joined(clients, streams);
      while left != {}
        invariant Valid()
        invariant Passed(before, Joined(clients, streams), left, frame, outcomes)
        decreases |left|
      {
        assert (forall k :: k !in left) ==> left == {};
        var client: int :| client in left;
        ServeInPass(client, frame, outcomes, before, left);
        left := left - {client};
      }
      forall c | c in before
        ensures Delivers(before[c], Joined(clients, streams), c, frame, outcomes[c])
      {
        ServedDelivers(before[c], Joined(clients, streams), c, frame, outcomes[c]);
      }
    }
  }

  // ---------------------------------------------------------------------- one pass

  /** A client's place in the sender's table, with what it has been through. */
  datatype Client = Client(pending: Option<Pending>, stream: Stream)

  ghost function Joined(clients: map<int, Option<Pending>>, streams: map<int, Stream>): (m: map<int, Client>)
    requires clients.Keys == streams.Keys
    ensures m.Keys == clients.Keys
    ensures forall c :: c in m ==> m[c] == Client(clients[c], streams[c])
  {
    map c | c in clients :: Client(clients[c], streams[c])
  }

  /** The client is where this offer leaves it: gone, or kept. */
  ghost predicate Served(was: Client, now: map<int, Client>, client: int, frame: Frame, outcome: Outcome) {
    && Possible(was.pending, frame, outcome)
    && match Offered(was.pending, was.stream, frame, outcome)
       case Gone => client !in now
       case Kept(pending, stream) => client in now && now[client] == Client(pending, stream)
  }

  /** A broken connection and a send of nothing close the client, and nothing else does.
      A blocked one keeps it with its pending frame, or the new one, as it was; a send
      moves it on by what was taken, and a frame taken whole is done with.  What was
      taken, and no more, joins its bytes. */
  ghost predicate Delivers(was: Client, now: map<int, Client>, client: int, frame: Frame, outcome: Outcome) {
    var f, offset := if was.pending.Some? then was.pending.value.frame else frame,
                     if was.pending.Some? then was.pending.value.offset else 0;
    && (client !in now <==> outcome == Broken || outcome == Sent(0))
    && (client in now && outcome == Blocked ==>
          now[client].pending == Some(Pending(f, offset)) && now[client].stream.bytes == was.stream.bytes)
    && (client in now && outcome.Sent? ==>
          && offset + outcome.count <= |f|
          && now[client].pending == (if offset + outcome.count == |f| then None else Some(Pending(f, offset + outcome.count)))
          && now[client].stream.bytes == was.stream.bytes + f[offset..offset + outcome.count])
  }

  lemma ServedDelivers(was: Client, now: map<int, Client>, client: int, frame: Frame, outcome: Outcome)
    requires Served(was, now, client, frame, outcome)
    ensures Delivers(was, now, client, frame, outcome)
  {}

  /** Everyone but those left has been served once, those left not at all. */
  ghost predicate Passed(before: map<int, Client>, now: map<int, Client>, left: set<int>, frame: Frame,
                         outcomes: map<int, Outcome>)
  {
    && left <= before.Keys && now.Keys <= before.Keys && (forall c :: c in before ==> c in outcomes)
    && (forall c :: c in left ==> c in now && now[c] == before[c] && Possible(before[c].pending, frame, outcomes[c]))
    && (forall c :: c in before && c !in left ==> Served(before[c], now, c, frame, outcomes[c]))
  }

  lemma PassedOne(before: map<int, Client>, mid: map<int, Client>, now: map<int, Client>, left: set<int>, client: int,
                  frame: Frame, outcomes: map<int, Outcome>)
    requires Passed(before, mid, left, frame, outcomes) && client in left
    requires Served(mid[client], now, client, frame, outcomes[client])
    requires now.Keys <= mid.Keys
    requires forall c :: c in mid && c != client ==> c in now && now[c] == mid[c]
    ensures Passed(before, now, left - {client}, frame, outcomes)
  {
    forall c | c in before && c !in left - {client} ensures Served(before[c], now, c, frame, outcomes[c]) {
      if c != client { assert Served(before[c], mid, c, frame, outcomes[c]); }
    }
  }

  // -------------------------------------------------------------------- the reader

  lemma {:induction false} FrameOf(size: nat, frames: seq<Frame>, k: nat)
    requires k < |frames| && forall i :: 0 <= i < |frames| ==> |frames[i]| == size
    ensures |Concat(frames)| == size * |frames|
    ensures 0 <= size * k <= size * (k + 1) <= |Concat(frames)|
    ensures Concat(frames)[size * k..size * (k + 1)] == frames[k]
    decreases |frames|
  {
    var front := frames[..|frames| - 1];
    ConcatLength(size, front);
    assert size * |frames| == size * |front| + size;
    assert size * (k + 1) == size * k + size;
    if k < |front| {
      FrameOf(size, front, k);
      assert Concat(frames)[size * k..size * (k + 1)] == Concat(front)[size * k..size * (k + 1)];
    } else {
      assert size * k == |Concat(front)|;
    }
  }

  lemma {:induction false} ConcatLength(size: nat, frames: seq<Frame>)
    requires forall i :: 0 <= i < |frames| ==> |frames[i]| == size
    ensures |Concat(frames)| == size * |frames|
  {
    if frames != [] {
      var front := frames[..|frames| - 1];
      ConcatLength(size, front);
      OneMore(size, |front|);
    }
  }

  lemma OneMore(size: nat, n: nat)
    ensures size * (n + 1) == size * n + size
  {}

  /** The k-th fixed-size block of a client's bytes is one frame that was sampled as
      one piece while the client was connected. */
  lemma BlocksAreFrames(size: nat, pending: Option<Pending>, s: Stream, k: nat)
    requires size > 0 && StreamOk(size, pending, s) && size * (k + 1) <= |s.bytes|
    ensures k < |s.whole| && 0 <= size * k <= size * (k + 1)
    ensures s.bytes[size * k..size * (k + 1)] == s.sampled[s.whole[k]]
  {
    var picked := Pick(s.sampled, s.whole);
    ConcatLength(size, picked);
    if k >= |s.whole| {
      assert size * (k + 1) >= size * |s.whole| + size by { MoreFrames(size, |s.whole|, k); }
      assert false;
    }
    FrameOf(size, picked, k);
    assert s.bytes[..|Concat(picked)|] == Concat(picked);
  }

  lemma MoreFrames(size: nat, n: nat, k: nat)
    requires n <= k
    ensures size * n + size <= size * (k + 1)
  {
    assert size * (k + 1) == size * n + size * (k - n) + size;
  }

  /** The reader collects one frame's worth of bytes in pieces of any size; it
      fails when the stream ends first. */
  method CollectFrame(size: nat, bytes: seq<int>, pieces: seq<nat>) returns (raw: Option<seq<int>>)
    requires forall i :: 0 <= i < |pieces| ==> pieces[i] > 0
    ensures raw.Some? <==> size <= |bytes|
    ensures raw.Some? ==> raw.value == bytes[..size]
  {
    var buffer, received, turn := [], 0, 0;
    while received < size
      invariant 0 <= received <= size && received <= |bytes| && buffer == bytes[..received]
      decreases size - received
    {
      var wanted := if turn < |pieces| then pieces[turn] else size;
      var count := Smallest(wanted, size - received, |bytes| - received);
      if count == 0 { return None; }
      buffer := buffer + bytes[received..received + count];
      received := received + count;
      turn := turn + 1;
    }
    raw := Some(buffer);
  }

  function Smallest(a: nat, b: nat, c: nat): (r: nat)
    ensures r <= a && r <= b && r <= c
    ensures r == 0 ==> a == 0 || b == 0 || c == 0
  {
    if a <= b && a <= c then a else if b <= c then b else c
  }

  /** However its bytes were cut up, a reader that succeeds holds one sampled frame. */
  method ReadFrame(size: nat, pending: Option<Pending>, ghost s: Stream, bytes: seq<int>, pieces: seq<nat>)
      returns (raw: Option<seq<int>>)
    requires size > 0 && StreamOk(size, pending, s) && bytes == s.bytes
    requires forall i :: 0 <= i < |pieces| ==> pieces[i] > 0
    ensures raw.Some? <==> |s.whole| > 0
    ensures raw.Some? ==> raw.value == s.sampled[s.whole[0]]
  {
    raw := CollectFrame(size, bytes, pieces);
    if raw.Some? { BlocksAreFrames(size, pending, s, 0); }
    if |s.whole| > 0 { FrameOf(size, Pick(s.sampled, s.whole), 0); }
  }
}
