/** Modbus over TCP as the collector speaks it: frames with the MBAP header of section
    3.1.3 of MODBUS Messaging on TCP/IP V1.0b, read from a byte stream that may be cut
    into chunks anywhere and may start with replies to earlier requests. */
module Mbap {
  type Byte = b: int | 0 <= b < 0x100
  type Word = w: int | 0 <= w < 0x10000

  datatype Error =
    | TimedOut | Disconnected | BadProtocol | BadLength | BadUnit | DeviceException
    | BadFunction | TooShort | BadByteCount | OddPayload | WrongParticleUnit | MissingRegisters

  datatype Result<T> = Ok(value: T) | Err(error: Error)

  // ----- frames -----------------------------------------------------------

  datatype Frame = Frame(tid: Word, protocol: Word, unit: Byte, body: seq<Byte>)

  function Be(w: Word): (bytes: seq<Byte>)
    ensures |bytes| == 2
  {
    [w / 0x100, w % 0x100]
  }

  function FromBe(bytes: seq<Byte>, at: nat): Word
    requires at + 2 <= |bytes|
  {
    bytes[at] as int * 0x100 + bytes[at + 1] as int
  }

  // A frame whose header length is in the protocol's range.
  predicate Regular(f: Frame) { f.protocol == 0 && 1 <= |f.body| <= 253 }

  function Encode(f: Frame): seq<Byte>
    requires |f.body| < 0xFFFF
  {
    Be(f.tid) + Be(f.protocol) + Be(|f.body| + 1) + [f.unit] + f.body
  }

  function EncodeAll(fs: seq<Frame>): seq<Byte>
    requires forall f :: f in fs ==> |f.body| < 0xFFFF
    decreases |fs|
  {
    if fs == [] then [] else Encode(fs[0]) + EncodeAll(fs[1..])
  }

  // ----- matching a reply -------------------------------------------------

  // rest: what stays unread.
  datatype Reply = Body(body: seq<Byte>, rest: seq<Byte>) | Failed(error: Error, rest: seq<Byte>)

  // The reply to request tid in the bytes s, of which no more than s arrive in time.
  function Receive(tid: Word, slave: Byte, dry: Error, s: seq<Byte>): Reply
    decreases |s|
  {
    if |s| < 7 then Failed(dry, [])
    else
      var length := FromBe(s, 4);
      if FromBe(s, 2) != 0 then Failed(BadProtocol, s[7..])
      else if !(2 <= length <= 254) then Failed(BadLength, s[7..])
      else if |s| < 6 + length then Failed(dry, [])
      else
        var body, rest := s[7..6 + length], s[6 + length..];
        if FromBe(s, 0) != tid then Receive(tid, slave, dry, rest)
        else if s[6] != slave then Failed(BadUnit, rest)
        else if body[0] >= 0x80 then Failed(DeviceException, rest)
        else Body(body, rest)
  }

  function NextId(tid: Word): Word { (tid + 1) % 0x10000 }

  // The id of a client's n-th request after it started from tid.
  function IdOf(tid: Word, n: nat): Word { (tid + n) % 0x10000 }

  function ReadPdu(start: nat, quantity: nat): seq<Byte> {
    [0x03, start / 0x100 % 0x100, start % 0x100, quantity / 0x100 % 0x100, quantity % 0x100]
  }

  // The frame that asks for registers start to start + quantity - 1.
  function Request(tid: Word, slave: Byte, start: nat, quantity: nat): Frame {
    Frame(tid, 0, slave, ReadPdu(start, quantity))
  }

  // n requests for two registers each, one after the other.
  function Pairs(tid: Word, slave: Byte, start: nat, n: nat): (fs: seq<Frame>)
    ensures |fs| == n && forall f :: f in fs ==> |f.body| == 5
    decreases n
  {
    if n == 0 then [] else [Request(NextId(tid), slave, start, 2)] + Pairs(NextId(tid), slave, start + 2, n - 1)
  }

  // The fourteen requests of a sample: the particle unit, then registers 0 to 25.
  function SampleRequests(tid: Word, slave: Byte): (fs: seq<Frame>)
    ensures |fs| == 14 && forall f :: f in fs ==> |f.body| == 5
  {
    [Request(NextId(tid), slave, 133, 1)] + Pairs(NextId(tid), slave, 0, 13)
  }

  function Registers(data: seq<Byte>): (words: seq<Word>)
    requires |data| % 2 == 0
    ensures |words| == |data| / 2
  {
    seq(|data| / 2, i requires 0 <= i < |data| / 2 => FromBe(data, 2 * i))
  }

  // What the reader makes of a matched body: the byte count is checked, the length not.
  function Decode(body: seq<Byte>, quantity: nat): Result<seq<Word>>
    requires body != []
  {
    if body[0] != 0x03 then Err(BadFunction)
    else if |body| < 2 then Err(TooShort)
    else if body[1] != 2 * quantity then Err(BadByteCount)
    else
      var data := if |body| < 2 + body[1] as int then body[2..] else body[2..2 + body[1] as int];
      if |data| % 2 != 0 then Err(OddPayload) else Ok(Registers(data))
  }

  // ----- the client -------------------------------------------------------

  class Socket {
    const peerCloses: bool // whether what arrives ends by a close or by the deadline
    var incoming: seq<Byte>

    constructor (peerCloses: bool, incoming: seq<Byte>)
      ensures this.peerCloses == peerCloses && this.incoming == incoming
    {
      this.peerCloses, this.incoming := peerCloses, incoming;
    }

    function Dry(): Error { if peerCloses then Disconnected else TimedOut }

    /** One recv: any non-empty piece of what is there, up to the wanted length. */
    method Recv(want: nat) returns (chunk: seq<Byte>)
      requires want > 0
      modifies this
      ensures |chunk| <= want && old(incoming) == chunk + incoming
      ensures chunk == [] <==> old(incoming) == []
    {
      if incoming == [] {
        return [];
      }
      var n: nat :| 1 <= n <= want && n <= |incoming|;
      chunk, incoming := incoming[..n], incoming[n..];
    }

    /** The result does not depend on how the stream is cut into chunks. */
    method RecvExact(length: nat) returns (r: Result<seq<Byte>>)
      modifies this
      ensures |old(incoming)| >= length ==> r == Ok(old(incoming)[..length]) && incoming == old(incoming)[length..]
      ensures |old(incoming)| < length ==> r == Err(Dry()) && incoming == []
    {
      var data: seq<Byte> := [];
      while |data| < length
        invariant |data| <= length && old(incoming) == data + incoming
        decreases length - |data|
      {
        var chunk := Recv(length - |data|);
        if chunk == [] {
          return Err(Dry());
        }
        data := data + chunk;
      }
      r := Ok(data);
    }
  }

  class Client {
    const slave: Byte
    const sock: Socket
    var transactionId: Word
    var firstRequest: bool
    var sent: seq<Byte>

    constructor (slave: Byte, sock: Socket, random: Word)
      ensures this.slave == slave && this.sock == sock
      ensures transactionId == random && firstRequest && sent == []
    {
      this.slave, this.sock := slave, sock;
      transactionId, firstRequest, sent := random, true, [];
    }

    /** expired: the sample's deadline had passed before sending; early: bytes that came
        in while the fresh connection settled. */
    method RequestPdu(pdu: seq<Byte>, expired: bool, early: nat) returns (r: Result<seq<Byte>>)
      requires 1 <= |pdu| <= 253 && early <= |sock.incoming|
      modifies this, sock
      ensures transactionId == NextId(old(transactionId)) && !firstRequest
      ensures expired ==> r == Err(TimedOut) && sent == old(sent)
      ensures !expired ==> sent == old(sent) + Encode(Frame(transactionId, 0, slave, pdu))
      ensures !expired ==>
        var s := if old(firstRequest) then old(sock.incoming)[early..] else old(sock.incoming);
        Answer(Receive(transactionId, slave, sock.Dry(), s), r, sock.incoming)
    {
      if firstRequest {
        firstRequest, sock.incoming := false, sock.incoming[early..];
      }
      transactionId := NextId(transactionId);
      if expired {
        return Err(TimedOut);
      }
      sent := sent + Encode(Frame(transactionId, 0, slave, pdu));
      ghost var s := sock.incoming;
      while true
        invariant Receive(transactionId, slave, sock.Dry(), sock.incoming)
                  == Receive(transactionId, slave, sock.Dry(), s)
        invariant transactionId == NextId(old(transactionId)) && !firstRequest
        invariant sent == old(sent) + Encode(Frame(transactionId, 0, slave, pdu))
        decreases |sock.incoming|
      {
        ghost var before := sock.incoming;
        var header := sock.RecvExact(7);
        if header.Err? {
          return header;
        }
        if FromBe(header.value, 2) != 0 {
          return Err(BadProtocol);
        }
        var length := FromBe(header.value, 4);
        if !(2 <= length <= 254) {
          return Err(BadLength);
        }
        var body := sock.RecvExact(length - 1);
        if body.Err? {
          return body;
        }
        assert before[7..][..length - 1] == before[7..6 + length] && before[7..][length - 1..] == before[6 + length..];
        if FromBe(header.value, 0) != transactionId {
          continue;
        }
        if header.value[6] != slave {
          return Err(BadUnit);
        }
        if body.value[0] >= 0x80 {
          return Err(DeviceException);
        }
        return body;
      }
    }

    method ReadHoldingRegisters(start: nat, quantity: nat, expired: bool, early: nat) returns (r: Result<seq<Word>>)
      requires early <= |sock.incoming|
      modifies this, sock
      ensures transactionId == NextId(old(transactionId)) && !firstRequest
      ensures expired ==> r == Err(TimedOut) && sent == old(sent)
      ensures !expired ==> sent == old(sent) + Encode(Request(transactionId, slave, start, quantity))
      ensures !expired ==>
        var s := if old(firstRequest) then old(sock.incoming)[early..] else old(sock.incoming);
        (r, sock.incoming) == Read(transactionId, slave, sock.Dry(), quantity, s)
    {
      var response := RequestPdu(ReadPdu(start, quantity), expired, early);
      if response.Err? {
        return Err(response.error);
      }
      var body := response.value;
      ghost var s := if old(firstRequest) then old(sock.incoming)[early..] else old(sock.incoming);
      BodyNotEmpty(transactionId, slave, sock.Dry(), s);
      if body[0] != 0x03 {
        return Err(BadFunction);
      }
      if |body| < 2 {
        return Err(TooShort);
      }
      if body[1] != quantity * 2 {
        return Err(BadByteCount);
      }
      var data := if |body| < 2 + body[1] as int then body[2..] else body[2..2 + body[1] as int];
      if |data| % 2 != 0 {
        return Err(OddPayload);
      }
      r := Ok(Registers(data));
    }

    /** The unit check and the thirteen two-register reads of one sample, which fails on
        its last fields when a short reply left registers out. budget: how
        many of the fourteen requests start before the sample's deadline; early: bytes
        that came in while a fresh connection settled. */
    method ReadSample(budget: nat, early: nat) returns (r: Result<seq<Word>>)
      requires early <= |sock.incoming|
      modifies this, sock
      ensures var s := if old(firstRequest) then old(sock.incoming)[early..] else old(sock.incoming);
        r == Sample(old(transactionId), slave, sock.Dry(), budget, s)
      ensures r.Ok? ==> sent == old(sent) + EncodeAll(SampleRequests(old(transactionId), slave))
      ensures exists n: nat :: Asked(old(sent), sent, SampleRequests(old(transactionId), slave), n) && n <= budget
    {
      hide Read, Reads, Prepend, NextId, Encode, EncodeAll, Pairs, Request;
      ghost var asked := SampleRequests(transactionId, slave);
      ghost var tid0 := transactionId;
      NothingAsked(sent, asked);
      var unit := ReadHoldingRegisters(133, 1, budget == 0, early);
      if budget > 0 { AskedOneMore(old(sent), asked, 0); }
      if unit.Err? {
        return unit;
      }
      if |unit.value| != 1 || unit.value[0] != 1 {
        return Err(WrongParticleUnit);
      }
      var registers: seq<Word> := [];
      ghost var tid, s := transactionId, sock.incoming;
      PrependNone(Reads(tid, slave, sock.Dry(), 13, budget - 1, s));
      for n := 0 to 13
        invariant !firstRequest && n < budget && transactionId == IdOf(tid, n)
        invariant Asked(old(sent), sent, asked, n + 1)
        invariant Reads(tid, slave, sock.Dry(), 13, budget - 1, s)
                  == Prepend(registers, Reads(transactionId, slave, sock.Dry(), 13 - n, budget - 1 - n, sock.incoming))
      {
        ReadsFirst(transactionId, slave, sock.Dry(), 13 - n, budget - 1 - n, sock.incoming);
        var pair := ReadHoldingRegisters(2 * n, 2, n + 1 >= budget, 0);
        PairAt(tid, slave, 0, 13, n);
        IdsFollow(tid, n);
        if n + 1 < budget { AskedOneMore(old(sent), asked, n + 1); }
        if pair.Err? {
          PrependFailure(registers, pair.error);
          return pair;
        }
        PrependTwice(registers, pair.value,
                     Reads(transactionId, slave, sock.Dry(), 12 - n, budget - 2 - n, sock.incoming));
        registers := registers + pair.value;
      }
      NoReads(transactionId, slave, sock.Dry(), budget - 14, sock.incoming);
      PrependAll(registers);
      assert asked[..14] == asked;
      if |registers| < 26 {
        return Err(MissingRegisters);
      }
      r := Ok(registers);
    }
  }

  ghost predicate Answer(reply: Reply, r: Result<seq<Byte>>, rest: seq<Byte>) {
    rest == reply.rest && r == match reply case Body(body, _) => Ok(body) case Failed(error, _) => Err(error)
  }

  function Read(tid: Word, slave: Byte, dry: Error, quantity: nat, s: seq<Byte>): (Result<seq<Word>>, seq<Byte>) {
    match Receive(tid, slave, dry, s)
    case Failed(error, rest) => (Err(error), rest)
    case Body(body, rest) => BodyNotEmpty(tid, slave, dry, s); (Decode(body, quantity), rest)
  }

  lemma {:induction false} BodyNotEmpty(tid: Word, slave: Byte, dry: Error, s: seq<Byte>)
    ensures Receive(tid, slave, dry, s).Body? ==> Receive(tid, slave, dry, s).body != []
    decreases |s|
  {
    if |s| >= 7 && 2 <= FromBe(s, 4) <= 254 && |s| >= 6 + FromBe(s, 4) {
      BodyNotEmpty(tid, slave, dry, s[6 + FromBe(s, 4)..]);
    }
  }

  // What was sent is the first n of these requests.
  ghost predicate Asked(before: seq<Byte>, sent: seq<Byte>, fs: seq<Frame>, n: nat)
    requires forall f :: f in fs ==> |f.body| < 0xFFFF
  {
    n <= |fs| && sent == before + EncodeAll(fs[..n])
  }

  lemma NothingAsked(sent: seq<Byte>, fs: seq<Frame>)
    requires forall f :: f in fs ==> |f.body| < 0xFFFF
    ensures Asked(sent, sent, fs, 0)
  {
    assert fs[..0] == [];
  }

  lemma AskedOneMore(sent: seq<Byte>, fs: seq<Frame>, n: nat)
    requires n < |fs| && forall f :: f in fs ==> |f.body| < 0xFFFF
    ensures forall now: seq<Byte> :: Asked(sent, now, fs, n) ==> Asked(sent, now + Encode(fs[n]), fs, n + 1)
  {
    EncodeJoin(fs[..n], fs[n]);
    assert fs[..n + 1] == fs[..n] + [fs[n]];
  }

  lemma {:induction false} EncodeJoin(fs: seq<Frame>, f: Frame)
    requires |f.body| < 0xFFFF && forall g :: g in fs ==> |g.body| < 0xFFFF
    ensures EncodeAll(fs + [f]) == EncodeAll(fs) + Encode(f)
    decreases |fs|
  {
    hide Encode;
    if fs == [] {
      assert [] + [f] == [f] && [f][1..] == [];
      assert EncodeAll([f]) == Encode(f) + [] == Encode(f);
    } else {
      assert (fs + [f])[0] == fs[0] && (fs + [f])[1..] == fs[1..] + [f];
      EncodeJoin(fs[1..], f);
    }
  }

  lemma IdsFollow(tid: Word, k: nat)
    ensures NextId(IdOf(tid, k)) == IdOf(tid, k + 1) && IdOf(NextId(tid), k) == IdOf(tid, k + 1)
    ensures IdOf(tid, 0) == tid && IdOf(tid, 1) == NextId(tid)
  {
  }

  /** The k-th of the requests for pairs. */
  lemma {:induction false} PairAt(tid: Word, slave: Byte, start: nat, n: nat, k: nat)
    requires k < n
    ensures Pairs(tid, slave, start, n)[k] == Request(IdOf(tid, k + 1), slave, start + 2 * k, 2)
    decreases n
  {
    hide NextId, IdOf, ReadPdu;
    IdsFollow(tid, k);
    if k > 0 {
      PairAt(NextId(tid), slave, start + 2, n - 1, k - 1);
    }
  }

  function Prepend(words: seq<Word>, r: Result<seq<Word>>): Result<seq<Word>> {
    if r.Ok? then Ok(words + r.value) else r
  }

  lemma PrependNone(r: Result<seq<Word>>)
    ensures Prepend([], r) == r
  {
    if r.Ok? { assert [] + r.value == r.value; }
  }

  lemma PrependTwice(a: seq<Word>, b: seq<Word>, r: Result<seq<Word>>)
    ensures Prepend(a + b, r) == Prepend(a, Prepend(b, r))
  {
    if r.Ok? { assert a + b + r.value == a + (b + r.value); }
  }

  lemma PrependAll(a: seq<Word>)
    ensures Prepend(a, Ok([])) == Ok(a)
  {
    assert a + [] == a;
  }

  lemma PrependFailure(a: seq<Word>, error: Error)
    ensures Prepend(a, Err(error)) == Err(error)
  {
  }

  lemma NoReads(tid: Word, slave: Byte, dry: Error, budget: nat, s: seq<Byte>)
    ensures Reads(tid, slave, dry, 0, budget, s) == Ok([])
  {
  }

  lemma ReadsFirst(tid: Word, slave: Byte, dry: Error, n: nat, budget: nat, s: seq<Byte>)
    requires n > 0
    ensures budget == 0 ==> Reads(tid, slave, dry, n, budget, s) == Err(TimedOut)
    ensures budget > 0 ==>
      var (r, rest) := Read(NextId(tid), slave, dry, 2, s);
      Reads(tid, slave, dry, n, budget, s)
      == if r.Err? then Err(r.error) else Prepend(r.value, Reads(NextId(tid), slave, dry, n - 1, budget - 1, rest))
  {
  }

  // n two-register reads in a row on one connection, of which only the first `budget`
  // start before the deadline.
  function Reads(tid: Word, slave: Byte, dry: Error, n: nat, budget: nat, s: seq<Byte>): Result<seq<Word>>
    decreases n
  {
    if n == 0 then Ok([])
    else if budget == 0 then Err(TimedOut)
    else
      var (r, rest) := Read(NextId(tid), slave, dry, 2, s);
      if r.Err? then r else Prepend(r.value, Reads(NextId(tid), slave, dry, n - 1, budget - 1, rest))
  }

  function Sample(tid: Word, slave: Byte, dry: Error, budget: nat, s: seq<Byte>): Result<seq<Word>> {
    if budget == 0 then Err(TimedOut)
    else
      var (unit, rest) := Read(NextId(tid), slave, dry, 1, s);
      if unit.Err? then unit
      else if |unit.value| != 1 || unit.value[0] != 1 then Err(WrongParticleUnit)
      else
        var r := Reads(NextId(tid), slave, dry, 13, budget - 1, rest);
        if r.Ok? && |r.value| < 26 then Err(MissingRegisters) else r
  }
}
