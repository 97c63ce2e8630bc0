/** A device that reads the requests it is sent, and what the client and the discovery
    make of its replies: the registers they meant to ask for. */
module MbapDevice {
  import opened Common
  import opened Mbap
  import opened MbapTheorems
  import Discovery

  // The registers of a device.
  type Memory = Word -> Word

  function Words(memory: Memory, start: nat, quantity: nat): (words: seq<Word>)
    requires start + quantity <= 0x10000
    ensures |words| == quantity
  {
    seq(quantity, i requires 0 <= i < quantity => memory(start + i))
  }

  // What a device answers to the bytes of one frame: nothing to those not for it, an
  // exception to what it cannot do (section 7 of MODBUS Application Protocol V1.1b3),
  // else the registers asked for, big-endian.
  function Serve(unit: Byte, memory: Memory, bytes: seq<Byte>): (reply: Option<Frame>)
    ensures reply.Some? ==> 1 <= |reply.value.body| <= 252
  {
    if |bytes| < 8 || FromBe(bytes, 2) != 0 || FromBe(bytes, 4) + 6 != |bytes| || bytes[6] != unit then None
    else
      var tid := FromBe(bytes, 0);
      if bytes[7] != 0x03 then Some(Frame(tid, 0, unit, [0x80 + bytes[7] % 0x80, 1]))
      else if |bytes| != 12 then Some(Frame(tid, 0, unit, [0x83, 3]))
      else
        var start, quantity := FromBe(bytes, 8), FromBe(bytes, 10);
        if !(1 <= quantity <= 125) then Some(Frame(tid, 0, unit, [0x83, 3]))
        else if start + quantity > 0x10000 then Some(Frame(tid, 0, unit, [0x83, 2]))
        else Some(Frame(tid, 0, unit, ReplyBody(Words(memory, start, quantity))))
  }

  /** A request is answered with exactly the registers it was made for. */
  lemma ServesRequest(tid: Word, unit: Byte, memory: Memory, start: nat, quantity: nat)
    requires 1 <= quantity <= 125 && start + quantity <= 0x10000
    ensures Serve(unit, memory, Encode(Request(tid, unit, start, quantity)))
            == Some(Frame(tid, 0, unit, ReplyBody(Words(memory, start, quantity))))
  {
    hide ReplyBody;
    var pdu := ReadPdu(start, quantity);
    var head := Be(tid) + Be(0) + Be(6) + [unit];
    var bytes := Encode(Request(tid, unit, start, quantity));
    assert bytes == head + pdu && |head| == 7 && |bytes| == 12;
    assert bytes[7] == pdu[0] && bytes[8] == pdu[1] && bytes[9] == pdu[2] && bytes[10] == pdu[3] && bytes[11] == pdu[4];
    assert FromBe(bytes, 8) == start && FromBe(bytes, 10) == quantity;
  }

  predicate Small(fs: seq<Frame>) { forall f :: f in fs ==> |f.body| < 0xFFFF }

  predicate AllSmall(stales: seq<seq<Frame>>) { forall k :: 0 <= k < |stales| ==> Small(stales[k]) }

  // What arrives when such a device answers these requests in turn, with stale frames
  // ahead of each answer.
  function Replies(unit: Byte, memory: Memory, fs: seq<Frame>, stales: seq<seq<Frame>>, rest: seq<Byte>): seq<Byte>
    requires |stales| == |fs| && Small(fs) && AllSmall(stales)
    decreases |fs|
  {
    if fs == [] then rest
    else
      assert Small(stales[0]);
      var reply := Serve(unit, memory, Encode(fs[0]));
      EncodeAll(stales[0]) + (if reply.Some? then Encode(reply.value) else [])
        + Replies(unit, memory, fs[1..], stales[1..], rest)
  }

  // Every stale frame carries another id than the request it comes ahead of.
  predicate Fits(fs: seq<Frame>, stales: seq<seq<Frame>>) {
    |stales| == |fs| && forall k :: 0 <= k < |fs| ==> AllStale(stales[k], fs[k].tid)
  }

  lemma FitsSmall(fs: seq<Frame>, stales: seq<seq<Frame>>)
    requires Fits(fs, stales)
    ensures AllSmall(stales) && |stales| == |fs|
  {
    forall k | 0 <= k < |stales| ensures Small(stales[k]) {
      StaleSizes(stales[k], fs[k].tid);
    }
  }

  lemma FirstRead(tid: Word, unit: Byte, dry: Error, memory: Memory, start: nat, quantity: nat, stale: seq<Frame>,
                  rest: seq<Byte>)
    requires 1 <= quantity <= 125 && start + quantity <= 0x10000 && AllStale(stale, tid)
    ensures Small(stale)
    ensures var reply := Serve(unit, memory, Encode(Request(tid, unit, start, quantity)));
      && reply.Some?
      && Read(tid, unit, dry, quantity, EncodeAll(stale) + Encode(reply.value) + rest)
         == (Ok(Words(memory, start, quantity)), rest)
  {
    hide Serve, Encode, Receive, ReplyBody, Read;
    StaleSizes(stale, tid);
    ServesRequest(tid, unit, memory, start, quantity);
    OneRead(Exchange(stale, Words(memory, start, quantity)), tid, unit, dry, rest);
  }

  /** Pairs of registers asked for in turn come back as one stretch of the memory. */
  lemma {:induction false} PairsRead(tid: Word, slave: Byte, dry: Error, memory: Memory, start: nat, n: nat,
                                     budget: nat, stales: seq<seq<Frame>>, rest: seq<Byte>)
    requires start + 2 * n <= 0x10000 && n <= budget && Fits(Pairs(tid, slave, start, n), stales)
    ensures AllSmall(stales)
      && Reads(tid, slave, dry, n, budget, Replies(slave, memory, Pairs(tid, slave, start, n), stales, rest))
         == Ok(Words(memory, start, 2 * n))
    decreases n
  {
    hide Read, Serve, Encode, EncodeAll, AllStale, NextId, Request, Fits, AllSmall, Replies, Words, Reads;
    var fs := Pairs(tid, slave, start, n);
    FitsSmall(fs, stales);
    if n == 0 {
      NoReads(tid, slave, dry, budget, Replies(slave, memory, fs, stales, rest));
      NoWords(memory, start);
    } else {
      FitsTail(tid, slave, start, n, stales);
      FitsSmall(fs[1..], stales[1..]);
      PairsRead(NextId(tid), slave, dry, memory, start + 2, n - 1, budget - 1, stales[1..], rest);
      var more := Replies(slave, memory, fs[1..], stales[1..], rest);
      FirstRead(NextId(tid), slave, dry, memory, start, 2, stales[0], more);
      FirstReply(tid, slave, memory, start, n, stales, rest);
      ReadsFirst(tid, slave, dry, n, budget, Replies(slave, memory, fs, stales, rest));
      WordsJoin(memory, start, n);
    }
  }

  lemma NoWords(memory: Memory, start: nat)
    requires start <= 0x10000
    ensures Words(memory, start, 0) == []
  {
  }

  lemma WordsJoin(memory: Memory, start: nat, n: nat)
    requires n > 0 && start + 2 * n <= 0x10000
    ensures Words(memory, start, 2 * n) == Words(memory, start, 2) + Words(memory, start + 2, 2 * (n - 1))
  {
  }

  lemma FitsTail(tid: Word, slave: Byte, start: nat, n: nat, stales: seq<seq<Frame>>)
    requires n > 0 && Fits(Pairs(tid, slave, start, n), stales)
    ensures |stales| == n && AllStale(stales[0], NextId(tid))
    ensures Pairs(tid, slave, start, n)[1..] == Pairs(NextId(tid), slave, start + 2, n - 1)
    ensures Fits(Pairs(NextId(tid), slave, start + 2, n - 1), stales[1..])
  {
    hide NextId, AllStale;
    var fs := Pairs(tid, slave, start, n);
    assert AllStale(stales[0], fs[0].tid) && fs[0] == Request(NextId(tid), slave, start, 2);
    assert forall k :: 0 <= k < n - 1 ==> stales[1..][k] == stales[k + 1] && fs[1..][k] == fs[k + 1];
  }

  // What the first of the requests gets, with the other answers behind it.
  lemma FirstReply(tid: Word, slave: Byte, memory: Memory, start: nat, n: nat, stales: seq<seq<Frame>>, rest: seq<Byte>)
    requires n > 0 && |stales| == n && AllSmall(stales) && start + 2 <= 0x10000
    ensures AllSmall(stales[1..]) && Small(stales[0])
    ensures var fs := Pairs(tid, slave, start, n);
      var reply := Serve(slave, memory, Encode(Request(NextId(tid), slave, start, 2)));
      && reply.Some?
      && Replies(slave, memory, fs, stales, rest)
         == EncodeAll(stales[0]) + Encode(reply.value) + Replies(slave, memory, fs[1..], stales[1..], rest)
  {
    hide Serve, Encode, EncodeAll, NextId, Request, Small;
    ServesRequest(NextId(tid), slave, memory, start, 2);
    assert forall k :: 0 <= k < n - 1 ==> stales[1..][k] == stales[k + 1];
  }

  lemma RequestId(tid: Word, slave: Byte, start: nat, quantity: nat)
    ensures Request(tid, slave, start, quantity).tid == tid
  {
  }

  /** The device's answers to the fourteen requests of a sample, each behind any stale
      frames, give the device's registers 0 to 25 when its register 133 says counts per
      28.3 litres, and are refused otherwise. */
  lemma SampleReadsMemory(tid: Word, slave: Byte, dry: Error, memory: Memory, budget: nat, stales: seq<seq<Frame>>,
                          rest: seq<Byte>)
    requires budget >= 14 && Fits(SampleRequests(tid, slave), stales)
    ensures AllSmall(stales)
      && Sample(tid, slave, dry, budget, Replies(slave, memory, SampleRequests(tid, slave), stales, rest))
         == if memory(133) == 1 then Ok(Words(memory, 0, 26)) else Err(WrongParticleUnit)
  {
    hide Read, Reads, Serve, Encode, EncodeAll, AllStale, NextId, Request, Pairs;
    var fs := SampleRequests(tid, slave);
    FitsSmall(fs, stales);
    assert AllStale(stales[0], fs[0].tid) && fs[0] == Request(NextId(tid), slave, 133, 1);
    RequestId(NextId(tid), slave, 133, 1);
    var pairs := Pairs(NextId(tid), slave, 0, 13);
    assert fs[1..] == pairs && Fits(pairs, stales[1..]);
    PairsRead(NextId(tid), slave, dry, memory, 0, 13, budget - 1, stales[1..], rest);
    var more := Replies(slave, memory, pairs, stales[1..], rest);
    FirstRead(NextId(tid), slave, dry, memory, 133, 1, stales[0], more);
    assert Words(memory, 133, 1) == [memory(133)];
  }

  /** The discovery's reader gets the registers it asked for, high byte first. */
  lemma ProbeReadsMemory(tid: Word, slave: Byte, dry: Error, memory: Memory, start: nat, quantity: nat,
                         stales: seq<Frame>, rest: seq<Byte>)
    requires 1 <= quantity <= 125 && start + quantity <= 0x10000 && AllStale(stales, tid)
    ensures Small(stales)
      && Discovery.Probe(tid, slave, dry, quantity,
                         Replies(slave, memory, [Request(tid, slave, start, quantity)], [stales], rest))
         == Discovery.Data(DataOf(Words(memory, start, quantity)), rest)
  {
    hide Serve, Encode, Receive;
    StaleSizes(stales, tid);
    ServesRequest(tid, slave, memory, start, quantity);
    var words := Words(memory, start, quantity);
    var f := Frame(tid, 0, slave, ReplyBody(words));
    assert [Request(tid, slave, start, quantity)][1..] == [] && [stales][1..] == [];
    assert Replies(slave, memory, [], [], rest) == rest;
    assert Replies(slave, memory, [Request(tid, slave, start, quantity)], [stales], rest)
           == EncodeAll(stales) + Encode(f) + rest;
    assert EncodeAll(stales) + Encode(f) + rest == EncodeAll(stales) + (Encode(f) + rest);
    Discovery.StaleSkippedToo(tid, slave, dry, quantity, stales, Encode(f) + rest);
    Discovery.ProbeOne(tid, slave, dry, quantity, f, rest);
    assert f.body[2..] == DataOf(words);
  }
}
