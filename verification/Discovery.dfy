/** The register reader of the device discovery, and how it differs from the client's. */
module Discovery {
  import opened Mbap
  import opened Common
  import opened MbapTheorems

  datatype Probed = Data(bytes: seq<Byte>, rest: seq<Byte>) | NoDevice(rest: seq<Byte>) | Dried(error: Error)

  predicate Exact(body: seq<Byte>, quantity: nat) {
    |body| == 2 + 2 * quantity && body[0] == 0x03 && body[1] == 2 * quantity
  }

  function Probe(tid: Word, slave: Byte, dry: Error, quantity: nat, s: seq<Byte>): Probed
    decreases |s|
  {
    if |s| < 7 then Dried(dry)
    else
      var length := FromBe(s, 4);
      if !(2 <= length <= 254) then NoDevice(s[7..])
      else if |s| < 6 + length then Dried(dry)
      else
        var body, rest := s[7..6 + length], s[6 + length..];
        if FromBe(s, 0) != tid then Probe(tid, slave, dry, quantity, rest)
        else if FromBe(s, 2) != 0 || s[6] != slave || !Exact(body, quantity) then NoDevice(rest)
        else Data(body[2..], rest)
  }

  method ReadHoldingRegisters(sock: Socket, tid: Word, slave: Byte, start: nat, quantity: nat)
    returns (r: Result<Option<seq<Byte>>>, sent: seq<Byte>)
    modifies sock
    ensures sent == Encode(Request(tid, slave, start, quantity))
    ensures match Probe(tid, slave, sock.Dry(), quantity, old(sock.incoming))
      case Data(bytes, rest) => r == Ok(Some(bytes)) && sock.incoming == rest
      case NoDevice(rest) => r == Ok(None) && sock.incoming == rest
      case Dried(error) => r == Err(error) && sock.incoming == []
  {
    sent := Encode(Frame(tid, 0, slave, ReadPdu(start, quantity)));
    ghost var s := sock.incoming;
    while true
      invariant Probe(tid, slave, sock.Dry(), quantity, sock.incoming) == Probe(tid, slave, sock.Dry(), quantity, s)
      decreases |sock.incoming|
    {
      ghost var before := sock.incoming;
      var header := sock.RecvExact(7);
      if header.Err? {
        return Err(header.error), sent;
      }
      var length := FromBe(header.value, 4);
      if !(2 <= length <= 254) {
        return Ok(None), sent;
      }
      var body := sock.RecvExact(length - 1);
      if body.Err? {
        return Err(body.error), sent;
      }
      assert before[7..][..length - 1] == before[7..6 + length] && before[7..][length - 1..] == before[6 + length..];
      if FromBe(header.value, 0) != tid {
        continue;
      }
      if FromBe(header.value, 2) != 0 || header.value[6] != slave || !Exact(body.value, quantity) {
        return Ok(None), sent;
      }
      return Ok(Some(body.value[2..])), sent;
    }
  }

  lemma {:induction false} StaleSkippedToo(tid: Word, slave: Byte, dry: Error, quantity: nat, fs: seq<Frame>,
                                           s: seq<Byte>)
    requires AllStale(fs, tid)
    ensures Probe(tid, slave, dry, quantity, EncodeAll(fs) + s) == Probe(tid, slave, dry, quantity, s)
    decreases |fs|
  {
    if fs == [] {
      assert EncodeAll(fs) + s == s;
    } else {
      assert Stale(fs[0], tid);
      var tail := EncodeAll(fs[1..]) + s;
      assert EncodeAll(fs) + s == Encode(fs[0]) + tail;
      HeaderOf(fs[0], tail);
      forall i | 0 <= i < |fs[1..]| ensures Stale(fs[1..][i], tid) {
        assert fs[1..][i] == fs[i + 1];
      }
      StaleSkippedToo(tid, slave, dry, quantity, fs[1..], s);
    }
  }

  lemma ProbeOne(tid: Word, slave: Byte, dry: Error, quantity: nat, f: Frame, rest: seq<Byte>)
    requires Regular(f) && f.tid == tid
    ensures Probe(tid, slave, dry, quantity, Encode(f) + rest)
            == if f.unit == slave && Exact(f.body, quantity) then Data(f.body[2..], rest) else NoDevice(rest)
  {
    hide Encode;
    HeaderOf(f, rest);
  }

  // A complete frame with this id and another protocol than Modbus.
  predicate OtherProtocol(s: seq<Byte>, tid: Word) {
    && |s| >= 7 && 2 <= FromBe(s, 4) <= 254 && |s| >= 6 + FromBe(s, 4)
    && FromBe(s, 0) == tid && FromBe(s, 2) != 0
  }

  /** Behind stale frames, a header of impossible length or a reply of another protocol is
      no device, and a stream that ends too early runs dry. */
  lemma ForeignRefused(tid: Word, slave: Byte, dry: Error, quantity: nat, fs: seq<Frame>, s: seq<Byte>)
    requires AllStale(fs, tid)
    ensures var p := Probe(tid, slave, dry, quantity, EncodeAll(fs) + s);
      && (|s| < 7 ==> p == Dried(dry))
      && (|s| >= 7 && !(2 <= FromBe(s, 4) <= 254) ==> p == NoDevice(s[7..]))
      && (|s| >= 7 && 2 <= FromBe(s, 4) <= 254 && |s| < 6 + FromBe(s, 4) ==> p == Dried(dry))
      && (OtherProtocol(s, tid) ==> p == NoDevice(s[6 + FromBe(s, 4)..]))
  {
    StaleSkippedToo(tid, slave, dry, quantity, fs, s);
  }

  /** On the same stream the discovery accepts exactly the replies of exact length, and
      always returns 2 * quantity bytes; whatever it accepts the client decodes to the
      same registers. */
  lemma StricterThanClient(tid: Word, slave: Byte, dry: Error, quantity: nat, fs: seq<Frame>, f: Frame, rest: seq<Byte>)
    requires AllStale(fs, tid) && Regular(f) && f.tid == tid
    ensures var p := Probe(tid, slave, dry, quantity, Stream(fs, f, rest));
      && (p.Data? <==> f.unit == slave && Exact(f.body, quantity))
      && (p.Data? ==> |p.bytes| == 2 * quantity && p.rest == rest)
    ensures var p := Probe(tid, slave, dry, quantity, Stream(fs, f, rest));
      p.Data? ==> Read(tid, slave, dry, quantity, Stream(fs, f, rest)) == (Ok(Registers(p.bytes)), rest)
  {
    hide Encode, EncodeAll, Receive, Probe;
    assert Stream(fs, f, rest) == EncodeAll(fs) + (Encode(f) + rest);
    StaleSkippedToo(tid, slave, dry, quantity, fs, Encode(f) + rest);
    ProbeOne(tid, slave, dry, quantity, f, rest);
    if f.unit == slave && Exact(f.body, quantity) {
      MatchFound(tid, slave, dry, fs, f, rest);
      assert f.body[2..2 + 2 * quantity] == f.body[2..];
    }
  }

  /** The client alone accepts a reply with bytes missing or to spare. */
  lemma ClientTakesMoreIff(tid: Word, slave: Byte, dry: Error, quantity: nat, fs: seq<Frame>, f: Frame, rest: seq<Byte>)
    requires AllStale(fs, tid) && Acceptable(f, tid, slave)
    ensures var s := Stream(fs, f, rest);
      Read(tid, slave, dry, quantity, s).0.Ok? && !Probe(tid, slave, dry, quantity, s).Data? <==>
        |f.body| >= 2 && f.body[0] == 0x03 && f.body[1] == 2 * quantity
        && (|f.body| > 2 + 2 * quantity || (|f.body| < 2 + 2 * quantity && |f.body| % 2 == 0))
  {
    hide Receive, Probe, Stream;
    MatchFound(tid, slave, dry, fs, f, rest);
    StricterThanClient(tid, slave, dry, quantity, fs, f, rest);
    RegisterCount(f.body, quantity);
  }
}
