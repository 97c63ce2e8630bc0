/** What the MBAP matching guarantees about whole streams, about reused transaction
    ids, and about samples assembled from small reads. */
module MbapTheorems {
  import opened Mbap

  // ----- the reader inverts the frame format ------------------------------

  lemma HeaderOf(f: Frame, rest: seq<Byte>)
    requires Regular(f)
    ensures var s := Encode(f) + rest;
      && |s| >= 6 + |f.body| + 1
      && FromBe(s, 0) == f.tid && FromBe(s, 2) == 0 && FromBe(s, 4) == |f.body| + 1 && s[6] == f.unit
      && s[7..7 + |f.body|] == f.body && s[7 + |f.body|..] == rest
  {
    var s := Encode(f) + rest;
    var head := Be(f.tid) + Be(f.protocol) + Be(|f.body| + 1) + [f.unit];
    assert Encode(f) == head + f.body && |head| == 7;
    assert s == head + (f.body + rest);
    assert s[..7] == head;
    assert s[7..] == f.body + rest;
  }

  predicate Stale(f: Frame, tid: Word) { Regular(f) && f.tid != tid }

  predicate AllStale(fs: seq<Frame>, tid: Word) { forall i :: 0 <= i < |fs| ==> Stale(fs[i], tid) }

  // fs, then f, then bytes nobody has looked at.
  function Stream(fs: seq<Frame>, f: Frame, rest: seq<Byte>): seq<Byte>
    requires |f.body| < 0xFFFF && forall g :: g in fs ==> |g.body| < 0xFFFF
  {
    EncodeAll(fs) + Encode(f) + rest
  }

  /** Complete stale frames are read and dropped, however many there are. */
  lemma {:induction false} StaleSkipped(tid: Word, slave: Byte, dry: Error, fs: seq<Frame>, s: seq<Byte>)
    requires AllStale(fs, tid)
    ensures Receive(tid, slave, dry, EncodeAll(fs) + s) == Receive(tid, slave, dry, s)
    decreases |fs|
  {
    if fs == [] {
      assert EncodeAll(fs) + s == s;
    } else {
      assert Stale(fs[0], tid);
      var tail := EncodeAll(fs[1..]) + s;
      assert EncodeAll(fs) + s == Encode(fs[0]) + tail;
      HeaderOf(fs[0], tail);
      forall i | 0 <= i < |fs[1..]| ensures Stale(fs[1..][i], tid) {
        assert fs[1..][i] == fs[i + 1];
      }
      StaleSkipped(tid, slave, dry, fs[1..], s);
    }
  }

  predicate Acceptable(f: Frame, tid: Word, slave: Byte) {
    Regular(f) && f.tid == tid && f.unit == slave && f.body[0] < 0x80
  }

  /** Any number of complete stale frames followed by the matching one yields exactly
      the matching body and leaves exactly the bytes behind it. */
  lemma MatchFound(tid: Word, slave: Byte, dry: Error, fs: seq<Frame>, f: Frame, rest: seq<Byte>)
    requires AllStale(fs, tid) && Acceptable(f, tid, slave)
    ensures Receive(tid, slave, dry, Stream(fs, f, rest)) == Body(f.body, rest)
  {
    assert Stream(fs, f, rest) == EncodeAll(fs) + (Encode(f) + rest);
    StaleSkipped(tid, slave, dry, fs, Encode(f) + rest);
    HeaderOf(f, rest);
  }

  lemma FirstFrame(s: seq<Byte>)
    requires |s| >= 7 && FromBe(s, 2) == 0 && 2 <= FromBe(s, 4) <= 254 && |s| >= 6 + FromBe(s, 4)
    ensures var f := Frame(FromBe(s, 0), 0, s[6], s[7..6 + FromBe(s, 4)]);
      Regular(f) && s == Encode(f) + s[6 + FromBe(s, 4)..]
  {
    var n := FromBe(s, 4);
    var f := Frame(FromBe(s, 0), 0, s[6], s[7..6 + n]);
    assert Be(f.tid) == s[0..2] && Be(0) == s[2..4] && Be(n) == s[4..6];
    assert s == s[0..2] + s[2..4] + s[4..6] + [s[6]] + s[7..6 + n] + s[6 + n..];
  }

  lemma NoneStale(tid: Word)
    ensures AllStale([], tid)
  {
  }

  lemma StaleSizes(fs: seq<Frame>, tid: Word)
    requires AllStale(fs, tid)
    ensures forall f :: f in fs ==> |f.body| < 0xFFFF
  {
  }

  lemma StreamNil(f: Frame, rest: seq<Byte>)
    requires |f.body| < 0xFFFF
    ensures Stream([], f, rest) == Encode(f) + rest
  {
    hide Encode;
    assert [] + Encode(f) == Encode(f);
  }

  lemma StreamCons(g: Frame, fs: seq<Frame>, f: Frame, rest: seq<Byte>)
    requires |f.body| < 0xFFFF && |g.body| < 0xFFFF && forall h :: h in fs ==> |h.body| < 0xFFFF
    ensures (forall tid :: AllStale(fs, tid) && Stale(g, tid) ==> AllStale([g] + fs, tid))
    ensures (forall h :: h in [g] + fs ==> |h.body| < 0xFFFF)
      && Stream([g] + fs, f, rest) == Encode(g) + Stream(fs, f, rest)
  {
    hide Encode;
    assert ([g] + fs)[1..] == fs;
    assert Encode(g) + EncodeAll(fs) + Encode(f) + rest == Encode(g) + (EncodeAll(fs) + Encode(f) + rest);
  }

  /** And nothing else is ever accepted: an accepted body was carried by a frame with
      this request's id and the client's unit, behind complete frames with other ids. */
  lemma {:induction false} AcceptedOnlyIf(tid: Word, slave: Byte, dry: Error, s: seq<Byte>) returns (fs: seq<Frame>)
    requires Receive(tid, slave, dry, s).Body?
    ensures var r := Receive(tid, slave, dry, s); var f := Frame(tid, 0, slave, r.body);
      AllStale(fs, tid) && Acceptable(f, tid, slave) && s == Stream(fs, f, r.rest)
    decreases |s|
  {
    hide Encode, EncodeAll, Stream, AllStale;
    FirstFrame(s);
    var n := FromBe(s, 4);
    var rest := s[6 + n..];
    if FromBe(s, 0) == tid {
      fs := [];
      NoneStale(tid);
      StreamNil(Frame(tid, 0, slave, s[7..6 + n]), rest);
    } else {
      var more := AcceptedOnlyIf(tid, slave, dry, rest);
      var g := Frame(FromBe(s, 0), 0, s[6], s[7..6 + n]);
      fs := [g] + more;
      StaleSizes(more, tid);
      var found := Receive(tid, slave, dry, rest);
      StreamCons(g, more, Frame(tid, 0, slave, found.body), found.rest);
    }
  }

  /** The first complete frame with the request's id decides, and until then every header:
      a wrong protocol or length, another unit and an exception are each told apart, and a
      stream that ends too early runs dry. */
  lemma FirstDecides(tid: Word, slave: Byte, dry: Error, fs: seq<Frame>, s: seq<Byte>)
    requires AllStale(fs, tid)
    ensures var r := Receive(tid, slave, dry, EncodeAll(fs) + s);
      && (|s| < 7 ==> r == Failed(dry, []))
      && (|s| >= 7 && FromBe(s, 2) != 0 ==> r == Failed(BadProtocol, s[7..]))
      && (|s| >= 7 && FromBe(s, 2) == 0 && !(2 <= FromBe(s, 4) <= 254) ==> r == Failed(BadLength, s[7..]))
      && (|s| >= 7 && FromBe(s, 2) == 0 && 2 <= FromBe(s, 4) <= 254 && |s| < 6 + FromBe(s, 4) ==> r == Failed(dry, []))
  {
    StaleSkipped(tid, slave, dry, fs, s);
  }

  lemma MatchRefused(tid: Word, slave: Byte, dry: Error, fs: seq<Frame>, f: Frame, rest: seq<Byte>)
    requires AllStale(fs, tid) && Regular(f) && f.tid == tid
    ensures (forall g :: g in fs ==> |g.body| < 0xFFFF)
      && var r := Receive(tid, slave, dry, Stream(fs, f, rest));
         && (f.unit != slave ==> r == Failed(BadUnit, rest))
         && (f.unit == slave && f.body[0] >= 0x80 ==> r == Failed(DeviceException, rest))
  {
    StaleSizes(fs, tid);
    assert Stream(fs, f, rest) == EncodeAll(fs) + (Encode(f) + rest);
    StaleSkipped(tid, slave, dry, fs, Encode(f) + rest);
    HeaderOf(f, rest);
  }

  // ----- transaction ids --------------------------------------------------

  /** Two requests of one client share an id exactly when their distance is a multiple
      of 65536. */
  lemma IdsCollideIff(tid: Word, i: nat, j: nat)
    ensures IdOf(tid, i) == IdOf(tid, j) <==> (j - i) % 0x10000 == 0
  {
  }

  // A reply to one of the 65535 requests before request n.
  predicate LateReply(f: Frame, tid: Word, n: nat) {
    Regular(f) && exists i: nat :: i < n <= i + 0xFFFF && f.tid == IdOf(tid, i)
  }

  /** Replies to any of the previous 65535 requests, in any order and number, cannot be
      taken for the reply to this one. */
  lemma LateRepliesIgnored(tid: Word, n: nat, slave: Byte, dry: Error, fs: seq<Frame>, f: Frame, rest: seq<Byte>)
    requires forall k :: 0 <= k < |fs| ==> LateReply(fs[k], tid, n)
    requires Acceptable(f, IdOf(tid, n), slave)
    ensures (forall g :: g in fs ==> |g.body| < 0xFFFF)
      && Receive(IdOf(tid, n), slave, dry, Stream(fs, f, rest)) == Body(f.body, rest)
  {
    forall k | 0 <= k < |fs| ensures Stale(fs[k], IdOf(tid, n)) {
      assert LateReply(fs[k], tid, n);
      var i: nat :| i < n <= i + 0xFFFF && fs[k].tid == IdOf(tid, i);
      IdsCollideIff(tid, i, n);
    }
    MatchFound(IdOf(tid, n), slave, dry, fs, f, rest);
  }

  // ----- register payloads ------------------------------------------------

  function DataOf(words: seq<Word>): (data: seq<Byte>)
    ensures |data| == 2 * |words|
  {
    seq(2 * |words|, i requires 0 <= i < 2 * |words| =>
      if i % 2 == 0 then words[i / 2] / 0x100 else words[i / 2] % 0x100)
  }

  lemma DataRoundTrip(words: seq<Word>)
    ensures Registers(DataOf(words)) == words
  {
    forall i | 0 <= i < |words| ensures Registers(DataOf(words))[i] == words[i] {
      assert DataOf(words)[2 * i] == words[i] / 0x100 && DataOf(words)[2 * i + 1] == words[i] % 0x100;
    }
  }

  function ReplyBody(words: seq<Word>): seq<Byte>
    requires |words| <= 125
  {
    [0x03, 2 * |words|] + DataOf(words)
  }

  /** The reader returns as many registers as it asked for exactly when the body is long
      enough for them; a shorter body of even length is accepted all the same. */
  lemma RegisterCount(body: seq<Byte>, quantity: nat)
    requires body != []
    ensures Decode(body, quantity).Ok? <==>
      |body| >= 2 && body[0] == 0x03 && body[1] == 2 * quantity && (|body| >= 2 + 2 * quantity || |body| % 2 == 0)
    ensures Decode(body, quantity).Ok? ==>
      (|Decode(body, quantity).value| == quantity <==> |body| >= 2 + 2 * quantity)
  {
  }

  /** What a refused body is refused for. */
  lemma BodyRefused(body: seq<Byte>, quantity: nat)
    requires body != []
    ensures Decode(body, quantity) == Err(BadFunction) <==> body[0] != 0x03
    ensures Decode(body, quantity) == Err(TooShort) <==> body == [0x03]
    ensures Decode(body, quantity) == Err(BadByteCount) <==>
      |body| >= 2 && body[0] == 0x03 && body[1] != 2 * quantity
    ensures Decode(body, quantity) == Err(OddPayload) <==>
      |body| >= 2 && body[0] == 0x03 && body[1] == 2 * quantity && |body| < 2 + 2 * quantity && |body| % 2 == 1
  {
  }

  lemma ShortReplyAccepted()
    ensures Decode([0x03, 4, 0x12, 0x34], 2) == Ok([0x1234])
  {
    assert Registers([0x12, 0x34]) == [0x1234];
    var body: seq<Byte> := [0x03, 4, 0x12, 0x34];
    assert body[2..] == [0x12, 0x34];
  }

  lemma ExactReply(words: seq<Word>)
    requires |words| <= 125
    ensures Decode(ReplyBody(words), |words|) == Ok(words)
  {
    var body := ReplyBody(words);
    assert body[2..2 + 2 * |words|] == DataOf(words);
    assert body[2..] == DataOf(words);
    DataRoundTrip(words);
  }

  // ----- a sample out of small reads --------------------------------------

  // Late replies, then the device's reply to request tid with these registers.
  datatype Exchange = Exchange(stale: seq<Frame>, words: seq<Word>)

  function Carried(e: Exchange, tid: Word, slave: Byte, rest: seq<Byte>): seq<Byte>
    requires AllStale(e.stale, tid) && |e.words| <= 125
  {
    Stream(e.stale, Frame(tid, 0, slave, ReplyBody(e.words)), rest)
  }

  lemma OneRead(e: Exchange, tid: Word, slave: Byte, dry: Error, rest: seq<Byte>)
    requires AllStale(e.stale, tid) && |e.words| <= 125
    ensures Read(tid, slave, dry, |e.words|, Carried(e, tid, slave, rest)) == (Ok(e.words), rest)
  {
    MatchFound(tid, slave, dry, e.stale, Frame(tid, 0, slave, ReplyBody(e.words)), rest);
    ExactReply(e.words);
  }

  predicate Fitting(stales: seq<seq<Frame>>, tid: Word) {
    forall k :: 0 <= k < |stales| ==> AllStale(stales[k], IdOf(tid, k + 1))
  }

  // What arrives for |stales| two-register reads of consecutive registers.
  function Conversation(memory: seq<Word>, stales: seq<seq<Frame>>, tid: Word, slave: Byte, rest: seq<Byte>): seq<Byte>
    requires Fitting(stales, tid) && |memory| == 2 * |stales|
    decreases |stales|
  {
    if stales == [] then rest
    else
      FittingTail(stales, tid);
      Carried(Exchange(stales[0], memory[..2]), NextId(tid), slave,
              Conversation(memory[2..], stales[1..], NextId(tid), slave, rest))
  }

  lemma FittingTail(stales: seq<seq<Frame>>, tid: Word)
    requires Fitting(stales, tid) && stales != []
    ensures AllStale(stales[0], NextId(tid)) && Fitting(stales[1..], NextId(tid))
  {
    assert AllStale(stales[0], IdOf(tid, 0 + 1));
    forall k | 0 <= k < |stales[1..]| ensures AllStale(stales[1..][k], IdOf(NextId(tid), k + 1)) {
      assert AllStale(stales[k + 1], IdOf(tid, k + 1 + 1));
      assert IdOf(NextId(tid), k + 1) == IdOf(tid, k + 1 + 1);
    }
  }

  /** Small reads, each behind its own stale frames, rebuild the device memory. */
  lemma {:induction false} ReadsRebuild(memory: seq<Word>, stales: seq<seq<Frame>>, tid: Word, slave: Byte, dry: Error,
                                        budget: nat, rest: seq<Byte>)
    requires Fitting(stales, tid) && |memory| == 2 * |stales| && budget >= |stales|
    ensures Reads(tid, slave, dry, |stales|, budget, Conversation(memory, stales, tid, slave, rest)) == Ok(memory)
    decreases |stales|
  {
    hide Read, Carried, AllStale, Fitting;
    if stales != [] {
      FittingTail(stales, tid);
      var e := Exchange(stales[0], memory[..2]);
      var more := Conversation(memory[2..], stales[1..], NextId(tid), slave, rest);
      OneRead(e, NextId(tid), slave, dry, more);
      ReadsFirst(tid, slave, dry, |stales|, budget, Carried(e, NextId(tid), slave, more));
      ReadsRebuild(memory[2..], stales[1..], NextId(tid), slave, dry, budget - 1, rest);
      assert memory == memory[..2] + memory[2..];
    }
  }

  /** Thirteen two-register reads give the same 26 registers as one read of 26. */
  lemma SampleIsOneRead(memory: seq<Word>, stales: seq<seq<Frame>>, big: Exchange, tid: Word, slave: Byte, dry: Error,
                        budget: nat, rest: seq<Byte>)
    requires |stales| == 13 && |memory| == 26 && Fitting(stales, tid) && budget >= 13
    requires big.words == memory && AllStale(big.stale, NextId(tid))
    ensures Reads(tid, slave, dry, 13, budget, Conversation(memory, stales, tid, slave, rest))
            == Read(NextId(tid), slave, dry, 26, Carried(big, NextId(tid), slave, rest)).0
  {
    hide *;
    ReadsRebuild(memory, stales, tid, slave, dry, budget, rest);
    OneRead(big, NextId(tid), slave, dry, rest);
  }

  /** A whole sample: stale frames and the unit register, then the thirteen replies, all
      fourteen requests before the deadline, yields the device's 26 registers. */
  lemma SampleRebuilds(memory: seq<Word>, unit: seq<Frame>, stales: seq<seq<Frame>>, tid: Word, slave: Byte, dry: Error,
                       budget: nat, rest: seq<Byte>)
    requires |stales| == 13 && |memory| == 26 && budget >= 14
    requires AllStale(unit, NextId(tid)) && Fitting(stales, NextId(tid))
    ensures Sample(tid, slave, dry, budget,
                   Carried(Exchange(unit, [1]), NextId(tid), slave,
                           Conversation(memory, stales, NextId(tid), slave, rest))) == Ok(memory)
  {
    hide Reads, Read, Carried, Conversation, NextId, Fitting;
    var e := Exchange(unit, [1]);
    OneRead(e, NextId(tid), slave, dry, Conversation(memory, stales, NextId(tid), slave, rest));
    ReadsRebuild(memory, stales, NextId(tid), slave, dry, budget - 1, rest);
  }

  lemma ReadCount(tid: Word, slave: Byte, dry: Error, quantity: nat, s: seq<Byte>)
    ensures var r := Read(tid, slave, dry, quantity, s).0; r.Ok? ==> |r.value| <= quantity
  {
    hide Decode;
    var reply := Receive(tid, slave, dry, s);
    if reply.Body? {
      BodyNotEmpty(tid, slave, dry, s);
      AtMostAsked(reply.body, quantity);
    }
  }

  lemma AtMostAsked(body: seq<Byte>, quantity: nat)
    requires body != []
    ensures Decode(body, quantity).Ok? ==> |Decode(body, quantity).value| <= quantity
  {
  }

  lemma {:induction false} ReadsCount(tid: Word, slave: Byte, dry: Error, n: nat, budget: nat, s: seq<Byte>)
    ensures var r := Reads(tid, slave, dry, n, budget, s); r.Ok? ==> |r.value| <= 2 * n
    decreases n
  {
    hide Read;
    if n > 0 && budget > 0 {
      ReadCount(NextId(tid), slave, dry, 2, s);
      ReadsCount(NextId(tid), slave, dry, n - 1, budget - 1, Read(NextId(tid), slave, dry, 2, s).1);
    }
  }

  /** Whatever arrives, an accepted sample has exactly 26 registers. */
  lemma AcceptedSampleComplete(tid: Word, slave: Byte, dry: Error, budget: nat, s: seq<Byte>)
    ensures var r := Sample(tid, slave, dry, budget, s); r.Ok? ==> |r.value| == 26
  {
    hide Read, Reads;
    if budget > 0 {
      var (unit, rest) := Read(NextId(tid), slave, dry, 1, s);
      ReadsCount(NextId(tid), slave, dry, 13, budget - 1, rest);
    }
  }
}
