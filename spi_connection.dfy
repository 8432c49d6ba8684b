/**
 * The SPI link to the Si5394 (class `Connection` of logic/SpiConnection.py),
 * modelled as an append-only trace of bus transactions. The bytes the device
 * shifts back on MISO are an input of the model: `miso` holds the bytes the
 * device will answer with, and every full-duplex transfer consumes as many
 * of them as it sends.
 */
module SpiConnection {

  import opened Text
  import opened Bits
  import Status

  /** One event on the bus or towards the user interface. */
  datatype BusEvent =
    | Write(bytes: seq<nat>)                       // spi.writebytes / spi.writebytes2
    | Transfer(sent: seq<nat>, received: seq<nat>) // spi.xfer
    | Wait(ms: nat)                                // time.sleep before a PLL change takes effect
    | Notify(message: string)                      // the user interface callback

  /** The command bytes of the serial interface. */
  const SetAddress: nat := 0x00
  const WriteData: nat := 0x40
  const ReadDataInc: nat := 0xA0
  const WriteBurst: nat := 0xE0

  /** The page register. */
  const PageRegister: nat := 0x01

  /** Registers written before a PLL change. */
  const Preamble: seq<(nat, nat)> := [(0x0B24, 0xC0), (0x0B25, 0x00), (0x0540, 0x01)]

  /** Registers written after a PLL change: soft reset included. */
  const Postamble2: seq<(nat, nat)> := [(0x0514, 0x01), (0x001C, 0x01), (0x0540, 0x00), (0x0B24, 0xC3), (0x0B25, 0x02)]

  /** The pause between the preamble and the data, in milliseconds. */
  const PllChangeWait: nat := 300

  /** `__setPage(page)`: address the page register, then write the page number. */
  function PageEvents(page: nat): (es: seq<BusEvent>)
  {
    [Write([SetAddress, PageRegister]), Write([WriteData, page])]
  }

  /** The data bytes of a register list. */
  function Values(data: seq<(nat, nat)>): (vs: seq<nat>)
    ensures |vs| == |data| && forall i :: 0 <= i < |data| ==> vs[i] == data[i].1
  {
    seq(|data|, i requires 0 <= i < |data| => data[i].1)
  }

  /**
   * `__burstWrite(run)`: select the page of the first address, then one write
   * of the burst command, the low address byte and every data byte.
   */
  function BurstEvents(run: seq<(nat, nat)>): (es: seq<BusEvent>)
    requires |run| > 0
    ensures |es| == 3 && es[..2] == PageEvents(run[0].0 / 256)
    ensures es[2].Write? && |es[2].bytes| == |run| + 2 && es[2].bytes[..2] == [WriteBurst, run[0].0 % 256] && es[2].bytes[2..] == Values(run)
  {
    var payload := [WriteBurst, run[0].0 % 256] + Values(run);
    assert payload[2..] == Values(run);
    PageEvents(run[0].0 / 256) + [Write(payload)]
  }

  /** The bursts of a list of runs, one after another (an empty run, which `__writeList` never forms, adds none). */
  function BurstsEvents(runs: seq<seq<(nat, nat)>>): (es: seq<BusEvent>)
  {
    if |runs| == 0 then []
    else BurstsEvents(runs[..|runs| - 1]) + (if |runs[|runs| - 1]| > 0 then BurstEvents(runs[|runs| - 1]) else [])
  }

  /** Register b can follow register a in one burst: the next address, on the same page. */
  predicate Follows(a: int, b: int)
  {
    b == a + 1 && b / 256 == a / 256
  }

  /** The runs `__writeList` cuts a register list into, built up register by register. */
  function Runs(data: seq<(nat, nat)>): (runs: seq<seq<(nat, nat)>>)
    ensures |runs| > 0 <==> |data| > 0
  {
    if |data| == 0 then []
    else if |data| == 1 then [[data[0]]]
    else Extend(Runs(data[..|data| - 1]), data[|data| - 1], Follows(data[|data| - 2].0, data[|data| - 1].0))
  }

  /** reg appended to the last run when it joins, otherwise as a run of its own. */
  function Extend(runs: seq<seq<(nat, nat)>>, reg: (nat, nat), joins: bool): (r: seq<seq<(nat, nat)>>)
    requires |runs| > 0
    ensures |r| > 0
  {
    if joins then runs[..|runs| - 1] + [runs[|runs| - 1] + [reg]] else runs + [[reg]]
  }

  /** Every run of `__writeList` holds a register. */
  lemma {:induction false} RunsNonEmpty(data: seq<(nat, nat)>)
    ensures forall k :: 0 <= k < |Runs(data)| ==> |Runs(data)[k]| > 0
    decreases |data|
  {
    if |data| > 1 {
      RunsNonEmpty(data[..|data| - 1]);
    }
  }

  /** The runs end to end. */
  function Flatten(runs: seq<seq<(nat, nat)>>): seq<(nat, nat)>
  {
    if |runs| == 0 then [] else Flatten(runs[..|runs| - 1]) + runs[|runs| - 1]
  }

  /** Inside each run every address follows the one before. */
  predicate Consecutive(runs: seq<seq<(nat, nat)>>)
  {
    forall k, j :: 0 <= k < |runs| && 0 < j < |runs[k]| ==> Follows(runs[k][j - 1].0, runs[k][j].0)
  }

  /** No run could take the first register of the next one. */
  predicate Maximal(runs: seq<seq<(nat, nat)>>)
  {
    forall k :: 0 < k < |runs| && |runs[k - 1]| > 0 && |runs[k]| > 0 ==>
      !Follows(runs[k - 1][|runs[k - 1]| - 1].0, runs[k][0].0)
  }

  /** The last register of the last run is the last register of the list. */
  lemma {:induction false} RunsLast(data: seq<(nat, nat)>)
    requires |data| > 0
    ensures var runs := Runs(data); |runs[|runs| - 1]| > 0 && runs[|runs| - 1][|runs[|runs| - 1]| - 1] == data[|data| - 1]
  {
  }

  /** Put end to end, the runs of `__writeList` give the list back. */
  lemma {:induction false} RunsFlatten(data: seq<(nat, nat)>)
    ensures Flatten(Runs(data)) == data
    decreases |data|
  {
    if |data| > 1 {
      var front, reg := data[..|data| - 1], data[|data| - 1];
      var rest := Runs(front);
      RunsFlatten(front);
      var m := |rest|;
      assert data == front + [reg];
      if Follows(data[|data| - 2].0, reg.0) {
        assert rest[..m - 1] + [rest[m - 1]] == rest;
        FlattenLast(rest[..m - 1], rest[m - 1]);
        FlattenLast(rest[..m - 1], rest[m - 1] + [reg]);
      } else {
        FlattenLast(rest, [reg]);
      }
    }
  }

  lemma FlattenLast(runs: seq<seq<(nat, nat)>>, run: seq<(nat, nat)>)
    ensures Flatten(runs + [run]) == Flatten(runs) + run
  {
    assert (runs + [run])[..|runs|] == runs;
  }

  /** Inside every run of `__writeList` each address follows the one before on its page. */
  lemma {:induction false} RunsConsecutive(data: seq<(nat, nat)>)
    ensures Consecutive(Runs(data))
    decreases |data|
  {
    if |data| > 1 {
      var front := data[..|data| - 1];
      RunsConsecutive(front);
      RunsLast(front);
      ExtendConsecutive(Runs(front), data[|data| - 1], Follows(data[|data| - 2].0, data[|data| - 1].0));
    }
  }

  lemma ExtendConsecutive(runs: seq<seq<(nat, nat)>>, reg: (nat, nat), joins: bool)
    requires |runs| > 0 && |runs[|runs| - 1]| > 0 && Consecutive(runs)
    requires joins ==> Follows(runs[|runs| - 1][|runs[|runs| - 1]| - 1].0, reg.0)
    ensures Consecutive(Extend(runs, reg, joins))
  {
    var r, m := Extend(runs, reg, joins), |runs|;
    if joins {
      assert forall k :: 0 <= k < m - 1 ==> r[k] == runs[k];
      assert r[m - 1] == runs[m - 1] + [reg];
    } else {
      assert forall k :: 0 <= k < m ==> r[k] == runs[k];
    }
  }

  /** Between two runs of `__writeList` the next address does not follow on the same page. */
  lemma {:induction false} RunsMaximal(data: seq<(nat, nat)>)
    ensures Maximal(Runs(data))
    decreases |data|
  {
    if |data| > 1 {
      var front := data[..|data| - 1];
      RunsMaximal(front);
      RunsLast(front);
      ExtendMaximal(Runs(front), data[|data| - 1], Follows(data[|data| - 2].0, data[|data| - 1].0));
    }
  }

  lemma ExtendMaximal(runs: seq<seq<(nat, nat)>>, reg: (nat, nat), joins: bool)
    requires |runs| > 0 && |runs[|runs| - 1]| > 0 && Maximal(runs)
    requires !joins ==> !Follows(runs[|runs| - 1][|runs[|runs| - 1]| - 1].0, reg.0)
    ensures Maximal(Extend(runs, reg, joins))
  {
    var r, m := Extend(runs, reg, joins), |runs|;
    if joins {
      assert forall k :: 0 <= k < m - 1 ==> r[k] == runs[k];
      assert r[m - 1][0] == runs[m - 1][0];
    } else {
      assert forall k :: 0 <= k < m ==> r[k] == runs[k];
    }
  }

  /** The events `__writeList(data)` leaves on the bus: one burst per run. */
  function ListEvents(data: seq<(nat, nat)>): seq<BusEvent>
  {
    BurstsEvents(Runs(data))
  }

  /** `__writeList` needs a first register, and one that is not the first of its page:
      for those the first comparison fails and an empty burst is issued. */
  predicate Writable(data: seq<(nat, nat)>)
  {
    |data| > 0 && data[0].0 % 256 != 0
  }

  /** The preamble is two bursts: 0x0B24-0x0B25 on page 0x0B, then 0x0540 on page 5. */
  lemma PreambleBursts()
    ensures Runs(Preamble) == [Preamble[..2], Preamble[2..]]
    ensures ListEvents(Preamble) ==
      PageEvents(0x0B) + [Write([WriteBurst, 0x24, 0xC0, 0x00])] + PageEvents(0x05) + [Write([WriteBurst, 0x40, 0x01])]
  {
    var first, second := Preamble[..2], Preamble[2..];
    PreambleRuns();
    assert BurstsEvents([first, second]) == BurstEvents(first) + BurstEvents(second) by {
      BurstsAppend([], first);
      BurstsAppend([first], second);
      assert [] + [first] == [first] && [first] + [second] == [first, second];
    }
    assert BurstEvents(first) == PageEvents(0x0B) + [Write([WriteBurst, 0x24, 0xC0, 0x00])] by {
      assert first[0].0 == 0x0B24;
      assert Values(first) == [0xC0, 0x00];
      assert [WriteBurst, 0x24] + [0xC0, 0x00] == [WriteBurst, 0x24, 0xC0, 0x00];
    }
    assert BurstEvents(second) == PageEvents(0x05) + [Write([WriteBurst, 0x40, 0x01])] by {
      assert second[0].0 == 0x0540;
      assert Values(second) == [0x01];
      assert [WriteBurst, 0x40] + [0x01] == [WriteBurst, 0x40, 0x01];
    }
  }

  lemma PreambleRuns()
    ensures Runs(Preamble) == [Preamble[..2], Preamble[2..]]
  {
    var p := Preamble;
    var first, second := p[..2], p[2..];
    assert p[..1] == [p[0]];
    RunsExtend(p, 1);
    assert [p[0]] + [p[1]] == first;
    RunsExtend(p, 2);
    assert [p[2]] == second;
    assert p[..3] == p;
  }

  /** postamble2 is four bursts: 0x0514, 0x001C, 0x0540 and 0x0B24-0x0B25. */
  lemma Postamble2Bursts()
    ensures Runs(Postamble2) == [Postamble2[..1], Postamble2[1..2], Postamble2[2..3], Postamble2[3..]]
  {
    var p := Postamble2;
    assert p[..1] == [p[0]];
    RunsExtend(p, 1);
    assert [p[1]] == p[1..2];
    RunsExtend(p, 2);
    assert [p[2]] == p[2..3];
    RunsExtend(p, 3);
    RunsExtend(p, 4);
    assert [p[3]] + [p[4]] == p[3..];
    assert p[..5] == p;
  }

  /** The first `__readBytes` transfer and the reply bytes it is answered with. */
  function ReadEvents(start: nat, length: nat, rx: seq<nat>): (es: seq<BusEvent>)
    requires |rx| >= ReadLength(length)
    ensures |es| == (if length == 0 then 1 else length)
    ensures forall k :: 0 <= k < |es| ==> es[k].Transfer? && |es[k].received| == |es[k].sent|
  {
    [Transfer([SetAddress, start, ReadDataInc, 0x00], rx[..4])]
      + seq(if length == 0 then 0 else length - 1,
            k requires 0 <= k < (if length == 0 then 0 else length - 1) => Transfer([ReadDataInc, 0x00], rx[4 + 2 * k..6 + 2 * k]))
  }

  /** How many reply bytes `__readBytes(start, length)` clocks in. */
  function ReadLength(length: nat): (n: nat)
    ensures n >= 4
  {
    if length == 0 then 4 else 2 * length + 2
  }

  class Connection {
    /** Every event so far, oldest first. */
    var trace: seq<BusEvent>
    /** The bytes the device will answer with on the next transfers. */
    var miso: seq<nat>

    /**
     * `Connection(callback)` after the bus is opened: select page 0 and read
     * the two device-id bytes at 0x02 (which the source only prints).
     */
    constructor (rx: seq<nat>)
      requires |rx| >= ReadLength(2)
      ensures trace == PageEvents(0) + ReadEvents(0x02, 2, rx)
      ensures miso == rx[ReadLength(2)..]
    {
      trace := [];
      miso := rx;
      new;
      SetPage(0);
      var id := ReadBytes(0x02, 2);
    }

    /** `spi.xfer(sent)`: send and receive |sent| bytes. */
    method Xfer(sent: seq<nat>) returns (received: seq<nat>)
      requires |miso| >= |sent|
      modifies this
      ensures received == old(miso)[..|sent|] && miso == old(miso)[|sent|..]
      ensures trace == old(trace) + [Transfer(sent, received)]
    {
      received := miso[..|sent|];
      miso := miso[|sent|..];
      trace := trace + [Transfer(sent, received)];
    }

    /** `spi.writebytes(bytes)` and `spi.writebytes2(bytes)`. */
    method WriteBytes(bytes: seq<nat>)
      modifies this
      ensures trace == old(trace) + [Write(bytes)] && miso == old(miso)
    {
      trace := trace + [Write(bytes)];
    }

    /** `__setPage(page)`. */
    method SetPage(page: nat)
      modifies this
      ensures trace == old(trace) + PageEvents(page) && miso == old(miso)
    {
      WriteBytes([SetAddress, PageRegister]);
      WriteBytes([WriteData, page]);
    }

    /**
     * `__readBytes(start, length)`: one four-byte transfer that sets the
     * address and reads, then length - 1 two-byte reads. The k-th byte
     * returned is reply byte 2k + 3; a length of 0 still reads one byte.
     */
    method ReadBytes(start: nat, length: nat) returns (bytes: seq<nat>)
      requires |miso| >= ReadLength(length)
      modifies this
      ensures |bytes| == (if length == 0 then 1 else length)
      ensures forall k :: 0 <= k < |bytes| ==> bytes[k] == old(miso)[2 * k + 3]
      ensures miso == old(miso)[ReadLength(length)..]
      ensures trace == old(trace) + ReadEvents(start, length, old(miso))
    {
      ghost var rx := miso;
      var received := Xfer([SetAddress, start, ReadDataInc, 0x00]);
      bytes := [received[3]];
      var rest := if length == 0 then 0 else length - 1;
      for i := 0 to rest
        invariant |bytes| == i + 1
        invariant forall k :: 0 <= k <= i ==> bytes[k] == rx[2 * k + 3]
        invariant miso == rx[4 + 2 * i..]
        invariant trace == old(trace) + ReadEvents(start, i + 1, rx)
      {
        received := Xfer([ReadDataInc, 0x00]);
        assert received == rx[4 + 2 * i..6 + 2 * i];
        bytes := bytes + [received[1]];
        ReadEventsStep(start, i + 1, rx);
        TraceAppend(old(trace), ReadEvents(start, i + 1, rx), [Transfer([ReadDataInc, 0x00], received)]);
      }
      assert ReadEvents(start, rest + 1, rx) == ReadEvents(start, length, rx);
    }

    /**
     * `readStatus(shared)`: page 0 registers 0x0D..0x13, then register 0x507
     * on page 5. The loss-of-signal and lock flags come from the first two
     * reply bytes read; the locked input is bits 7..6 of register 0x507.
     */
    method ReadStatus(shared: Status.SharedLists) returns (res: Status.Status)
      requires |miso| >= 20
      requires shared.los.Length == 4 && shared.oof.Length == 4 && shared.los != shared.oof
      modifies this, shared.los, shared.oof
      ensures fresh(res) && res.los == shared.los && res.oof == shared.oof
      ensures forall i :: 0 <= i < 4 ==> res.los[i] == Bit(old(miso)[3], i) && res.oof[i] == Bit(old(miso)[3], 4 + i)
      ensures res.lol == Bit(old(miso)[5], 1) && res.hold == Bit(old(miso)[5], 5)
      ensures res.input == old(miso)[19] / 64
      ensures miso == old(miso)[20..]
      ensures trace == old(trace) + PageEvents(0) + ReadEvents(0x0D, 7, old(miso))
                                  + PageEvents(5) + ReadEvents(0x07, 1, old(miso)[16..])
    {
      ghost var rx := miso;
      SetPage(0);
      var page0 := ReadBytes(0x0D, 7);
      assert page0[0] == rx[3] && page0[1] == rx[5];
      SetPage(5);
      ghost var rx5 := miso;
      var page5 := ReadBytes(0x07, 1);
      assert page5[0] == rx5[3];
      res := new Status.Status(page0, shared);
      res.input := page5[0] / 64;
    }

    /** `__burstWrite(run)`: one burst of a run on a single page. */
    method BurstWrite(run: seq<(nat, nat)>)
      requires |run| > 0
      modifies this
      ensures trace == old(trace) + BurstEvents(run) && miso == old(miso)
    {
      SetPage(run[0].0 / 256);
      var payload := [WriteBurst, run[0].0 % 256] + Values(run);
      WriteBytes(payload);
    }

    /**
     * `__writeList(data)`: collect registers while each follows the one
     * before on the same page, and burst each collected run.
     */
    method WriteList(data: seq<(nat, nat)>)
      requires Writable(data)
      modifies this
      ensures trace == old(trace) + ListEvents(data) && miso == old(miso)
    {
      var last: int := data[0].0 - 1;
      var run: seq<(nat, nat)> := [];
      ghost var done: seq<seq<(nat, nat)>> := [];
      for i := 0 to |data|
        invariant i == 0 ==> run == [] && done == [] && last == data[0].0 - 1 && trace == old(trace)
        invariant i > 0 ==> |run| > 0 && last == data[i - 1].0 && Runs(data[..i]) == done + [run]
        invariant i > 0 ==> trace == old(trace) + BurstsEvents(done)
        invariant miso == old(miso)
      {
        var reg := data[i];
        WriteListStep(data, i, done, run, last);
        if Follows(last, reg.0) {
          run := run + [reg];
        } else {
          BurstWrite(run);
          BurstsAppend(done, run);
          TraceAppend(old(trace), BurstsEvents(done), BurstEvents(run));
          done := done + [run];
          run := [reg];
        }
        last := reg.0;
      }
      BurstWrite(run);
      BurstsAppend(done, run);
      TraceAppend(old(trace), BurstsEvents(done), BurstEvents(run));
      assert data[..|data|] == data;
    }

    /**
     * `writeRegister(data)`: the preamble, a 300 ms pause, the data, the
     * postamble with the soft reset, then the callback with the register count.
     */
    method WriteRegister(data: seq<(nat, nat)>)
      requires Writable(data)
      modifies this
      ensures trace == old(trace) + ListEvents(Preamble) + [Wait(PllChangeWait)] + ListEvents(data)
                                  + ListEvents(Postamble2) + [Notify("wrote " + NatToString(|data|) + " register")]
      ensures miso == old(miso)
    {
      WriteList(Preamble);
      trace := trace + [Wait(PllChangeWait)];
      WriteList(data);
      WriteList(Postamble2);
      trace := trace + [Notify("wrote " + NatToString(|data|) + " register")];
    }
  }

  /** One more reply read by `__readBytes`. */
  lemma ReadEventsStep(start: nat, n: nat, rx: seq<nat>)
    requires n >= 1 && |rx| >= ReadLength(n + 1)
    ensures ReadEvents(start, n + 1, rx) == ReadEvents(start, n, rx) + [Transfer([ReadDataInc, 0x00], rx[2 + 2 * n..4 + 2 * n])]
  {
    var a, b := ReadEvents(start, n + 1, rx), ReadEvents(start, n, rx) + [Transfer([ReadDataInc, 0x00], rx[2 + 2 * n..4 + 2 * n])];
    assert |a| == |b|;
    forall k | 0 <= k < |a| ensures a[k] == b[k] {
    }
  }

  /** The runs of one register more: it joins the last run or opens a new one. */
  lemma RunsExtend(data: seq<(nat, nat)>, i: nat)
    requires 0 < i < |data|
    ensures var rest := Runs(data[..i]);
      Runs(data[..i + 1]) ==
        if Follows(data[i - 1].0, data[i].0) then rest[..|rest| - 1] + [rest[|rest| - 1] + [data[i]]] else rest + [[data[i]]]
  {
    assert data[..i + 1][..i] == data[..i];
  }

  /** The loop step of `__writeList` on the runs so far. */
  lemma RunsAfter(data: seq<(nat, nat)>, i: nat, done: seq<seq<(nat, nat)>>, run: seq<(nat, nat)>)
    requires 0 < i < |data| && Runs(data[..i]) == done + [run]
    ensures Follows(data[i - 1].0, data[i].0) ==> Runs(data[..i + 1]) == done + [run + [data[i]]]
    ensures !Follows(data[i - 1].0, data[i].0) ==> Runs(data[..i + 1]) == done + [run] + [[data[i]]]
  {
    RunsExtend(data, i);
    var rest := done + [run];
    assert rest[..|rest| - 1] == done;
  }

  /** Appending two pieces of trace one after the other appends both. */
  lemma TraceAppend(a: seq<BusEvent>, b: seq<BusEvent>, c: seq<BusEvent>)
    ensures a + b + c == a + (b + c)
  {
  }

  /** The bursts of one run more. */
  lemma BurstsAppend(runs: seq<seq<(nat, nat)>>, run: seq<(nat, nat)>)
    requires |run| > 0
    ensures BurstsEvents(runs + [run]) == BurstsEvents(runs) + BurstEvents(run)
  {
    assert (runs + [run])[..|runs|] == runs;
  }

  /** One iteration of `__writeList`'s loop: the register joins the run or starts a new one. */
  lemma WriteListStep(data: seq<(nat, nat)>, i: nat, done: seq<seq<(nat, nat)>>, run: seq<(nat, nat)>, last: int)
    requires Writable(data) && i < |data|
    requires i == 0 ==> run == [] && done == [] && last == data[0].0 - 1
    requires i > 0 ==> |run| > 0 && last == data[i - 1].0 && Runs(data[..i]) == done + [run]
    ensures Follows(last, data[i].0) ==> Runs(data[..i + 1]) == done + [run + [data[i]]]
    ensures !Follows(last, data[i].0) ==> i > 0 && Runs(data[..i + 1]) == done + [run] + [[data[i]]]
  {
    if i == 0 {
      FirstFollows(data[0].0);
      assert data[..1] == [data[0]];
      assert Runs(data[..1]) == [[data[0]]];
      assert run + [data[0]] == [data[0]];
    } else {
      RunsAfter(data, i, done, run);
    }
  }

  /** The first address of a list `__writeList` accepts follows the one its loop starts from. */
  lemma FirstFollows(a: nat)
    requires a % 256 != 0
    ensures Follows(a - 1, a)
  {
  }
}
