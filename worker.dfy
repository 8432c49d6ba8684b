/**
 * The worker of Worker.py: one background thread that runs the device operations one at a
 * time, and a queue of operations waiting for it. The thread is a `busy` flag; what the
 * operations do to the display, the GPIO pins and the SPI bus is a log of steps.
 */
module Worker {

  import opened Bits
  import opened Config
  import opened Wrappers
  import opened Text
  import opened Registers
  import opened RegisterMap
  import opened Transfer
  import opened Messages

  /** `__threadingWrapper` keeps at most this many operations waiting. */
  const QueueLimit: nat := 10

  /** The operations handed to `__threadingWrapper`: the worker's private methods. */
  datatype Operation =
    | Start                                               // __start
    | UpdateStatus                                        // __updateStatus
    | ClearFlags                                          // __clearFlags
    | WriteConfig(conf: Configuration, registers: seq<Slot>) // __writeConfig(conf): conf.regMap's registers
    | PowerDown                                           // __powerDown

  /** What an operation does, one effect at a time. */
  datatype Step =
    | Progress(message: string)           // progressUpdate.emit(message)
    | LockUpdate                          // lockUpdate.emit of the lock text of the status read
    | ResetDevice                         // gpio.resetDevice()
    | SetLed(led: nat, on: bool)          // gpio.setLed(led, on)
    | SetOutput(on: bool)                 // gpio.setOutput(on)
    | SetVoltage(vddo: SignalVoltage)     // gpio.setVoltage(vddo)
    | IllumChannel(conf: Configuration)   // gpio.illumChannel(conf)
    | ReadStatus                          // spi.readStatus()
    | SpiWrite(data: seq<(nat, nat)>)     // spi.writeRegister(data)

  /** LEDs 0 to 5 switched off, in that order. */
  const AllLedsOff: seq<Step> :=
    [SetLed(0, false), SetLed(1, false), SetLed(2, false), SetLed(3, false), SetLed(4, false), SetLed(5, false)]

  /** LEDs 0 to n - 1 switched off, in that order. */
  function LedsOff(n: nat): (r: seq<Step>)
    ensures |r| == n && forall i :: 0 <= i < n ==> r[i] == SetLed(i, false)
  {
    if n == 0 then [] else LedsOff(n - 1) + [SetLed(n - 1, false)]
  }

  /** `__writeConfig`: outputs off, the voltage set, the registers written, outputs on, the
      channel LEDs lit, each announced on the progress display. */
  function ConfigSteps(conf: Configuration, data: seq<(nat, nat)>): seq<Step>
  {
    [Progress("disable output"), SetOutput(false), Progress("set voltage"), SetVoltage(conf.vddo),
     Progress("write register"), SpiWrite(data), Progress("enable output"), SetOutput(true),
     IllumChannel(conf), Progress("finished")]
  }

  /** The steps of one operation, before it drains the queue. */
  ghost function OpSteps(op: Operation): seq<Step>
  {
    match op
    case Start =>
      [Progress("reset device"), ResetDevice, Progress("enable led"), SetLed(6, true), Progress("ready")]
    case UpdateStatus => [ReadStatus, LockUpdate, SpiWrite(ClearFlagsData)]
    case ClearFlags => [SpiWrite(ClearFlagsData)]
    case WriteConfig(conf, regs) => ConfigSteps(conf, TransferData(Expand(Kept(regs))))
    case PowerDown => [Progress("power down"), SpiWrite(PowerDownData)] + AllLedsOff
  }

  /** The steps of ops run one after the other, first to last. */
  ghost function StepsOf(ops: seq<Operation>): seq<Step>
  {
    if |ops| == 0 then [] else OpSteps(ops[0]) + StepsOf(ops[1..])
  }

  /** Running two queues one after the other is running their concatenation. */
  lemma {:induction false} StepsOfAppend(a: seq<Operation>, b: seq<Operation>)
    ensures StepsOf(a + b) == StepsOf(a) + StepsOf(b)
    decreases |a|
  {
    if |a| == 0 {
      assert a + b == b;
    } else {
      assert (a + b)[0] == a[0] && (a + b)[1..] == a[1..] + b;
      StepsOfAppend(a[1..], b);
      LogAppend(OpSteps(a[0]), StepsOf(a[1..]), StepsOf(b));
    }
  }

  /** `(a + b) + c == a + (b + c)` on step logs. */
  lemma LogAppend(a: seq<Step>, b: seq<Step>, c: seq<Step>)
    ensures a + b + c == a + (b + c)
  {
  }

  /** An operation the worker can run: a configuration's registers can be encoded and give a
      first pair to send, as those of every map built from the register table do. */
  ghost predicate Ready(op: Operation)
  {
    op.WriteConfig? ==> exists r :: r in op.registers && Writable(r) && |r.addresses| == 1
  }

  ghost predicate AllReady(ops: seq<Operation>)
  {
    forall i :: 0 <= i < |ops| ==> Ready(ops[i])
  }

  lemma AllReadyAppend(ops: seq<Operation>, op: Operation)
    requires AllReady(ops) && Ready(op)
    ensures AllReady(ops + [op])
  {
    assert forall i :: 0 <= i < |ops| ==> (ops + [op])[i] == ops[i];
  }

  lemma AllReadyTail(ops: seq<Operation>)
    requires AllReady(ops) && |ops| > 0
    ensures Ready(ops[0]) && AllReady(ops[1..])
  {
    assert forall i :: 0 <= i < |ops| - 1 ==> ops[1..][i] == ops[i + 1];
  }

  /** The registers of a map built from the register table can always be sent. */
  lemma MapReady(conf: Configuration, m: RegisterMap)
    requires m.Sendable()
    ensures Ready(WriteConfig(conf, m.OrderedRegList()))
  {
    m.FullMapNonEmpty();
  }


  /** The outcome of a submission: whether it started, and the queue after it. */
  datatype Admission = Admission(started: bool, queue: seq<Operation>)

  /**
   * `__threadingWrapper`: an idle worker starts op and leaves the queue alone; a busy one
   * appends op while fewer than ten wait, and otherwise drops it.
   */
  function Admit(busy: bool, queue: seq<Operation>, op: Operation): (r: Admission)
    ensures r.started <==> !busy
  {
    if !busy then Admission(true, queue)
    else if |queue| < QueueLimit then Admission(false, queue + [op])
    else Admission(false, queue)
  }

  /** A submission never pushes the queue past ten, and never reorders or removes a waiting
      operation: the old queue is a prefix of the new one. */
  lemma AdmitKeepsQueue(busy: bool, queue: seq<Operation>, op: Operation)
    requires |queue| <= QueueLimit
    ensures |Admit(busy, queue, op).queue| <= QueueLimit
    ensures queue <= Admit(busy, queue, op).queue
    ensures |Admit(busy, queue, op).queue| <= |queue| + 1
  {
  }

  /** Submitted operations run in the order they were queued: a queued op is the last to
      run, and a dropped one (busy, queue full) never runs. */
  lemma AdmitOrder(busy: bool, queue: seq<Operation>, op: Operation)
    requires busy
    ensures StepsOf(Admit(busy, queue, op).queue)
      == if |queue| < QueueLimit then StepsOf(queue) + OpSteps(op) else StepsOf(queue)
  {
    if |queue| < QueueLimit {
      StepsOfAppend(queue, [op]);
      assert StepsOf([op]) == OpSteps(op) + StepsOf([]);
    }
  }

  /** The steps of `__writeConfig` send the transfer list of its registers. */
  lemma WriteConfigSteps(conf: Configuration, regs: seq<Slot>)
    ensures OpSteps(WriteConfig(conf, regs)) == ConfigSteps(conf, TransferData(Expand(Kept(regs))))
  {
  }

  /** While `__writeConfig` writes the registers, the outputs are off: they are switched off
      before the write and on only after it, and the write sends the transfer list of the
      configuration's registers. */
  lemma OutputsOffDuringWrite(conf: Configuration, regs: seq<Slot>)
    ensures var s := OpSteps(WriteConfig(conf, regs));
      |s| == 10 && s[1] == SetOutput(false) && s[5] == SpiWrite(TransferData(Expand(Kept(regs))))
      && s[7] == SetOutput(true) && forall i :: 1 < i < 7 ==> !s[i].SetOutput?
  {
    WriteConfigSteps(conf, regs);
    ConfigOutputsOff(conf, TransferData(Expand(Kept(regs))));
  }

  lemma ConfigOutputsOff(conf: Configuration, data: seq<(nat, nat)>)
    ensures var s := ConfigSteps(conf, data);
      |s| == 10 && s[1] == SetOutput(false) && s[5] == SpiWrite(data)
      && s[7] == SetOutput(true) && forall i :: 1 < i < 7 ==> !s[i].SetOutput?
  {
    var s := ConfigSteps(conf, data);
    assert !s[2].SetOutput? && !s[3].SetOutput? && !s[4].SetOutput?;
    assert !s[5].SetOutput? && !s[6].SetOutput?;
  }

  class Worker {
    /** `self.worker` is alive. */
    var busy: bool
    /** What that thread runs. */
    var current: Operation
    /** `self.queue`, front first. */
    var queue: seq<Operation>
    /** Everything the operations have done, in order. */
    var log: seq<Step>

    /** At most ten wait, and only while the thread runs. */
    ghost predicate Valid()
      reads this
    {
      |queue| <= QueueLimit && (!busy ==> queue == []) && Ready(current) && AllReady(queue)
    }

    /** `Worker(config)`: the thread starts with `__start`, and nothing waits. */
    constructor()
      ensures Valid() && busy && current == Start && queue == [] && log == []
    {
      busy, current, queue, log := true, Start, [], [];
    }

    /** `__threadingWrapper(op)`: starts op on an idle worker (true), else queues or drops it. */
    method Submit(op: Operation) returns (started: bool)
      requires Valid() && Ready(op)
      modifies this
      ensures Valid()
      ensures Admission(started, queue) == Admit(old(busy), old(queue), op)
      ensures busy && current == (if started then op else old(current)) && log == old(log)
    {
      if !busy {
        busy, current := true, op;
        return true;
      }
      if |queue| < QueueLimit {
        AllReadyAppend(queue, op);
        queue := queue + [op];
      }
      return false;
    }

    /** The thread runs its operation to the end, draining the queue, and is then idle. */
    method Finish()
      requires Valid() && busy
      modifies this
      ensures Valid() && !busy && queue == []
      ensures log == old(log) + OpSteps(old(current)) + StepsOf(old(queue))
    {
      Run(current);
      busy := false;
    }

    /** `__checkQueue`: runs the waiting operations front first until none is left. */
    method CheckQueue()
      requires AllReady(queue)
      modifies this
      ensures queue == [] && busy == old(busy) && current == old(current)
      ensures log == old(log) + StepsOf(old(queue))
      decreases |queue|, 0
    {
      while queue != []
        invariant AllReady(queue) && busy == old(busy) && current == old(current)
        invariant log + StepsOf(queue) == old(log) + StepsOf(old(queue))
        invariant |queue| <= |old(queue)|
        decreases |queue|
      {
        var next := queue[0];
        AllReadyTail(queue);
        ghost var before, rest := log, queue[1..];
        queue := queue[1..];
        Run(next);
        LogAppend(before, OpSteps(next), StepsOf(rest));
      }
    }

    /** One operation, then the queue drained: each operation ends with `__checkQueue`. */
    method Run(op: Operation)
      requires Ready(op) && AllReady(queue)
      modifies this
      ensures queue == [] && busy == old(busy) && current == old(current)
      ensures log == old(log) + OpSteps(op) + StepsOf(old(queue))
      decreases |queue|, 1
    {
      ghost var start := log;
      Perform(op);
      CheckQueue();
      LogAppend(start, OpSteps(op), StepsOf(old(queue)));
    }

    /** The body of one operation, up to its call of `__checkQueue`. */
    method Perform(op: Operation)
      requires Ready(op)
      modifies this
      ensures log == old(log) + OpSteps(op)
      ensures queue == old(queue) && busy == old(busy) && current == old(current)
    {
      match op {
        case Start =>
          log := log + [Progress("reset device"), ResetDevice, Progress("enable led"), SetLed(6, true), Progress("ready")];
        case UpdateStatus =>
          ghost var start := log;
          log := log + [ReadStatus, LockUpdate];
          SendClearFlags();
          LogAppend(start, [ReadStatus, LockUpdate], [SpiWrite(ClearFlagsData)]);
        case ClearFlags =>
          SendClearFlags();
        case WriteConfig(conf, regs) =>
          WriteConfiguration(conf, regs);
        case PowerDown =>
          SendPowerDown();
      }
    }

    /** `spi.writeRegister(map.buildTransferList(flags))` on a fresh map. */
    method SendClearFlags()
      modifies this
      ensures log == old(log) + [SpiWrite(ClearFlagsData)]
      ensures queue == old(queue) && busy == old(busy) && current == old(current)
    {
      var data := ClearFlagsList();
      log := log + [SpiWrite(data)];
    }

    /** The body of `__powerDown` before it drains the queue. */
    method SendPowerDown()
      modifies this
      ensures log == old(log) + OpSteps(PowerDown)
      ensures queue == old(queue) && busy == old(busy) && current == old(current)
    {
      var bytes := PowerDownList();
      log := log + [Progress("power down"), SpiWrite(bytes)];
      ghost var head := log;
      for led := 0 to 6
        invariant log == head + LedsOff(led)
        invariant queue == old(queue) && busy == old(busy) && current == old(current)
      {
        log := log + [SetLed(led, false)];
      }
      assert LedsOff(6) == AllLedsOff;
    }

    /** The body of `__writeConfig(conf)` before it drains the queue: `buildTransferList()` of
        conf's registers is sent between switching the outputs off and on. */
    method WriteConfiguration(conf: Configuration, regs: seq<Slot>)
      requires Ready(WriteConfig(conf, regs))
      modifies this
      ensures log == old(log) + OpSteps(WriteConfig(conf, regs))
      ensures queue == old(queue) && busy == old(busy) && current == old(current)
    {
      var r :| r in regs && Writable(r) && |r.addresses| == 1;
      SomethingToSend(regs, r);
      var register := SendList(regs);
      WriteConfigSteps(conf, regs);
      log := log + ConfigSteps(conf, register);
    }

    /** `writeConfig(conf)`: submits `__writeConfig` with the registers of conf's map. */
    method RequestWriteConfig(conf: Configuration, m: RegisterMap) returns (started: bool)
      requires Valid() && m.Sendable()
      modifies this
      ensures Valid()
      ensures Admission(started, queue) == Admit(old(busy), old(queue), WriteConfig(conf, m.OrderedRegList()))
    {
      MapReady(conf, m);
      started := Submit(WriteConfig(conf, m.OrderedRegList()));
    }
  }
}
