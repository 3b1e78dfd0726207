/** The NSPR uprobe program: entry probes on PR_Write/PR_Read record the
    call's buffer pointer per thread, and return probes pair it with the
    byte count and publish one data event. Unlike the OpenSSL program it
    records no descriptor, and its pid filter exists only when the program
    is built without KERNEL_LESS_5_2.

    The step functions say what one firing does to the program's state;
    class `NsprProgram` performs the same firings in place and is proved to
    agree with them. */
module NsprKern {
  import opened ProbeCommon

  /** The constants the program is built with. */
  datatype Config = Config(
    targetPid: u32,       // target_pid: 0 traces every process
    maxDataSize: int,     // MAX_DATA_SIZE_OPENSSL
    taskCommLen: nat,     // TASK_COMM_LEN
    kernelLess52: bool)   // whether KERNEL_LESS_5_2 is defined
  {
    /** The clamp relies on a power-of-two capacity that an s32 can hold. */
    predicate Valid()
    {
      IsPowerOfTwo(maxDataSize) && maxDataSize < TWO_31
    }
  }

  /** The pid filter as compiled: absent under KERNEL_LESS_5_2. */
  predicate Filtered(cfg: Config, id: u64)
  {
    !cfg.kernelLess52 && PidFiltered(cfg.targetPid, id)
  }

  /** `struct ssl_data_event_t` of this program: no descriptor field. */
  datatype SslDataEvent = SslDataEvent(
    eventType: SslDataEventType,
    timestampNs: u64,
    pid: u32,
    tid: u32,
    data: seq<byte>,
    dataLen: s32,
    comm: seq<byte>)

  /** The two registries (thread id to buffer pointer), the scratch record
      (None when the per-CPU lookup fails) and what `nspr_events` has
      received. */
  datatype ProgramState = ProgramState(
    readArgs: map<u64, Addr>,
    writeArgs: map<u64, Addr>,
    heap: Option<SslDataEvent>,
    nsprEvents: seq<SslDataEvent>)
  {
    /** The registry of the given direction. */
    function Args(t: SslDataEventType): map<u64, Addr>
    {
      if t.SslRead? then readArgs else writeArgs
    }

    function WithArgs(t: SslDataEventType, m: map<u64, Addr>): ProgramState
    {
      if t.SslRead? then this.(readArgs := m) else this.(writeArgs := m)
    }

    /** The scratch record has the fixed payload capacity. */
    predicate WellFormed(cfg: Config)
    {
      heap.Some? ==> |heap.value.data| == cfg.maxDataSize
    }
  }

  /** The record a zero-initialised per-CPU array slot holds. */
  function ZeroEvent(cfg: Config): SslDataEvent
    requires cfg.Valid()
  {
    SslDataEvent(SslRead, 0, 0, 0, Zeros(cfg.maxDataSize), 0, Zeros(cfg.taskCommLen))
  }

  /** The state right after loading: empty registries, nothing published. */
  function Initial(cfg: Config, slotAvailable: bool): (s: ProgramState)
    requires cfg.Valid()
    ensures s.WellFormed(cfg)
  {
    ProgramState(map[], map[], if slotAvailable then Some(ZeroEvent(cfg)) else None, [])
  }

  // ---------------------------------------------------------------------
  // One firing, as a function of the state before it
  // ---------------------------------------------------------------------

  /** create_ssl_data_event on the scratch record: identity and clock are
      refreshed, everything else is left as the previous user of the slot
      left it. */
  function CreateEventStep(heap: Option<SslDataEvent>, id: u64, now: u64): (r: Option<SslDataEvent>)
    ensures r.None? <==> heap.None?
    ensures r.Some? ==>
      && r.value.pid == PidOf(id) && r.value.tid == TidOf(id) && r.value.timestampNs == now
      && r.value.eventType == heap.value.eventType && r.value.data == heap.value.data
      && r.value.dataLen == heap.value.dataLen && r.value.comm == heap.value.comm
  {
    match heap
    case None => None
    case Some(e) => Some(e.(timestampNs := now, pid := PidOf(id), tid := TidOf(id)))
  }

  /** What a data event published for call result `f.rc` must hold: the
      direction, clock and identity; `min(len, MAX)` as its length; the
      bytes at `buf` up to that length; and beyond it whatever the scratch
      record `prev` held. */
  predicate Describes(e: SslDataEvent, prev: SslDataEvent, cfg: Config, f: Firing, id: u64,
                      t: SslDataEventType, buf: Addr, mem: Bytes)
  {
    var n := Min(RegToInt(f.rc), cfg.maxDataSize);
    && 0 <= n <= |e.data|
    && e.eventType == t && e.timestampNs == f.ktimeNs
    && e.pid == PidOf(id) && e.tid == TidOf(id)
    && e.dataLen == n && |e.data| == |prev.data|
    && e.data[..n] == ReadUser(mem, buf, n)
    && e.data[n..] == prev.data[n..]
    && e.comm == f.comm
  }

  /** Whether process_SSL_data gets as far as publishing. */
  predicate Publishes(s: ProgramState, f: Firing)
  {
    RegToInt(f.rc) >= 0 && s.heap.Some?
  }

  /** process_SSL_data: a failed call or a missing scratch slot changes
      nothing; otherwise the scratch record is filled and published. */
  function ProcessDataStep(cfg: Config, s: ProgramState, f: Firing, id: u64, t: SslDataEventType,
                           buf: Addr, mem: Bytes): (r: ProgramState)
    requires cfg.Valid() && s.WellFormed(cfg)
    ensures r.WellFormed(cfg)
    ensures r.readArgs == s.readArgs && r.writeArgs == s.writeArgs
    ensures !Publishes(s, f) ==> r == s
    ensures Publishes(s, f) ==>
      && r.heap.Some? && r.nsprEvents == s.nsprEvents + [r.heap.value]
      && Describes(r.heap.value, s.heap.value, cfg, f, id, t, buf, mem)
  {
    var len := RegToInt(f.rc);
    if len < 0 then s
    else match CreateEventStep(s.heap, id, f.ktimeNs)
      case None => s
      case Some(e) =>
        DataLenIsMin(len, cfg.maxDataSize);
        var n := DataLen(len, cfg.maxDataSize);
        var filled := e.(eventType := t, dataLen := n,
                         data := Overlay(e.data, ReadUser(mem, buf, n)), comm := f.comm);
        s.(heap := Some(filled), nsprEvents := s.nsprEvents + [filled])
  }

  /** The PR_Write / PR_Read entry probes: unless filtered, the caller's id
      gets the buffer pointer (the second argument) in this direction's
      registry, replacing any earlier value; nothing else changes. */
  function EntryStep(cfg: Config, s: ProgramState, t: SslDataEventType, f: Firing): (r: ProgramState)
    ensures Filtered(cfg, f.pidTgid) ==> r == s
    ensures !Filtered(cfg, f.pidTgid) ==> f.pidTgid in r.Args(t) && r.Args(t)[f.pidTgid] == f.parm2
    ensures forall k :: k != f.pidTgid ==>
      (k in r.Args(t) <==> k in s.Args(t)) && (k in r.Args(t) ==> r.Args(t)[k] == s.Args(t)[k])
    ensures r.Args(t.Other()) == s.Args(t.Other())
    ensures r.heap == s.heap && r.nsprEvents == s.nsprEvents
  {
    if Filtered(cfg, f.pidTgid) then s
    else s.WithArgs(t, s.Args(t)[f.pidTgid := f.parm2])
  }

  /** The return probes' condition for handing the call to process_SSL_data. */
  predicate Pending(cfg: Config, s: ProgramState, t: SslDataEventType, f: Firing)
  {
    !Filtered(cfg, f.pidTgid) && f.pidTgid in s.Args(t)
  }

  /** The PR_Write / PR_Read return probes: unless filtered, the stored
      pointer (if any) is handed to process_SSL_data, and the id's key is
      deleted from this direction's registry in every case. */
  function ReturnStep(cfg: Config, s: ProgramState, t: SslDataEventType, f: Firing, mem: Bytes): (r: ProgramState)
    requires cfg.Valid() && s.WellFormed(cfg)
    ensures r.WellFormed(cfg)
    ensures Filtered(cfg, f.pidTgid) ==> r == s
    ensures !Filtered(cfg, f.pidTgid) ==> f.pidTgid !in r.Args(t)
    ensures forall k :: k != f.pidTgid ==>
      (k in r.Args(t) <==> k in s.Args(t)) && (k in r.Args(t) ==> r.Args(t)[k] == s.Args(t)[k])
    ensures r.Args(t.Other()) == s.Args(t.Other())
    ensures !(Pending(cfg, s, t, f) && Publishes(s, f)) ==> r.heap == s.heap && r.nsprEvents == s.nsprEvents
    ensures Pending(cfg, s, t, f) && Publishes(s, f) ==>
      && r.heap.Some? && r.nsprEvents == s.nsprEvents + [r.heap.value]
      && Describes(r.heap.value, s.heap.value, cfg, f, f.pidTgid, t, s.Args(t)[f.pidTgid], mem)
  {
    if Filtered(cfg, f.pidTgid) then s
    else
      var processed :=
        if f.pidTgid in s.Args(t)
        then ProcessDataStep(cfg, s, f, f.pidTgid, t, s.Args(t)[f.pidTgid], mem)
        else s;
      processed.WithArgs(t, processed.Args(t) - {f.pidTgid})
  }

  // ---------------------------------------------------------------------
  // Entry and return together
  // ---------------------------------------------------------------------

  /** Built with KERNEL_LESS_5_2 the program traces every process: an entry
      always records its buffer, whatever `target_pid` says. */
  lemma WithoutFilterEveryEntryRecords(cfg: Config, s: ProgramState, t: SslDataEventType, f: Firing)
    requires cfg.kernelLess52
    ensures EntryStep(cfg, s, t, f).Args(t) == s.Args(t)[f.pidTgid := f.parm2]
  {
  }

  /** An entry followed by its return on the same thread publishes exactly
      one event holding `min(len, MAX)` bytes of the entry's buffer as they
      are when the call returns; the bytes past them are the stale tail of
      the scratch record. The registries end as they began, less the key. */
  lemma PairedCallPublishesOneEvent(cfg: Config, s: ProgramState, t: SslDataEventType,
                                    entry: Firing, ret: Firing, atReturn: Bytes)
    requires cfg.Valid() && s.WellFormed(cfg) && s.heap.Some?
    requires entry.pidTgid == ret.pidTgid && !Filtered(cfg, entry.pidTgid)
    requires RegToInt(ret.rc) >= 0
    ensures var r := ReturnStep(cfg, EntryStep(cfg, s, t, entry), t, ret, atReturn);
      && |r.nsprEvents| == |s.nsprEvents| + 1 && r.nsprEvents[..|s.nsprEvents|] == s.nsprEvents
      && var e := r.nsprEvents[|s.nsprEvents|];
      && e.eventType == t && e.pid == PidOf(ret.pidTgid) && e.tid == TidOf(ret.pidTgid)
      && e.dataLen == Min(RegToInt(ret.rc), cfg.maxDataSize)
      && e.data[..e.dataLen] == ReadUser(atReturn, entry.parm2, e.dataLen)
      && e.data[e.dataLen..] == s.heap.value.data[e.dataLen..]
      && r.Args(t) == s.Args(t) - {entry.pidTgid} && r.Args(t.Other()) == s.Args(t.Other())
  {
  }

  /** A return with no pending entry for its thread leaves the whole state
      as it was. */
  lemma UnpairedReturnChangesNothing(cfg: Config, s: ProgramState, t: SslDataEventType, f: Firing, mem: Bytes)
    requires cfg.Valid() && s.WellFormed(cfg) && f.pidTgid !in s.Args(t)
    ensures ReturnStep(cfg, s, t, f, mem) == s
  {
  }

  // ---------------------------------------------------------------------
  // Any sequence of firings
  // ---------------------------------------------------------------------

  /** One firing of one of the program's probes. */
  datatype Probe =
    | Entry(t: SslDataEventType, f: Firing)
    | Return(t: SslDataEventType, f: Firing, mem: Bytes)

  function Fire(cfg: Config, s: ProgramState, p: Probe): (r: ProgramState)
    requires cfg.Valid() && s.WellFormed(cfg)
    ensures r.WellFormed(cfg)
  {
    match p
    case Entry(t, f) => EntryStep(cfg, s, t, f)
    case Return(t, f, mem) => ReturnStep(cfg, s, t, f, mem)
  }

  /** The state after the firings `ps`, in order. */
  function Run(cfg: Config, s: ProgramState, ps: seq<Probe>): (r: ProgramState)
    requires cfg.Valid() && s.WellFormed(cfg)
    ensures r.WellFormed(cfg)
    decreases |ps|
  {
    if ps == [] then s else Run(cfg, Fire(cfg, s, ps[0]), ps[1..])
  }

  function CountReturns(ps: seq<Probe>): nat
  {
    if ps == [] then 0 else (if ps[0].Return? then 1 else 0) + CountReturns(ps[1..])
  }

  /** A published event has the record's full payload capacity and a length
      within it. */
  predicate EventBounded(cfg: Config, e: SslDataEvent)
  {
    |e.data| == cfg.maxDataSize && 0 <= e.dataLen <= cfg.maxDataSize
  }

  /** One firing appends at most one event, and only a return firing
      appends one; what it appends is bounded by the payload capacity. */
  lemma FireAppendsBoundedEvent(cfg: Config, s: ProgramState, p: Probe)
    requires cfg.Valid() && s.WellFormed(cfg)
    ensures var r := Fire(cfg, s, p);
      && |s.nsprEvents| <= |r.nsprEvents| <= |s.nsprEvents| + (if p.Return? then 1 else 0)
      && r.nsprEvents[..|s.nsprEvents|] == s.nsprEvents
      && forall i :: |s.nsprEvents| <= i < |r.nsprEvents| ==> EventBounded(cfg, r.nsprEvents[i])
  {
  }

  /** Over any sequence of firings, events are only ever appended, at most
      one per return firing, and each new one is bounded by the capacity. */
  lemma {:induction false} RunAppendsBoundedEvents(cfg: Config, s: ProgramState, ps: seq<Probe>)
    requires cfg.Valid() && s.WellFormed(cfg)
    ensures var r := Run(cfg, s, ps);
      && |s.nsprEvents| <= |r.nsprEvents| <= |s.nsprEvents| + CountReturns(ps)
      && r.nsprEvents[..|s.nsprEvents|] == s.nsprEvents
      && forall i :: |s.nsprEvents| <= i < |r.nsprEvents| ==> EventBounded(cfg, r.nsprEvents[i])
    decreases |ps|
  {
    if ps != [] {
      var s1 := Fire(cfg, s, ps[0]);
      FireAppendsBoundedEvent(cfg, s, ps[0]);
      RunAppendsBoundedEvents(cfg, s1, ps[1..]);
      var r := Run(cfg, s1, ps[1..]);
      assert r == Run(cfg, s, ps);
      assert r.nsprEvents[..|s.nsprEvents|] == r.nsprEvents[..|s1.nsprEvents|][..|s.nsprEvents|];
    }
  }

  // ---------------------------------------------------------------------
  // The program's state, updated in place
  // ---------------------------------------------------------------------

  /** The value of `data_buffer_heap` on this CPU: one ssl_data_event_t that
      every firing reuses and fills field by field. */
  class SslDataEventSlot {
    var eventType: SslDataEventType
    var timestampNs: u64
    var pid: u32
    var tid: u32
    const data: array<byte>
    var dataLen: s32
    var comm: seq<byte>

    /** A slot as the kernel hands it out at load time: all zeros. */
    constructor (cfg: Config)
      requires cfg.Valid()
      ensures fresh(data) && Snapshot() == ZeroEvent(cfg)
    {
      eventType, timestampNs, pid, tid := SslRead, 0, 0, 0;
      data := new byte[cfg.maxDataSize](i => 0);
      dataLen, comm := 0, Zeros(cfg.taskCommLen);
      new;
      assert data[..] == Zeros(cfg.maxDataSize);
    }

    /** The record as bpf_perf_event_output copies it out. */
    function Snapshot(): SslDataEvent
      reads this, data
    {
      SslDataEvent(eventType, timestampNs, pid, tid, data[..], dataLen, comm)
    }
  }

  /** The loaded program: its two registries, the scratch slot of the CPU it
      runs on, and what `nspr_events` has received so far. */
  class NsprProgram {
    const cfg: Config
    /** The per-CPU scratch slot; null when the lookup of key 0 fails. */
    const heap: SslDataEventSlot?
    /** The objects behind `heap`. */
    ghost const Scratch: set<object>
    var readArgs: map<u64, Addr>    // active_ssl_read_args_map
    var writeArgs: map<u64, Addr>   // active_ssl_write_args_map
    var nsprEvents: seq<SslDataEvent>

    ghost predicate Valid()
      reads this, Scratch
    {
      && cfg.Valid()
      && (heap == null ==> Scratch == {})
      && (heap != null ==>
            heap in Scratch && heap.data in Scratch && Scratch == {heap, heap.data}
            && heap.data.Length == cfg.maxDataSize)
    }

    /** The program's state as a value. */
    function State(): (s: ProgramState)
      reads this, Scratch
      requires Valid()
      ensures s.WellFormed(cfg)
    {
      ProgramState(readArgs, writeArgs, if heap == null then None else Some(heap.Snapshot()), nsprEvents)
    }

    constructor (cfg: Config, slotAvailable: bool)
      requires cfg.Valid()
      ensures Valid() && fresh(Scratch) && this.cfg == cfg
      ensures State() == Initial(cfg, slotAvailable)
    {
      var slot: SslDataEventSlot? := null;
      if slotAvailable {
        slot := new SslDataEventSlot(cfg);
      }
      this.cfg := cfg;
      heap := slot;
      Scratch := if slot == null then {} else {slot, slot.data};
      readArgs, writeArgs, nsprEvents := map[], map[], [];
    }

    /** create_ssl_data_event. */
    method CreateSslDataEvent(id: u64, now: u64) returns (event: SslDataEventSlot?)
      requires Valid()
      modifies Scratch
      ensures event == heap
      ensures State() == old(State()).(heap := CreateEventStep(old(State()).heap, id, now))
    {
      event := heap;
      if event == null {
        return;
      }
      event.timestampNs := now;
      event.pid := PidOf(id);
      event.tid := TidOf(id);
    }

    /** process_SSL_data. */
    method ProcessSslData(f: Firing, id: u64, t: SslDataEventType, buf: Addr, mem: Bytes)
      requires Valid()
      modifies this, Scratch
      ensures State() == ProcessDataStep(cfg, old(State()), f, id, t, buf, mem)
    {
      var len := RegToInt(f.rc);
      if len < 0 {
        return;
      }
      var event := CreateSslDataEvent(id, f.ktimeNs);
      if event == null {
        return;
      }
      event.eventType := t;
      event.dataLen := DataLen(len, cfg.maxDataSize);
      ProbeRead(event.data, event.dataLen, mem, buf);
      event.comm := f.comm;
      nsprEvents := nsprEvents + [event.Snapshot()];
    }

    /** The uprobe on PR_Write. */
    method ProbeEntrySslWrite(f: Firing)
      requires Valid()
      modifies this
      ensures State() == EntryStep(cfg, old(State()), SslWrite, f)
    {
      var currentPidTgid := f.pidTgid;
      var pid := PidOf(currentPidTgid);
      if !cfg.kernelLess52 {
        if cfg.targetPid != 0 && cfg.targetPid != pid {
          return;
        }
      }
      var buf := f.parm2;
      writeArgs := writeArgs[currentPidTgid := buf];
    }

    /** The uretprobe on PR_Write. */
    method ProbeRetSslWrite(f: Firing, mem: Bytes)
      requires Valid()
      modifies this, Scratch
      ensures State() == ReturnStep(cfg, old(State()), SslWrite, f, mem)
    {
      var currentPidTgid := f.pidTgid;
      var pid := PidOf(currentPidTgid);
      if !cfg.kernelLess52 {
        if cfg.targetPid != 0 && cfg.targetPid != pid {
          return;
        }
      }
      if currentPidTgid in writeArgs {
        ProcessSslData(f, currentPidTgid, SslWrite, writeArgs[currentPidTgid], mem);
      }
      writeArgs := writeArgs - {currentPidTgid};
    }

    /** The uprobe on PR_Read. */
    method ProbeEntrySslRead(f: Firing)
      requires Valid()
      modifies this
      ensures State() == EntryStep(cfg, old(State()), SslRead, f)
    {
      var currentPidTgid := f.pidTgid;
      var pid := PidOf(currentPidTgid);
      if !cfg.kernelLess52 {
        if cfg.targetPid != 0 && cfg.targetPid != pid {
          return;
        }
      }
      var buf := f.parm2;
      readArgs := readArgs[currentPidTgid := buf];
    }

    /** The uretprobe on PR_Read. */
    method ProbeRetSslRead(f: Firing, mem: Bytes)
      requires Valid()
      modifies this, Scratch
      ensures State() == ReturnStep(cfg, old(State()), SslRead, f, mem)
    {
      var currentPidTgid := f.pidTgid;
      var pid := PidOf(currentPidTgid);
      if !cfg.kernelLess52 {
        if cfg.targetPid != 0 && cfg.targetPid != pid {
          return;
        }
      }
      if currentPidTgid in readArgs {
        ProcessSslData(f, currentPidTgid, SslRead, readArgs[currentPidTgid], mem);
      }
      readArgs := readArgs - {currentPidTgid};
    }
  }
}
