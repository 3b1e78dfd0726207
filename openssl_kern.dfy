/** The OpenSSL uprobe program: entry probes on SSL_write/SSL_read record the
    call's buffer and descriptor per thread, return probes pair that record
    with the byte count and publish one data event, and a connect() probe
    publishes the destination of IPv4 connections.

    The step functions below say what one firing does to the program's
    state; class `OpenSslProgram` performs the same firings in place and is
    proved to agree with them. */
module OpenSslKern {
  import opened ProbeCommon

  /** `invalidFD`: the descriptor a fresh event carries until one is known. */
  const INVALID_FD: u32 := 0

  /** Offset of `sa_data` in `struct sockaddr`, after the 16-bit family. */
  const SA_DATA_OFFSET: int := 2

  /** The constants the program is built with. */
  datatype Config = Config(
    targetPid: u32,     // target_pid: 0 traces every process
    maxDataSize: int,   // MAX_DATA_SIZE_OPENSSL
    taskCommLen: nat,   // TASK_COMM_LEN
    saDataLen: nat,     // SA_DATA_LEN
    afInet: u16)        // AF_INET
  {
    /** The clamp relies on a power-of-two capacity that an s32 can hold. */
    predicate Valid()
    {
      IsPowerOfTwo(maxDataSize) && maxDataSize < TWO_31
    }
  }

  /** `struct ssl_st` as far as the probes read it. */
  datatype SslSt = SslSt(rbio: Addr, wbio: Addr)

  /** `struct BIO` as far as the probes read it. */
  datatype Bio = Bio(num: s32)

  /** The traced process's memory: raw bytes, and the records that
      bpf_probe_read_user yields at an address. */
  datatype UserMemory = UserMemory(
    bytes: Bytes,
    sslAt: Addr -> SslSt,
    bioAt: Addr -> Bio,
    familyAt: Addr -> u16)

  /** `struct active_ssl_buf`: what an entry probe leaves for its return probe. */
  datatype ActiveSslBuf = ActiveSslBuf(fd: u32, buf: Addr)

  /** `struct ssl_data_event_t`. */
  datatype SslDataEvent = SslDataEvent(
    eventType: SslDataEventType,
    timestampNs: u64,
    pid: u32,
    tid: u32,
    data: seq<byte>,
    dataLen: s32,
    comm: seq<byte>,
    fd: u32)

  /** `struct connect_event_t`. */
  datatype ConnectEvent = ConnectEvent(
    timestampNs: u64,
    pid: u32,
    tid: u32,
    fd: u32,
    saData: seq<byte>,
    comm: seq<byte>)

  /** Everything the program keeps or emits: the two pending-call registries,
      the scratch record (None when the per-CPU lookup fails) and what the
      two perf arrays have received. */
  datatype ProgramState = ProgramState(
    readArgs: map<u64, ActiveSslBuf>,
    writeArgs: map<u64, ActiveSslBuf>,
    heap: Option<SslDataEvent>,
    tlsEvents: seq<SslDataEvent>,
    connectEvents: seq<ConnectEvent>)
  {
    /** The registry of the given direction. */
    function Args(t: SslDataEventType): map<u64, ActiveSslBuf>
    {
      if t.SslRead? then readArgs else writeArgs
    }

    function WithArgs(t: SslDataEventType, m: map<u64, ActiveSslBuf>): ProgramState
    {
      if t.SslRead? then this.(readArgs := m) else this.(writeArgs := m)
    }

    /** The scratch record has the fixed payload capacity. */
    predicate WellFormed(cfg: Config)
    {
      heap.Some? ==> |heap.value.data| == cfg.maxDataSize
    }
  }

  /** The record a zero-initialised per-CPU array slot holds. */
  function ZeroEvent(cfg: Config): SslDataEvent
    requires cfg.Valid()
  {
    SslDataEvent(SslRead, 0, 0, 0, Zeros(cfg.maxDataSize), 0, Zeros(cfg.taskCommLen), 0)
  }

  /** The state right after loading: empty registries, nothing published. */
  function Initial(cfg: Config, slotAvailable: bool): (s: ProgramState)
    requires cfg.Valid()
    ensures s.WellFormed(cfg)
  {
    ProgramState(map[], map[], if slotAvailable then Some(ZeroEvent(cfg)) else None, [], [])
  }

  /** The descriptor an entry probe reads: `ssl->wbio->num` for SSL_write,
      `ssl->rbio->num` for SSL_read, converted to u32. */
  function EntryFd(t: SslDataEventType, ssl: Addr, mem: UserMemory): u32
  {
    var sslInfo := mem.sslAt(ssl);
    Low32(mem.bioAt(if t.SslWrite? then sslInfo.wbio else sslInfo.rbio).num)
  }

  // ---------------------------------------------------------------------
  // One firing, as a function of the state before it
  // ---------------------------------------------------------------------

  /** create_ssl_data_event on the scratch record: identity and clock are
      refreshed, the descriptor is reset, everything else is left as the
      previous user of the slot left it. */
  function CreateEventStep(heap: Option<SslDataEvent>, id: u64, now: u64): (r: Option<SslDataEvent>)
    ensures r.None? <==> heap.None?
    ensures r.Some? ==>
      && r.value.pid == PidOf(id) && r.value.tid == TidOf(id)
      && r.value.timestampNs == now && r.value.fd == INVALID_FD
      && r.value.eventType == heap.value.eventType && r.value.data == heap.value.data
      && r.value.dataLen == heap.value.dataLen && r.value.comm == heap.value.comm
  {
    match heap
    case None => None
    case Some(e) => Some(e.(timestampNs := now, pid := PidOf(id), tid := TidOf(id), fd := INVALID_FD))
  }

  /** What a data event published for call result `f.rc` must hold: the
      direction, clock, identity and descriptor; `min(len, MAX)` as its
      length; the bytes at `buf` up to that length; and beyond it whatever
      the scratch record `prev` held. */
  predicate Describes(e: SslDataEvent, prev: SslDataEvent, cfg: Config, f: Firing, id: u64,
                      t: SslDataEventType, buf: Addr, fd: u32, mem: UserMemory)
  {
    var n := Min(RegToInt(f.rc), cfg.maxDataSize);
    && 0 <= n <= |e.data|
    && e.eventType == t && e.timestampNs == f.ktimeNs
    && e.pid == PidOf(id) && e.tid == TidOf(id) && e.fd == fd
    && e.dataLen == n && |e.data| == |prev.data|
    && e.data[..n] == ReadUser(mem.bytes, buf, n)
    && e.data[n..] == prev.data[n..]
    && e.comm == f.comm
  }

  /** Whether process_SSL_data gets as far as publishing. */
  predicate Publishes(s: ProgramState, f: Firing)
  {
    RegToInt(f.rc) >= 0 && s.heap.Some?
  }

  /** process_SSL_data: a failed call or a missing scratch slot changes
      nothing; otherwise the scratch record is filled and published. */
  function ProcessDataStep(cfg: Config, s: ProgramState, f: Firing, id: u64, t: SslDataEventType,
                           buf: Addr, fd: u32, mem: UserMemory): (r: ProgramState)
    requires cfg.Valid() && s.WellFormed(cfg)
    ensures r.WellFormed(cfg)
    ensures r.readArgs == s.readArgs && r.writeArgs == s.writeArgs && r.connectEvents == s.connectEvents
    ensures !Publishes(s, f) ==> r == s
    ensures Publishes(s, f) ==>
      && r.heap.Some? && r.tlsEvents == s.tlsEvents + [r.heap.value]
      && Describes(r.heap.value, s.heap.value, cfg, f, id, t, buf, fd, mem)
  {
    var len := RegToInt(f.rc);
    if len < 0 then s
    else match CreateEventStep(s.heap, id, f.ktimeNs)
      case None => s
      case Some(e) =>
        DataLenIsMin(len, cfg.maxDataSize);
        var n := DataLen(len, cfg.maxDataSize);
        var filled := e.(eventType := t, fd := fd, dataLen := n,
                         data := Overlay(e.data, ReadUser(mem.bytes, buf, n)), comm := f.comm);
        s.(heap := Some(filled), tlsEvents := s.tlsEvents + [filled])
  }

  /** probe_entry_SSL_write / probe_entry_SSL_read: unless filtered, the
      caller's id gets `{fd, buf}` in this direction's registry, replacing
      any earlier value; no other key and nothing else changes. */
  function EntryStep(cfg: Config, s: ProgramState, t: SslDataEventType, f: Firing, mem: UserMemory): (r: ProgramState)
    ensures PidFiltered(cfg.targetPid, f.pidTgid) ==> r == s
    ensures !PidFiltered(cfg.targetPid, f.pidTgid) ==>
      f.pidTgid in r.Args(t) && r.Args(t)[f.pidTgid] == ActiveSslBuf(EntryFd(t, f.parm1, mem), f.parm2)
    ensures forall k :: k != f.pidTgid ==>
      (k in r.Args(t) <==> k in s.Args(t)) && (k in r.Args(t) ==> r.Args(t)[k] == s.Args(t)[k])
    ensures r.Args(t.Other()) == s.Args(t.Other())
    ensures r.heap == s.heap && r.tlsEvents == s.tlsEvents && r.connectEvents == s.connectEvents
  {
    if PidFiltered(cfg.targetPid, f.pidTgid) then s
    else s.WithArgs(t, s.Args(t)[f.pidTgid := ActiveSslBuf(EntryFd(t, f.parm1, mem), f.parm2)])
  }

  /** The return probes' condition for handing the call to process_SSL_data. */
  predicate Pending(cfg: Config, s: ProgramState, t: SslDataEventType, f: Firing)
  {
    !PidFiltered(cfg.targetPid, f.pidTgid) && f.pidTgid in s.Args(t)
  }

  /** probe_ret_SSL_write / probe_ret_SSL_read: unless filtered, the pending
      call of the caller's id (if any) is processed, and the id's key is
      deleted from this direction's registry in every case. At most one
      event is published, and only when a pending call returned `>= 0`. */
  function ReturnStep(cfg: Config, s: ProgramState, t: SslDataEventType, f: Firing, mem: UserMemory): (r: ProgramState)
    requires cfg.Valid() && s.WellFormed(cfg)
    ensures r.WellFormed(cfg)
    ensures PidFiltered(cfg.targetPid, f.pidTgid) ==> r == s
    ensures !PidFiltered(cfg.targetPid, f.pidTgid) ==> f.pidTgid !in r.Args(t)
    ensures forall k :: k != f.pidTgid ==>
      (k in r.Args(t) <==> k in s.Args(t)) && (k in r.Args(t) ==> r.Args(t)[k] == s.Args(t)[k])
    ensures r.Args(t.Other()) == s.Args(t.Other()) && r.connectEvents == s.connectEvents
    ensures !(Pending(cfg, s, t, f) && Publishes(s, f)) ==> r.heap == s.heap && r.tlsEvents == s.tlsEvents
    ensures Pending(cfg, s, t, f) && Publishes(s, f) ==>
      && r.heap.Some? && r.tlsEvents == s.tlsEvents + [r.heap.value]
      && Describes(r.heap.value, s.heap.value, cfg, f, f.pidTgid, t,
                   s.Args(t)[f.pidTgid].buf, s.Args(t)[f.pidTgid].fd, mem)
  {
    if PidFiltered(cfg.targetPid, f.pidTgid) then s
    else
      var processed :=
        if f.pidTgid in s.Args(t)
        then ProcessDataStep(cfg, s, f, f.pidTgid, t, s.Args(t)[f.pidTgid].buf, s.Args(t)[f.pidTgid].fd, mem)
        else s;
      processed.WithArgs(t, processed.Args(t) - {f.pidTgid})
  }

  /** Whether probe_connect publishes: not filtered, a non-null address and
      the IPv4 family. */
  predicate Captures(cfg: Config, f: Firing, mem: UserMemory)
  {
    !PidFiltered(cfg.targetPid, f.pidTgid) && f.parm2 != 0 && mem.familyAt(f.parm2) == cfg.afInet
  }

  /** probe_connect: a single-shot capture of `connect(fd, addr, len)`. */
  function ConnectStep(cfg: Config, s: ProgramState, f: Firing, mem: UserMemory): (r: ProgramState)
    ensures r.readArgs == s.readArgs && r.writeArgs == s.writeArgs
    ensures r.heap == s.heap && r.tlsEvents == s.tlsEvents
    ensures !Captures(cfg, f, mem) ==> r.connectEvents == s.connectEvents
    ensures Captures(cfg, f, mem) ==>
      && |r.connectEvents| == |s.connectEvents| + 1
      && r.connectEvents[..|s.connectEvents|] == s.connectEvents
      && var e := r.connectEvents[|s.connectEvents|];
      && e.timestampNs == f.ktimeNs && e.pid == PidOf(f.pidTgid) && e.tid == TidOf(f.pidTgid)
      && e.fd == Low32(f.parm1)
      && e.saData == ReadUser(mem.bytes, Offset(f.parm2, SA_DATA_OFFSET), cfg.saDataLen)
      && e.comm == f.comm
  {
    if !Captures(cfg, f, mem) then s
    else
      var zeroed := ConnectEvent(0, 0, 0, 0, Zeros(cfg.saDataLen), Zeros(cfg.taskCommLen));
      var conn := zeroed.(timestampNs := f.ktimeNs, pid := PidOf(f.pidTgid), tid := Low32(f.pidTgid), fd := Low32(f.parm1),
                          saData := ReadUser(mem.bytes, Offset(f.parm2, SA_DATA_OFFSET), cfg.saDataLen),
                          comm := f.comm);
      s.(connectEvents := s.connectEvents + [conn])
  }

  // ---------------------------------------------------------------------
  // Entry and return together
  // ---------------------------------------------------------------------

  /** An entry followed by its return on the same thread publishes exactly
      one event: it carries the descriptor read at entry, `min(len, MAX)`
      bytes of the entry's buffer as they are when the call returns, and the
      direction; the registries end as they began, less the thread's key. */
  lemma PairedCallPublishesOneEvent(cfg: Config, s: ProgramState, t: SslDataEventType,
                                    entry: Firing, ret: Firing, atEntry: UserMemory, atReturn: UserMemory)
    requires cfg.Valid() && s.WellFormed(cfg) && s.heap.Some?
    requires entry.pidTgid == ret.pidTgid && !PidFiltered(cfg.targetPid, entry.pidTgid)
    requires RegToInt(ret.rc) >= 0
    ensures var r := ReturnStep(cfg, EntryStep(cfg, s, t, entry, atEntry), t, ret, atReturn);
      && |r.tlsEvents| == |s.tlsEvents| + 1 && r.tlsEvents[..|s.tlsEvents|] == s.tlsEvents
      && var e := r.tlsEvents[|s.tlsEvents|];
      && e.eventType == t && e.fd == EntryFd(t, entry.parm1, atEntry)
      && e.pid == PidOf(ret.pidTgid) && e.tid == TidOf(ret.pidTgid)
      && e.dataLen == Min(RegToInt(ret.rc), cfg.maxDataSize)
      && e.data[..e.dataLen] == ReadUser(atReturn.bytes, entry.parm2, e.dataLen)
      && r.Args(t) == s.Args(t) - {entry.pidTgid} && r.Args(t.Other()) == s.Args(t.Other())
      && r.connectEvents == s.connectEvents
  {
  }

  /** A return with no pending entry for its thread (never armed, already
      consumed, or filtered) leaves the whole state as it was. */
  lemma UnpairedReturnChangesNothing(cfg: Config, s: ProgramState, t: SslDataEventType, f: Firing, mem: UserMemory)
    requires cfg.Valid() && s.WellFormed(cfg) && f.pidTgid !in s.Args(t)
    ensures ReturnStep(cfg, s, t, f, mem) == s
  {
  }

  /** A second entry on the same thread and direction before the return
      replaces the first: the event carries the later call's descriptor and
      buffer. */
  lemma LaterEntryReplacesEarlier(cfg: Config, s: ProgramState, t: SslDataEventType,
                                  first: Firing, second: Firing, ret: Firing,
                                  m1: UserMemory, m2: UserMemory, mr: UserMemory)
    requires cfg.Valid() && s.WellFormed(cfg) && s.heap.Some?
    requires first.pidTgid == second.pidTgid == ret.pidTgid && !PidFiltered(cfg.targetPid, ret.pidTgid)
    requires RegToInt(ret.rc) >= 0
    ensures var r := ReturnStep(cfg, EntryStep(cfg, EntryStep(cfg, s, t, first, m1), t, second, m2), t, ret, mr);
      && |r.tlsEvents| == |s.tlsEvents| + 1
      && var e := r.tlsEvents[|s.tlsEvents|];
      && e.fd == EntryFd(t, second.parm1, m2)
      && e.data[..e.dataLen] == ReadUser(mr.bytes, second.parm2, e.dataLen)
  {
  }

  /** Two threads whose calls interleave (entry A, entry B, return A,
      return B) each get an event built from their own entry: the registry
      is keyed by the full pid_tgid, so the calls never see each other's
      buffer or descriptor. Each firing sees memory as it is at that moment,
      so buffers filled during the calls are covered too. */
  lemma InterleavedThreadsDoNotMix(cfg: Config, s: ProgramState, t: SslDataEventType,
                                   entryA: Firing, entryB: Firing, retA: Firing, retB: Firing,
                                   atEntryA: UserMemory, atEntryB: UserMemory, atReturnA: UserMemory, atReturnB: UserMemory)
    requires cfg.Valid() && s.WellFormed(cfg) && s.heap.Some?
    requires entryA.pidTgid == retA.pidTgid && entryB.pidTgid == retB.pidTgid && entryA.pidTgid != entryB.pidTgid
    requires !PidFiltered(cfg.targetPid, entryA.pidTgid) && !PidFiltered(cfg.targetPid, entryB.pidTgid)
    requires RegToInt(retA.rc) >= 0 && RegToInt(retB.rc) >= 0
    ensures var s1 := EntryStep(cfg, EntryStep(cfg, s, t, entryA, atEntryA), t, entryB, atEntryB);
      var r := ReturnStep(cfg, ReturnStep(cfg, s1, t, retA, atReturnA), t, retB, atReturnB);
      && |r.tlsEvents| == |s.tlsEvents| + 2
      && var a := r.tlsEvents[|s.tlsEvents|];
      && var b := r.tlsEvents[|s.tlsEvents| + 1];
      && a.tid == TidOf(entryA.pidTgid) && a.fd == EntryFd(t, entryA.parm1, atEntryA)
      && a.data[..a.dataLen] == ReadUser(atReturnA.bytes, entryA.parm2, a.dataLen)
      && b.tid == TidOf(entryB.pidTgid) && b.fd == EntryFd(t, entryB.parm1, atEntryB)
      && b.data[..b.dataLen] == ReadUser(atReturnB.bytes, entryB.parm2, b.dataLen)
      && r.Args(t) == s.Args(t) - {entryA.pidTgid, entryB.pidTgid}
  {
  }

  // ---------------------------------------------------------------------
  // Any sequence of firings
  // ---------------------------------------------------------------------

  /** One firing of one of the program's probes. */
  datatype Probe =
    | Entry(t: SslDataEventType, f: Firing, mem: UserMemory)
    | Return(t: SslDataEventType, f: Firing, mem: UserMemory)
    | Connect(f: Firing, mem: UserMemory)

  function Fire(cfg: Config, s: ProgramState, p: Probe): (r: ProgramState)
    requires cfg.Valid() && s.WellFormed(cfg)
    ensures r.WellFormed(cfg)
  {
    match p
    case Entry(t, f, mem) => EntryStep(cfg, s, t, f, mem)
    case Return(t, f, mem) => ReturnStep(cfg, s, t, f, mem)
    case Connect(f, mem) => ConnectStep(cfg, s, f, mem)
  }

  /** The state after the firings `ps`, in order. */
  function Run(cfg: Config, s: ProgramState, ps: seq<Probe>): (r: ProgramState)
    requires cfg.Valid() && s.WellFormed(cfg)
    ensures r.WellFormed(cfg)
    decreases |ps|
  {
    if ps == [] then s else Run(cfg, Fire(cfg, s, ps[0]), ps[1..])
  }

  function CountReturns(ps: seq<Probe>): nat
  {
    if ps == [] then 0 else (if ps[0].Return? then 1 else 0) + CountReturns(ps[1..])
  }

  /** Every data event a firing publishes has the record's full payload
      capacity and a length within it. */
  predicate EventBounded(cfg: Config, e: SslDataEvent)
  {
    |e.data| == cfg.maxDataSize && 0 <= e.dataLen <= cfg.maxDataSize
  }

  /** One firing appends at most one data event, and only a return firing
      appends one; what it appends is bounded by the payload capacity. */
  lemma FireAppendsBoundedEvent(cfg: Config, s: ProgramState, p: Probe)
    requires cfg.Valid() && s.WellFormed(cfg)
    ensures var r := Fire(cfg, s, p);
      && |s.tlsEvents| <= |r.tlsEvents| <= |s.tlsEvents| + (if p.Return? then 1 else 0)
      && r.tlsEvents[..|s.tlsEvents|] == s.tlsEvents
      && forall i :: |s.tlsEvents| <= i < |r.tlsEvents| ==> EventBounded(cfg, r.tlsEvents[i])
  {
  }

  /** Over any sequence of firings, data events are only ever appended, at
      most one per return firing, and each new one is bounded by the
      payload capacity. */
  lemma {:induction false} RunAppendsBoundedEvents(cfg: Config, s: ProgramState, ps: seq<Probe>)
    requires cfg.Valid() && s.WellFormed(cfg)
    ensures var r := Run(cfg, s, ps);
      && |s.tlsEvents| <= |r.tlsEvents| <= |s.tlsEvents| + CountReturns(ps)
      && r.tlsEvents[..|s.tlsEvents|] == s.tlsEvents
      && forall i :: |s.tlsEvents| <= i < |r.tlsEvents| ==> EventBounded(cfg, r.tlsEvents[i])
    decreases |ps|
  {
    if ps != [] {
      var s1 := Fire(cfg, s, ps[0]);
      FireAppendsBoundedEvent(cfg, s, ps[0]);
      RunAppendsBoundedEvents(cfg, s1, ps[1..]);
      var r := Run(cfg, s1, ps[1..]);
      assert r == Run(cfg, s, ps);
      assert r.tlsEvents[..|s.tlsEvents|] == r.tlsEvents[..|s1.tlsEvents|][..|s.tlsEvents|];
    }
  }

  // ---------------------------------------------------------------------
  // The program's state, updated in place
  // ---------------------------------------------------------------------

  /** The value of `data_buffer_heap` on this CPU: one ssl_data_event_t that
      every firing reuses and fills field by field. */
  class SslDataEventSlot {
    var eventType: SslDataEventType
    var timestampNs: u64
    var pid: u32
    var tid: u32
    const data: array<byte>
    var dataLen: s32
    var comm: seq<byte>
    var fd: u32

    /** A slot as the kernel hands it out at load time: all zeros. */
    constructor (cfg: Config)
      requires cfg.Valid()
      ensures fresh(data) && Snapshot() == ZeroEvent(cfg)
    {
      eventType, timestampNs, pid, tid := SslRead, 0, 0, 0;
      data := new byte[cfg.maxDataSize](i => 0);
      dataLen, comm, fd := 0, Zeros(cfg.taskCommLen), 0;
      new;
      assert data[..] == Zeros(cfg.maxDataSize);
    }

    /** The record as bpf_perf_event_output copies it out. */
    function Snapshot(): SslDataEvent
      reads this, data
    {
      SslDataEvent(eventType, timestampNs, pid, tid, data[..], dataLen, comm, fd)
    }
  }

  /** The loaded program: its two registries, the scratch slot of the CPU it
      runs on, and what its two perf arrays have received so far. */
  class OpenSslProgram {
    const cfg: Config
    /** The per-CPU scratch slot; null when the lookup of key 0 fails. */
    const heap: SslDataEventSlot?
    /** The objects behind `heap`. */
    ghost const Scratch: set<object>
    var readArgs: map<u64, ActiveSslBuf>    // active_ssl_read_args_map
    var writeArgs: map<u64, ActiveSslBuf>   // active_ssl_write_args_map
    var tlsEvents: seq<SslDataEvent>        // received by tls_events
    var connectEvents: seq<ConnectEvent>    // received by connect_events

    ghost predicate Valid()
      reads this, Scratch
    {
      && cfg.Valid()
      && (heap == null ==> Scratch == {})
      && (heap != null ==>
            heap in Scratch && heap.data in Scratch && Scratch == {heap, heap.data}
            && heap.data.Length == cfg.maxDataSize)
    }

    /** The program's state as a value. */
    function State(): (s: ProgramState)
      reads this, Scratch
      requires Valid()
      ensures s.WellFormed(cfg)
    {
      ProgramState(readArgs, writeArgs, if heap == null then None else Some(heap.Snapshot()),
                   tlsEvents, connectEvents)
    }

    constructor (cfg: Config, slotAvailable: bool)
      requires cfg.Valid()
      ensures Valid() && fresh(Scratch) && this.cfg == cfg
      ensures State() == Initial(cfg, slotAvailable)
    {
      var slot: SslDataEventSlot? := null;
      if slotAvailable {
        slot := new SslDataEventSlot(cfg);
      }
      this.cfg := cfg;
      heap := slot;
      Scratch := if slot == null then {} else {slot, slot.data};
      readArgs, writeArgs, tlsEvents, connectEvents := map[], map[], [], [];
    }

    /** create_ssl_data_event. */
    method CreateSslDataEvent(id: u64, now: u64) returns (event: SslDataEventSlot?)
      requires Valid()
      modifies Scratch
      ensures event == heap
      ensures State() == old(State()).(heap := CreateEventStep(old(State()).heap, id, now))
    {
      event := heap;
      if event == null {
        return;
      }
      event.timestampNs := now;
      event.pid := PidOf(id);
      event.tid := TidOf(id);
      event.fd := INVALID_FD;
    }

    /** process_SSL_data. */
    method ProcessSslData(f: Firing, id: u64, t: SslDataEventType, buf: Addr, fd: u32, mem: UserMemory)
      requires Valid()
      modifies this, Scratch
      ensures State() == ProcessDataStep(cfg, old(State()), f, id, t, buf, fd, mem)
    {
      var len := RegToInt(f.rc);
      if len < 0 {
        return;
      }
      var event := CreateSslDataEvent(id, f.ktimeNs);
      if event == null {
        return;
      }
      event.eventType := t;
      event.fd := fd;
      event.dataLen := DataLen(len, cfg.maxDataSize);
      ProbeRead(event.data, event.dataLen, mem.bytes, buf);
      event.comm := f.comm;
      tlsEvents := tlsEvents + [event.Snapshot()];
    }

    /** probe_entry_SSL_write. */
    method ProbeEntrySslWrite(f: Firing, mem: UserMemory)
      requires Valid()
      modifies this
      ensures State() == EntryStep(cfg, old(State()), SslWrite, f, mem)
    {
      var currentPidTgid := f.pidTgid;
      var pid := PidOf(currentPidTgid);
      if cfg.targetPid != 0 && cfg.targetPid != pid {
        return;
      }
      var sslInfo := mem.sslAt(f.parm1);
      var bioW := mem.bioAt(sslInfo.wbio);
      var fd := Low32(bioW.num);
      var buf := f.parm2;
      writeArgs := writeArgs[currentPidTgid := ActiveSslBuf(fd, buf)];
    }

    /** probe_ret_SSL_write. */
    method ProbeRetSslWrite(f: Firing, mem: UserMemory)
      requires Valid()
      modifies this, Scratch
      ensures State() == ReturnStep(cfg, old(State()), SslWrite, f, mem)
    {
      var currentPidTgid := f.pidTgid;
      var pid := PidOf(currentPidTgid);
      if cfg.targetPid != 0 && cfg.targetPid != pid {
        return;
      }
      if currentPidTgid in writeArgs {
        var active := writeArgs[currentPidTgid];
        ProcessSslData(f, currentPidTgid, SslWrite, active.buf, active.fd, mem);
      }
      writeArgs := writeArgs - {currentPidTgid};
    }

    /** probe_entry_SSL_read. */
    method ProbeEntrySslRead(f: Firing, mem: UserMemory)
      requires Valid()
      modifies this
      ensures State() == EntryStep(cfg, old(State()), SslRead, f, mem)
    {
      var currentPidTgid := f.pidTgid;
      var pid := PidOf(currentPidTgid);
      if cfg.targetPid != 0 && cfg.targetPid != pid {
        return;
      }
      var sslInfo := mem.sslAt(f.parm1);
      var bioR := mem.bioAt(sslInfo.rbio);
      var fd := Low32(bioR.num);
      var buf := f.parm2;
      readArgs := readArgs[currentPidTgid := ActiveSslBuf(fd, buf)];
    }

    /** probe_ret_SSL_read. */
    method ProbeRetSslRead(f: Firing, mem: UserMemory)
      requires Valid()
      modifies this, Scratch
      ensures State() == ReturnStep(cfg, old(State()), SslRead, f, mem)
    {
      var currentPidTgid := f.pidTgid;
      var pid := PidOf(currentPidTgid);
      if cfg.targetPid != 0 && cfg.targetPid != pid {
        return;
      }
      if currentPidTgid in readArgs {
        var active := readArgs[currentPidTgid];
        ProcessSslData(f, currentPidTgid, SslRead, active.buf, active.fd, mem);
      }
      readArgs := readArgs - {currentPidTgid};
    }

    /** probe_connect. */
    method ProbeConnect(f: Firing, mem: UserMemory)
      requires Valid()
      modifies this
      ensures State() == ConnectStep(cfg, old(State()), f, mem)
    {
      var currentPidTgid := f.pidTgid;
      var pid := PidOf(currentPidTgid);
      if cfg.targetPid != 0 && cfg.targetPid != pid {
        return;
      }
      var fd := Low32(f.parm1);
      var saddr := f.parm2;
      if saddr == 0 {
        return;
      }
      var addressFamily := mem.familyAt(saddr);
      if addressFamily != cfg.afInet {
        return;
      }
      var conn := ConnectEvent(0, 0, 0, 0, Zeros(cfg.saDataLen), Zeros(cfg.taskCommLen));
      conn := conn.(timestampNs := f.ktimeNs);
      conn := conn.(pid := pid);
      conn := conn.(tid := Low32(currentPidTgid));
      conn := conn.(fd := fd);
      conn := conn.(saData := ReadUser(mem.bytes, Offset(saddr, SA_DATA_OFFSET), cfg.saDataLen));
      conn := conn.(comm := f.comm);
      connectEvents := connectEvents + [conn];
    }
  }
}
