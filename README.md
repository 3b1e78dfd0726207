# Entry/return pairing in the eCapture TLS uprobes, modelled in Dafny

eCapture captures TLS plaintext without touching the traced process. Two eBPF
programs attach uprobes and uretprobes to library calls:
- `kern/openssl_kern.c` probes `SSL_write`, `SSL_read` and `connect`;
- `kern/nspr_kern.c` probes `PR_Write` and `PR_Read`.

An entry probe sees the call's arguments: the plaintext buffer and, for
OpenSSL, the `SSL*` handle. It stores these per thread in a pending-call
registry. One registry per direction is keyed by the 64-bit `pid_tgid`. The
matching return probe sees the byte count. It looks the pending call up and
fills the CPU's scratch `ssl_data_event_t` field by field. The payload length
is clamped into the record's fixed capacity. The probe then publishes the
record on a perf event array and deletes the registry key. The `connect` probe
captures IPv4 destinations in a single firing.

This project models both programs and proves what each firing does to the
program's state.

- `probe_common.dfy` (module `ProbeCommon`) holds the shared pieces:
  - the C integer widths;
  - the `pid`/`tid` split of `pid_tgid`;
  - the `(int)` reading of the return register;
  - the bitmask length clamp, with a proof that it is `min(len, MAX)` when
    `MAX` is a power of two;
  - user memory as seen through `bpf_probe_read`.
- `openssl_kern.dfy` (module `OpenSslKern`) and `nspr_kern.dfy` (module
  `NsprKern`) each have two layers:
  - A value-level `ProgramState` holds the two registries, the scratch record
    and the perf output as a sequence. Step functions (`EntryStep`,
    `ReturnStep`, `ProcessDataStep`, `CreateEventStep`, `ConnectStep`) state
    what one firing does to it.
  - A class (`OpenSslProgram`, `NsprProgram`) holds the same registries as
    `map` fields and the per-CPU scratch record as an object. That object
    keeps its payload in an `array`. The class has one method per probe
    function. Each method updates the fields in place, in the source's order,
    and is proved to produce `State() == XStep(cfg, old(State()), ...)`.
  - Lemmas relate several firings: an entry paired with its return, a return
    with no entry, a later entry replacing an earlier one (OpenSSL), two
    threads interleaving (OpenSSL), and any sequence of firings.

## How the environment is represented

- **Firing.** The kernel's inputs to one firing are a `Firing` value:
  - `pidTgid`, from `bpf_get_current_pid_tgid`;
  - the argument registers `parm1` and `parm2`;
  - the return register `rc`;
  - the clock, from `bpf_ktime_get_ns`;
  - the task name, from `bpf_get_current_comm`.
  The clock and the task name are taken as opaque inputs and stored verbatim.
- **Target memory.** This is a total function from address to byte. The
  OpenSSL program also reads it as records: `SslSt` (the `rbio`/`wbio`
  pointers), `Bio` (`num`) and a `sockaddr` family. Memory at entry and memory
  at return are separate inputs, because `SSL_read` fills its buffer during
  the call.
- **Perf arrays.** Each perf array (`tls_events`, `connect_events`,
  `nspr_events`) is a sequence that a publish appends to.
- **Scratch slot.** The scratch slot is nullable. `null` models a failed
  lookup in `data_buffer_heap`.
- **Build constants.** The constants from headers that are not part of this
  model are a `Config` value:
  - `target_pid`;
  - `MAX_DATA_SIZE_OPENSSL`, required to be a power of two below 2^31;
  - `TASK_COMM_LEN`;
  - `SA_DATA_LEN`;
  - `AF_INET`;
  - (NSPR) whether `KERNEL_LESS_5_2` is defined.
- **Integer conversions.** The C conversions are written out:
  - `id >> 32` is division by 2^32.
  - `id & 0xffffffff` and every narrowing to `u32` are reduction modulo 2^32.
    This covers `u32 fd = bio.num`, `(u32)PT_REGS_PARM1` and `conn.tid =
    current_pid_tgid`.
  - `(int)PT_REGS_RC` takes the low 32 bits as two's complement.
  - `len & (MAX - 1)` is a bitwise AND defined bit by bit.

Two properties of the code worth knowing before reading the model:

- **Payload tail.** The published record is not zero-padded. Only
  `data_len` bytes are copied into the reused scratch record, and the whole
  record is published, so the bytes past `data_len` are whatever an earlier
  event left there. `Describes` states this (`e.data[n..] == prev.data[n..]`).
- **Length clamp.** The clamp is the bitmask `len < MAX ? len & (MAX - 1) :
  MAX`. It equals `min(len, MAX)` only for a power-of-two `MAX`
  (`DataLenIsMin`). `DataLenNeedsPowerOfTwo` shows the truncation otherwise:
  for a capacity of 6, a 2-byte call would be captured as 0 bytes.

## Model

| member | source | states |
|---|---|---|
| `ProbeCommon.PidOf` | kern/openssl_kern.c:115 | the `pid` field is the upper 32 bits of `pid_tgid`: `pid * 2^32 <= id < (pid + 1) * 2^32` |
| `ProbeCommon.TidOf` | kern/openssl_kern.c:113-116 | the `tid` field is the lower 32 bits, and `pid * 2^32 + tid` gives back the whole id, so the split loses nothing |
| `ProbeCommon.PidTgid` | kern/openssl_kern.c:156-157 | packing a pid and a tid into one 64-bit key is undone exactly by `PidOf`/`TidOf` |
| `ProbeCommon.Low32` | kern/openssl_kern.c:274 | a C narrowing to `u32` keeps the value modulo 2^32 and leaves values already in range unchanged |
| `ProbeCommon.RegToInt` | kern/openssl_kern.c:128 | the `int` read from the 64-bit return register agrees with the register modulo 2^32 and lies in the `int` range |
| `ProbeCommon.SignExtend` | kern/openssl_kern.c:128 | every `int` result a callee leaves sign-extended in the register is recovered exactly by `(int)PT_REGS_RC` |
| `ProbeCommon.RegToIntIgnoresUpperHalf` | kern/openssl_kern.c:128 | `(int)PT_REGS_RC` yields `v` exactly when the register's low 32 bits are those of `v`, so a zero upper half (`-1` as `0xffffffff`) still reads as a negative return |
| `ProbeCommon.BitAnd` | kern/openssl_kern.c:141 | `a & b` on non-negative integers is at most either operand |
| `ProbeCommon.MaskBelowPowerOfTwo` | kern/openssl_kern.c:141 | `x & (m - 1) == x` for every `x` below a power of two `m` (induction over the bits) |
| `ProbeCommon.DataLen` | kern/openssl_kern.c:141 | the clamped length never leaves `[0, MAX]`, for every `len >= 0` and every `MAX >= 1`, power of two or not |
| `ProbeCommon.DataLenIsMin` | kern/openssl_kern.c:140-141 | for a power-of-two `MAX` the bitmask clamp is `min(len, MAX)`, so `len == MAX` gives `MAX` and not `MAX - 1` |
| `ProbeCommon.DataLenNeedsPowerOfTwo` | kern/nspr_kern.c:86-88 | the clamp is only a `min` because `MAX` is a power of two: with capacity 6 a 2-byte call yields length 0 |
| `ProbeCommon.ReadUser` | kern/openssl_kern.c:142 | `bpf_probe_read` of `n` bytes yields exactly `n` bytes, byte `i` taken from address `src + i` (wrapping at 2^64) |
| `ProbeCommon.Overlay` | kern/nspr_kern.c:89 | copying a payload into a fixed buffer keeps its size, puts the payload first and leaves the tail as it was |
| `ProbeCommon.ProbeRead` | kern/openssl_kern.c:142 | the scratch array after the copy is its old contents overlaid with the `n` bytes read from `src` |
| `OpenSslKern.CreateEventStep` | kern/openssl_kern.c:106-120 | a missing slot yields null and changes nothing; otherwise `pid`/`tid` are the high/low halves of the id, `fd` is reset to `invalidFD` (0), the clock is set, and type, data, length and comm keep what the previous user left |
| `OpenSslKern.ProcessDataStep` | kern/openssl_kern.c:126-146 | a negative return value or a missing slot leaves the whole state untouched; otherwise exactly one event is appended. It carries type, `fd`, pid/tid and `data_len == min(len, MAX)`, then the first `data_len` bytes of `buf` and after them the stale tail. Registries are untouched |
| `OpenSslKern.EntryStep` | kern/openssl_kern.c:155-184 | a filtered pid changes nothing; otherwise the caller's id maps to `{fd, buf}` in this direction's registry (overwriting). `fd` comes from `ssl->wbio->num` for writes and `ssl->rbio->num` for reads. No other key, no other registry, no event and no scratch byte changes |
| `OpenSslKern.ReturnStep` | kern/openssl_kern.c:187-205 | a filtered pid changes nothing; otherwise the id's key is gone from this direction's registry afterwards, found or not, and no other key changes. An event is published only for a pending call with `len >= 0`, and then it is built from that call's `fd` and `buf` |
| `OpenSslKern.ConnectStep` | kern/openssl_kern.c:265-299 | nothing is published when the pid is filtered, `saddr` is null or the family is not `AF_INET`. Otherwise exactly one event is appended with the clock, pid, low 32 bits of the id as tid, `fd` = first argument, `SA_DATA_LEN` bytes from `saddr + 2` and comm. Registries and data events are untouched |
| `OpenSslKern.PairedCallPublishesOneEvent` | kern/openssl_kern.c:196-203 | an entry followed by its return (`len >= 0`) publishes exactly one event with the entry's `fd`, the type, `min(len, MAX)` bytes of the entry's buffer as they are at return time, and the thread's pid/tid; the registries end as they began less the thread's key |
| `OpenSslKern.UnpairedReturnChangesNothing` | kern/openssl_kern.c:196-204 | a return whose thread has no pending call leaves the entire state unchanged |
| `OpenSslKern.LaterEntryReplacesEarlier` | kern/openssl_kern.c:181 | with `BPF_ANY`, a second entry on the same thread replaces the first: the event carries the later call's `fd` and buffer |
| `OpenSslKern.InterleavedThreadsDoNotMix` | kern/openssl_kern.c:48-64 | two threads whose calls interleave each get one event built from their own entry's `fd` and buffer, read from memory as it is at their own return, in return order, and both keys are removed |
| `OpenSslKern.FireAppendsBoundedEvent` | kern/openssl_kern.c:138-144 | one firing never removes or alters published events, appends at most one, only when it is a return firing, and what it appends has full capacity and `0 <= data_len <= MAX` |
| `OpenSslKern.RunAppendsBoundedEvents` | kern/openssl_kern.c:144 | over any sequence of firings the event output only grows, by at most the number of return firings, and every new event is bounded by the capacity |
| `OpenSslKern.SslDataEventSlot.constructor` | kern/openssl_kern.c:68-74 | a fresh per-CPU slot is the all-zero record of full capacity |
| `OpenSslKern.OpenSslProgram.constructor` | kern/openssl_kern.c:50-74 | the loaded program has empty registries, no events and a zeroed scratch slot (or none) |
| `OpenSslKern.OpenSslProgram.CreateSslDataEvent` | kern/openssl_kern.c:106-120 | updating the slot's fields in place returns the slot (or null) and leaves the state `CreateEventStep` describes |
| `OpenSslKern.OpenSslProgram.ProcessSslData` | kern/openssl_kern.c:126-146 | filling the slot and copying into its array in place leaves the state `ProcessDataStep` describes |
| `OpenSslKern.OpenSslProgram.ProbeEntrySslWrite` | kern/openssl_kern.c:155-184 | the in-place update of the write registry is `EntryStep` for `kSSLWrite` |
| `OpenSslKern.OpenSslProgram.ProbeRetSslWrite` | kern/openssl_kern.c:187-205 | lookup, processing and the unconditional delete together are `ReturnStep` for `kSSLWrite` |
| `OpenSslKern.OpenSslProgram.ProbeEntrySslRead` | kern/openssl_kern.c:210-238 | the in-place update of the read registry is `EntryStep` for `kSSLRead` |
| `OpenSslKern.OpenSslProgram.ProbeRetSslRead` | kern/openssl_kern.c:241-259 | lookup, processing and the unconditional delete together are `ReturnStep` for `kSSLRead` |
| `OpenSslKern.OpenSslProgram.ProbeConnect` | kern/openssl_kern.c:265-299 | building the zeroed record field by field and publishing it is `ConnectStep` |
| `NsprKern.CreateEventStep` | kern/nspr_kern.c:51-65 | a missing slot yields null; otherwise pid/tid are the high/low halves of the id and the clock is set. Nothing else is touched: this record has no `fd` |
| `NsprKern.ProcessDataStep` | kern/nspr_kern.c:71-94 | a negative return value or a missing slot changes nothing. Otherwise exactly one event is appended with `data_len == min(len, MAX)`, the first `data_len` bytes of `buf`, and beyond them the bytes the previous event left |
| `NsprKern.EntryStep` | kern/nspr_kern.c:103-120 | a filtered entry changes nothing; otherwise the id maps to the buffer pointer in this direction's registry, overwriting, and nothing else changes |
| `NsprKern.ReturnStep` | kern/nspr_kern.c:122-143 | a filtered return changes nothing. Otherwise the stored pointer goes to `process_SSL_data` only when an entry exists, and the key is deleted in every case. At most one event results |
| `NsprKern.WithoutFilterEveryEntryRecords` | kern/nspr_kern.c:109-114 | built with `KERNEL_LESS_5_2`, every entry records its buffer whatever `target_pid` is |
| `NsprKern.PairedCallPublishesOneEvent` | kern/nspr_kern.c:135-141 | an entry followed by its return (`len >= 0`) publishes exactly one event: type, pid/tid, `min(len, MAX)` bytes of the entry's buffer at return time and the stale tail of the scratch record; registries end less the key |
| `NsprKern.UnpairedReturnChangesNothing` | kern/nspr_kern.c:182-188 | a return whose thread has no pending call leaves the entire state unchanged |
| `NsprKern.FireAppendsBoundedEvent` | kern/nspr_kern.c:83-92 | one firing never removes or alters published events, appends at most one, only when it is a return firing, and what it appends has full capacity and `0 <= data_len <= MAX` |
| `NsprKern.RunAppendsBoundedEvents` | kern/nspr_kern.c:91-92 | over any sequence of firings the event output only grows, by at most the number of return firings, and every new event is bounded by the capacity |
| `NsprKern.SslDataEventSlot.constructor` | kern/nspr_kern.c:40-45 | a fresh per-CPU slot is the all-zero record of full capacity |
| `NsprKern.NsprProgram.constructor` | kern/nspr_kern.c:24-45 | the loaded program has empty registries, no events and a zeroed scratch slot (or none) |
| `NsprKern.NsprProgram.CreateSslDataEvent` | kern/nspr_kern.c:51-65 | the in-place field updates leave the state `CreateEventStep` describes |
| `NsprKern.NsprProgram.ProcessSslData` | kern/nspr_kern.c:71-94 | filling the slot and copying into its array in place leaves the state `ProcessDataStep` describes |
| `NsprKern.NsprProgram.ProbeEntrySslWrite` | kern/nspr_kern.c:103-120 | the compile-time filter and the registry update are `EntryStep` for `kSSLWrite` |
| `NsprKern.NsprProgram.ProbeRetSslWrite` | kern/nspr_kern.c:122-143 | lookup, processing and the unconditional delete are `ReturnStep` for `kSSLWrite` |
| `NsprKern.NsprProgram.ProbeEntrySslRead` | kern/nspr_kern.c:150-167 | the compile-time filter and the registry update are `EntryStep` for `kSSLRead` |
| `NsprKern.NsprProgram.ProbeRetSslRead` | kern/nspr_kern.c:169-190 | lookup, processing and the unconditional delete are `ReturnStep` for `kSSLRead` |

## Left out

- **Faults in `bpf_probe_read`/`bpf_probe_read_user`.** Fault handling and the
  kernel zeroing the destination after a failed read are not modelled. Every
  read succeeds and yields what the abstract memory holds at that address.
- **Perf-buffer transport.** Buffering, back-pressure and drops of
  `bpf_perf_event_output` are not modelled. A publish always appends to the
  output sequence.
- **Helper values.** The values of `bpf_ktime_get_ns` and
  `bpf_get_current_comm` cannot be specified. They are inputs of each firing
  and are stored as given, with no truncation to `TASK_COMM_LEN`.
- **Diagnostics.** `debug_bpf_printk` produces diagnostics only and is not
  modelled.
- **Concurrency.** Several CPUs firing at once and the per-CPU sharding of
  `data_buffer_heap` are not modelled. The model is one execution unit with
  one scratch slot, and firings happen one after another.
- **Registry capacity.** The registries' bound of 1024 entries
  (`max_entries`) is not modelled. Neither is an update that fails when a
  registry is full. The registries are unbounded maps.
- **Struct layouts.** The C layouts and byte offsets of `ssl_st` and `BIO`
  are not modelled. Memory is read as records: an `ssl_st` has `rbio`/`wbio`
  pointers and a `BIO` has `num`.
- **`sockaddr` layout.** The `sockaddr` family is read as a record.
  `sa_data` is read as bytes at offset 2.
- **Stack padding.** Struct padding bytes cleared by `__builtin_memset` in
  the entry probes are not modelled. Only the fields are.
