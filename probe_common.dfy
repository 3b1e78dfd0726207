/** Vocabulary shared by the two uprobe programs: the C integer widths they
    use, the split of the 64-bit pid_tgid, the bitmask length clamp, and the
    traced process's memory as seen through bpf_probe_read. */
module ProbeCommon {

  datatype Option<T> = None | Some(value: T)

  const TWO_31: int := 0x8000_0000
  const TWO_32: int := 0x1_0000_0000
  const TWO_64: int := 0x1_0000_0000_0000_0000

  type byte = x: int | 0 <= x < 0x100
  type u16 = x: int | 0 <= x < 0x1_0000
  type u32 = x: int | 0 <= x < 0x1_0000_0000
  type u64 = x: int | 0 <= x < 0x1_0000_0000_0000_0000
  type s32 = x: int | -0x8000_0000 <= x < 0x8000_0000

  /** A user-space address of the traced process. */
  type Addr = u64

  /** The traced process's memory, one byte per address. */
  type Bytes = Addr -> byte

  // ---------------------------------------------------------------------
  // Integer conversions as the C code performs them
  // ---------------------------------------------------------------------

  /** Conversion of an integer to `u32`: reduction modulo 2^32. This is
      `x & 0xffffffff`, the implicit narrowing of a u64 into a u32 field,
      `(u32)PT_REGS_PARM1(ctx)`, and `u32 fd = bio.num` for an int `num`. */
  function Low32(x: int): (r: u32)
    ensures (x - r) % TWO_32 == 0
    ensures 0 <= x < TWO_32 ==> r == x
  {
    x % TWO_32
  }

  /** `current_pid_tgid >> 32`: the upper half of the id, the process id. */
  function PidOf(id: u64): (pid: u32)
    ensures pid * TWO_32 <= id < pid * TWO_32 + TWO_32
  {
    id / TWO_32
  }

  /** `current_pid_tgid & kMask32b`: the lower half of the id, the thread id.
      Together with `PidOf` it loses nothing of the id. */
  function TidOf(id: u64): (tid: u32)
    ensures PidOf(id) * TWO_32 + tid == id
  {
    Low32(id)
  }

  /** How bpf_get_current_pid_tgid packs a process id and a thread id into
      one 64-bit key; `PidOf` and `TidOf` take it apart again. */
  function PidTgid(pid: u32, tid: u32): (id: u64)
    ensures PidOf(id) == pid && TidOf(id) == tid
  {
    pid * TWO_32 + tid
  }

  /** `(int)PT_REGS_RC(ctx)`: the low 32 bits of the 64-bit return register,
      read as a two's-complement `int`. */
  function RegToInt(reg: u64): (v: s32)
    ensures (reg - v) % TWO_32 == 0
  {
    var low := Low32(reg);
    if low < TWO_31 then low else low - TWO_32
  }

  /** The register value a callee returning `int` leaves behind when it
      sign-extends its result; `RegToInt` recovers the result from it. */
  function SignExtend(v: s32): (reg: u64)
    ensures RegToInt(reg) == v
  {
    if v >= 0 then v else v + TWO_64
  }

  /** Only the low half of the return register matters: a callee that writes
      its `int` result to the 32-bit register and leaves the upper half zero
      (so `-1` arrives as `0xffffffff`) is read the same as one that
      sign-extends it. */
  lemma RegToIntIgnoresUpperHalf(reg: u64, v: s32)
    ensures Low32(reg) == Low32(v) <==> RegToInt(reg) == v
  {
    if Low32(reg) == Low32(v) {
      assert (reg - v) % TWO_32 == 0;
    }
  }

  /** The probes' optional filter: a non-zero `target_pid` that differs from
      the caller's process id turns the probe into a no-op. */
  predicate PidFiltered(targetPid: u32, id: u64)
  {
    targetPid != 0 && targetPid != PidOf(id)
  }

  // ---------------------------------------------------------------------
  // The payload-length clamp
  // ---------------------------------------------------------------------

  predicate IsPowerOfTwo(n: int)
    decreases if n < 0 then 0 else n
  {
    n == 1 || (n > 1 && n % 2 == 0 && IsPowerOfTwo(n / 2))
  }

  /** C's `&` on non-negative integers, bit by bit from the lowest. */
  function BitAnd(a: nat, b: nat): (r: nat)
    ensures r <= a && r <= b
    decreases a
  {
    if a == 0 || b == 0 then 0
    else 2 * BitAnd(a / 2, b / 2) + (if a % 2 == 1 && b % 2 == 1 then 1 else 0)
  }

  /** Masking with `m - 1` keeps every value below a power of two `m`. */
  lemma {:induction false} MaskBelowPowerOfTwo(x: nat, m: nat)
    requires IsPowerOfTwo(m) && x < m
    ensures BitAnd(x, m - 1) == x
  {
    if m == 1 || x == 0 {
    } else {
      assert (m - 1) % 2 == 1 && (m - 1) / 2 == m / 2 - 1;
      MaskBelowPowerOfTwo(x / 2, m / 2);
    }
  }

  function Min(a: int, b: int): int
  {
    if a <= b then a else b
  }

  /** The payload length of a completed call whose return value is `len >= 0`,
      as written: `len < MAX ? (len & (MAX - 1)) : MAX`. It never leaves
      `[0, MAX]`, whatever `MAX` is. */
  function DataLen(len: nat, max: nat): (n: nat)
    requires 1 <= max
    ensures n <= max
  {
    if len < max then BitAnd(len, max - 1) else max
  }

  /** When `MAX` is a power of two the bitmask expression is the minimum;
      in particular a call that returns exactly `MAX` yields `MAX`. */
  lemma DataLenIsMin(len: nat, max: nat)
    requires IsPowerOfTwo(max)
    ensures DataLen(len, max) == Min(len, max)
  {
    if len < max {
      MaskBelowPowerOfTwo(len, max);
    }
  }

  /** Without the power-of-two assumption the same expression truncates:
      with a capacity of 6 a two-byte call would be captured as zero bytes. */
  lemma DataLenNeedsPowerOfTwo()
    ensures !IsPowerOfTwo(6)
    ensures DataLen(2, 6) == 0 != Min(2, 6)
  {
  }

  // ---------------------------------------------------------------------
  // Reads of the traced process's memory
  // ---------------------------------------------------------------------

  /** Address `a + i`, wrapping at 2^64 as a u64 pointer addition does. */
  function Offset(a: Addr, i: int): Addr
  {
    (a + i) % TWO_64
  }

  /** The `n` bytes `bpf_probe_read` copies from `src`. */
  function ReadUser(mem: Bytes, src: Addr, n: nat): (r: seq<byte>)
    ensures |r| == n
    ensures forall i :: 0 <= i < n ==> r[i] == mem(Offset(src, i))
  {
    var r: seq<int> := seq(n, i => mem(Offset(src, i)));
    assert forall i :: 0 <= i < |r| ==> r[i] == mem(Offset(src, i));
    r
  }

  /** A fixed buffer after `payload` is copied into its front: the bytes past
      the payload keep what the buffer held before. */
  function Overlay(prev: seq<byte>, payload: seq<byte>): (r: seq<byte>)
    requires |payload| <= |prev|
    ensures |r| == |prev|
    ensures r[..|payload|] == payload && r[|payload|..] == prev[|payload|..]
  {
    payload + prev[|payload|..]
  }

  function Zeros(n: nat): (r: seq<byte>)
    ensures |r| == n && forall i :: 0 <= i < n ==> r[i] == 0
  {
    seq(n, i => 0)
  }

  /** `bpf_probe_read(dst, n, src)` into a fixed-size buffer. */
  method ProbeRead(dst: array<byte>, n: nat, mem: Bytes, src: Addr)
    requires n <= dst.Length
    modifies dst
    ensures dst[..] == Overlay(old(dst[..]), ReadUser(mem, src, n))
  {
    forall i | 0 <= i < n {
      dst[i] := mem(Offset(src, i));
    }
  }

  /** `enum ssl_data_event_type { kSSLRead, kSSLWrite }`, which also names the
      direction of a call and so selects its registry. */
  datatype SslDataEventType = SslRead | SslWrite
  {
    /** The value the enum has on the wire. */
    function Code(): (c: u32)
      ensures c == 0 <==> SslRead?
      ensures c <= 1
    {
      if SslRead? then 0 else 1
    }

    /** The opposite direction, whose registry a probe of this one leaves alone. */
    function Other(): (o: SslDataEventType)
      ensures o != this
    {
      if SslRead? then SslWrite else SslRead
    }
  }

  /** What one probe firing observes: the id from bpf_get_current_pid_tgid,
      the first two argument registers, the return register, the clock
      (bpf_ktime_get_ns) and the task name (bpf_get_current_comm). */
  datatype Firing = Firing(pidTgid: u64, parm1: u64, parm2: u64, rc: u64, ktimeNs: u64, comm: seq<byte>)
}
