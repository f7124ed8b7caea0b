/** Octets, Python-style slices and the big-endian integers of the wire format. */
module Wire {
  type Octet = o: int | 0 <= o < 0x100
  type Octets = seq<Octet>
  type Port = p: int | 0 <= p < 0x1_0000

  /** An IPv4 or IPv6 address as raw octets; the length tells the family. */
  type Ip = a: Octets | |a| == 4 || |a| == 16 witness [0, 0, 0, 0]

  const ANY_IP: Ip := [0, 0, 0, 0]

  datatype Option<+T> = None | Some(value: T)

  /** `s[from:to]` in Python: both ends are clamped, so slicing never fails. */
  function Slice<T>(s: seq<T>, from: nat, to: nat): seq<T> {
    var hi := if to < |s| then to else |s|;
    if from < hi then s[from..hi] else []
  }

  /** `s[from:]` in Python. */
  function Drop<T>(s: seq<T>, from: nat): seq<T> {
    if from < |s| then s[from..] else []
  }

  predicate InU16(n: int) { 0 <= n < 0x1_0000 }

  predicate InU32(n: int) { 0 <= n < 0x1_0000_0000 }

  /** `struct.pack(">H", n)` for a value in range. */
  function PackU16(n: int): (r: Octets)
    requires InU16(n)
    ensures |r| == 2
  {
    [n / 0x100, n % 0x100]
  }

  /** `struct.pack(">I", n)` for a value in range. */
  function PackU32(n: int): (r: Octets)
    requires InU32(n)
    ensures |r| == 4
  {
    PackU16(n / 0x1_0000) + PackU16(n % 0x1_0000)
  }

  /** `struct.unpack(">H", s)`: fails unless there are exactly two octets. */
  function UnpackU16(s: Octets): (r: Option<int>)
    ensures r.Some? <==> |s| == 2
    ensures r.Some? ==> InU16(r.value)
  {
    if |s| == 2 then Some(s[0] as int * 0x100 + s[1]) else None
  }

  /** `struct.unpack(">I", s)`: fails unless there are exactly four octets. */
  function UnpackU32(s: Octets): (r: Option<int>)
    ensures r.Some? <==> |s| == 4
    ensures r.Some? ==> InU32(r.value)
  {
    if |s| == 4 then
      Some((s[0] as int * 0x100 + s[1]) * 0x1_0000 + (s[2] as int * 0x100 + s[3]))
    else None
  }

  lemma UnpackPackU16(n: int)
    requires InU16(n)
    ensures UnpackU16(PackU16(n)) == Some(n)
  {
  }

  lemma PackUnpackU16(s: Octets)
    requires |s| == 2
    ensures PackU16(UnpackU16(s).value) == s
  {
  }

  lemma UnpackPackU32(n: int)
    requires InU32(n)
    ensures UnpackU32(PackU32(n)) == Some(n)
  {
    UnpackPackU16(n / 0x1_0000);
    UnpackPackU16(n % 0x1_0000);
  }

  lemma PackUnpackU32(s: Octets)
    requires |s| == 4
    ensures PackU32(UnpackU32(s).value) == s
  {
    var hi, lo := s[0] as int * 0x100 + s[1], s[2] as int * 0x100 + s[3];
    assert (hi * 0x1_0000 + lo) / 0x1_0000 == hi;
    assert (hi * 0x1_0000 + lo) % 0x1_0000 == lo;
    PackUnpackU16(s[..2]);
    PackUnpackU16(s[2..]);
  }

  /** A slice that lies inside the middle part of a concatenation is that part. */
  lemma SliceMiddle<T>(a: seq<T>, b: seq<T>, c: seq<T>)
    ensures Slice(a + b + c, |a|, |a| + |b|) == b
    ensures Drop(a + b + c, |a| + |b|) == c
  {
    var s := a + b + c;
    if b != [] {
      assert s[|a|..|a| + |b|] == b;
    }
    if c != [] {
      assert s[|a| + |b|..] == c;
    }
  }
}
