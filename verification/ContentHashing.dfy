/** The 64-bit FNV-1a content hash that decides whether an artifact is current. */
module ContentHashing {
  const OFFSET_BASIS: bv64 := 0xcbf29ce484222325
  const PRIME: bv64 := 0x100000001b3

  // `str::as_bytes`: UTF-8.
  function Utf8Char(c: char): seq<bv8> {
    var n := c as int;
    if n < 0x80 then [n as bv8]
    else if n < 0x800 then [(0xC0 + n / 0x40) as bv8, (0x80 + n % 0x40) as bv8]
    else if n < 0x1_0000 then
      [(0xE0 + n / 0x1000) as bv8, (0x80 + n / 0x40 % 0x40) as bv8, (0x80 + n % 0x40) as bv8]
    else
      [(0xF0 + n / 0x4_0000) as bv8, (0x80 + n / 0x1000 % 0x40) as bv8,
       (0x80 + n / 0x40 % 0x40) as bv8, (0x80 + n % 0x40) as bv8]
  }

  function Utf8(s: string): seq<bv8> {
    if s == [] then [] else Utf8Char(s[0]) + Utf8(s[1..])
  }

  // The bv64 product wraps, as `u64::wrapping_mul` does.
  function Mix(hash: bv64, byte: bv8): bv64 {
    (hash ^ (byte as bv64)) * PRIME
  }

  function Fnv(bytes: seq<bv8>): bv64 {
    if bytes == [] then OFFSET_BASIS else Mix(Fnv(bytes[..|bytes| - 1]), bytes[|bytes| - 1])
  }

  function NibbleDigit(nibble: bv4): (c: char)
    ensures IsLowerHex(c)
  {
    if nibble < 10 then ['0', '1', '2', '3', '4', '5', '6', '7', '8', '9'][nibble as int]
    else ['a', 'b', 'c', 'd', 'e', 'f'][nibble as int - 10]
  }

  predicate IsLowerHex(c: char) {
    '0' <= c <= '9' || 'a' <= c <= 'f'
  }

  // What every printed hash looks like: `{:016x}`.
  predicate IsHash(s: string) {
    |s| == 16 && forall i :: 0 <= i < 16 ==> IsLowerHex(s[i])
  }

  function Nibble(h: bv64, i: nat): bv4
    requires i < 16
  {
    ((h >> (60 - 4 * i)) & 0xF) as bv4
  }

  function Hex16(h: bv64): (s: string)
    ensures IsHash(s)
  {
    seq(16, i requires 0 <= i < 16 => NibbleDigit(Nibble(h, i)))
  }

  function ContentHash(contents: string): (s: string)
    ensures IsHash(s)
  {
    Hex16(Fnv(Utf8(contents)))
  }

  lemma FnvStep(bytes: seq<bv8>, i: nat)
    requires i < |bytes|
    ensures Fnv(bytes[..i + 1]) == Mix(Fnv(bytes[..i]), bytes[i])
  {
    assert bytes[..i + 1][..i] == bytes[..i];
  }

  // The hash loop itself.
  method HashBytes(bytes: seq<bv8>) returns (printed: string)
    ensures printed == Hex16(Fnv(bytes))
  {
    var hash := OFFSET_BASIS;
    for i := 0 to |bytes|
      invariant hash == Fnv(bytes[..i])
    {
      FnvStep(bytes, i);
      hash := Mix(hash, bytes[i]);
    }
    assert bytes[..|bytes|] == bytes;
    printed := Hex16(hash);
  }
}
