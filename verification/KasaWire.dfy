/** The wire format of the Kasa probe: a rolling cipher in length-prefixed frames, read from a stream
    that arrives in arbitrary pieces (probes/kasa.py). */
module KasaWire {
  type Byte = b: nat | b < 256

  const INITIAL_KEY: Byte := 171
  const MAX_LENGTH: nat := 65536

  // ---- exclusive or ----

  function Pow2(n: nat): (p: nat)
    ensures p > 0
  {
    if n == 0 then 1 else 2 * Pow2(n - 1)
  }

  // Bit by bit, the lowest bit first.
  function XorBits(a: nat, b: nat, bits: nat): (x: nat)
    requires a < Pow2(bits) && b < Pow2(bits)
    ensures x < Pow2(bits)
  {
    if bits == 0 then 0 else (if a % 2 == b % 2 then 0 else 1) + 2 * XorBits(a / 2, b / 2, bits - 1)
  }

  lemma {:induction false} XorBitsTwice(a: nat, b: nat, bits: nat)
    requires a < Pow2(bits) && b < Pow2(bits)
    ensures XorBits(XorBits(a, b, bits), b, bits) == a
  {
    if bits > 0 {
      XorBitsTwice(a / 2, b / 2, bits - 1);
    }
  }

  // Bit `k` of a number, counted from the lowest.
  function Bit(n: nat, k: nat): nat {
    if k == 0 then n % 2 else Bit(n / 2, k - 1)
  }

  lemma {:induction false} XorBitAt(a: nat, b: nat, bits: nat, k: nat)
    requires a < Pow2(bits) && b < Pow2(bits) && k < bits
    ensures Bit(XorBits(a, b, bits), k) == if Bit(a, k) == Bit(b, k) then 0 else 1
  {
    if k > 0 {
      XorBitAt(a / 2, b / 2, bits - 1, k - 1);
    }
  }

  // `a ^ b` on bytes
  function Xor(a: Byte, b: Byte): Byte {
    assert Pow2(8) == 256;
    XorBits(a, b, 8)
  }

  /** A bit of `a ^ b` is set exactly when the two bits differ. */
  lemma XorMeaning(a: Byte, b: Byte, k: nat)
    requires k < 8
    ensures Bit(Xor(a, b), k) == if Bit(a, k) == Bit(b, k) then 0 else 1
  {
    assert Pow2(8) == 256;
    XorBitAt(a, b, 8, k);
  }

  lemma XorTwice(a: Byte, b: Byte)
    ensures Xor(Xor(a, b), b) == a
  {
    assert Pow2(8) == 256;
    XorBitsTwice(a, b, 8);
  }

  // ---- the cipher ----

  // Each byte is combined with the ciphertext byte before it.
  function Ciphered(key: Byte, plain: seq<Byte>): (c: seq<Byte>)
    ensures |c| == |plain|
    decreases |plain|
  {
    if plain == [] then [] else [Xor(plain[0], key)] + Ciphered(Xor(plain[0], key), plain[1..])
  }

  function Deciphered(key: Byte, cipher: seq<Byte>): (p: seq<Byte>)
    ensures |p| == |cipher|
    decreases |cipher|
  {
    if cipher == [] then [] else [Xor(cipher[0], key)] + Deciphered(cipher[0], cipher[1..])
  }

  lemma {:induction false} DecipherCiphered(key: Byte, plain: seq<Byte>)
    ensures Deciphered(key, Ciphered(key, plain)) == plain
    decreases |plain|
  {
    hide Xor;
    if plain != [] {
      var c := Xor(plain[0], key);
      XorTwice(plain[0], key);
      DecipherCiphered(c, plain[1..]);
      assert Ciphered(key, plain)[1..] == Ciphered(c, plain[1..]);
    }
  }

  lemma {:induction false} CipherDeciphered(key: Byte, cipher: seq<Byte>)
    ensures Ciphered(key, Deciphered(key, cipher)) == cipher
    decreases |cipher|
  {
    hide Xor;
    if cipher != [] {
      XorTwice(cipher[0], key);
      CipherDeciphered(cipher[0], cipher[1..]);
      assert Deciphered(key, cipher)[1..] == Deciphered(cipher[0], cipher[1..]);
    }
  }

  /** The first byte is combined with the initial key and every later one with the ciphertext byte before
      it. */
  lemma {:induction false} CipherChains(key: Byte, plain: seq<Byte>, i: nat)
    requires i < |plain|
    ensures Ciphered(key, plain)[i] == Xor(plain[i], if i == 0 then key else Ciphered(key, plain)[i - 1])
    decreases i
  {
    hide Xor;
    if i > 0 {
      CipherChains(Xor(plain[0], key), plain[1..], i - 1);
    }
  }

  /** ... and so it is undone. */
  lemma {:induction false} DecipherChains(key: Byte, cipher: seq<Byte>, i: nat)
    requires i < |cipher|
    ensures Deciphered(key, cipher)[i] == Xor(cipher[i], if i == 0 then key else cipher[i - 1])
    decreases i
  {
    hide Xor;
    if i > 0 {
      DecipherChains(cipher[0], cipher[1..], i - 1);
    }
  }

  // ---- the length prefix ----

  function Pow256(k: nat): (p: nat)
    ensures p > 0
  {
    if k == 0 then 1 else 256 * Pow256(k - 1)
  }

  // `n.to_bytes(k, "big")` and back
  function BigEndian(n: nat, k: nat): (bs: seq<Byte>)
    requires n < Pow256(k)
    ensures |bs| == k
  {
    if k == 0 then [] else BigEndian(n / 256, k - 1) + [n % 256]
  }

  /** A four-byte prefix has the highest byte first. */
  lemma HeaderBytes(n: nat)
    requires n < 0x1_0000_0000
    ensures Pow256(4) == 0x1_0000_0000
    ensures BigEndian(n, 4) == [n / 0x100_0000, n / 0x1_0000 % 256, n / 256 % 256, n % 256]
  {
    assert Pow256(1) == 256 && Pow256(2) == 0x1_0000 && Pow256(3) == 0x100_0000 && Pow256(4) == 0x1_0000_0000;
    assert n / 256 / 256 == n / 0x1_0000 && n / 256 / 256 / 256 == n / 0x100_0000;
    assert BigEndian(n / 0x100_0000, 1) == [n / 0x100_0000];
    assert BigEndian(n / 0x1_0000, 2) == [n / 0x100_0000, n / 0x1_0000 % 256];
    assert BigEndian(n / 256, 3) == [n / 0x100_0000, n / 0x1_0000 % 256, n / 256 % 256];
  }

  function FromBigEndian(bs: seq<Byte>): nat {
    if bs == [] then 0 else 256 * (FromBigEndian(bs[..|bs| - 1]) as int) + bs[|bs| - 1]
  }

  lemma {:induction false} LengthRoundTrip(n: nat, k: nat)
    requires n < Pow256(k)
    ensures FromBigEndian(BigEndian(n, k)) == n
  {
    if k > 0 {
      LengthRoundTrip(n / 256, k - 1);
    }
  }

  lemma {:induction false} HeaderIsLength(bs: seq<Byte>)
    ensures FromBigEndian(bs) < Pow256(|bs|) && BigEndian(FromBigEndian(bs), |bs|) == bs
  {
    if bs != [] {
      HeaderIsLength(bs[..|bs| - 1]);
      assert bs == bs[..|bs| - 1] + [bs[|bs| - 1]];
    }
  }

  // The lengths that fit in the prefix.
  const LENGTHS: nat := 0x1_0000_0000

  lemma FourBytes()
    ensures Pow256(4) == LENGTHS
  {
  }

  function Header(n: nat): (bs: seq<Byte>)
    requires n < LENGTHS
    ensures |bs| == 4
  {
    FourBytes();
    BigEndian(n, 4)
  }

  function Frame(plain: seq<Byte>): seq<Byte>
    requires |plain| < LENGTHS
  {
    Header(|plain|) + Ciphered(INITIAL_KEY, plain)
  }

  /** `_encrypt` */
  method Encrypt(plaintext: seq<Byte>) returns (r: seq<Byte>)
    requires |plaintext| < LENGTHS
    ensures r == Frame(plaintext)
    ensures |r| == 4 + |plaintext| && FromBigEndian(r[..4]) == |plaintext|
    ensures forall i :: 0 <= i < |plaintext| ==> r[4..][i] == Xor(plaintext[i], if i == 0 then 171 else r[4..][i - 1])
  {
    var key := INITIAL_KEY;
    var out: seq<Byte> := [];
    hide Xor;
    for i := 0 to |plaintext|
      invariant |out| == i
      invariant out + Ciphered(key, plaintext[i..]) == Ciphered(INITIAL_KEY, plaintext)
    {
      assert plaintext[i..][1..] == plaintext[i + 1..];
      key := Xor(plaintext[i], key);
      out := out + [key];
    }
    assert plaintext[|plaintext|..] == [];
    r := Header(|out|) + out;
    assert r[..4] == Header(|out|) && r[4..] == out;
    FourBytes();
    LengthRoundTrip(|out|, 4);
    forall i | 0 <= i < |out| ensures out[i] == Xor(plaintext[i], if i == 0 then 171 else out[i - 1]) {
      CipherChains(INITIAL_KEY, plaintext, i);
    }
  }

  /** `_decrypt` */
  method Decrypt(ciphertext: seq<Byte>) returns (r: seq<Byte>)
    ensures r == Deciphered(INITIAL_KEY, ciphertext)
    ensures |r| == |ciphertext|
    ensures forall i :: 0 <= i < |r| ==> r[i] == Xor(ciphertext[i], if i == 0 then 171 else ciphertext[i - 1])
  {
    var key := INITIAL_KEY;
    r := [];
    hide Xor;
    for i := 0 to |ciphertext|
      invariant r + Deciphered(key, ciphertext[i..]) == Deciphered(INITIAL_KEY, ciphertext)
    {
      assert ciphertext[i..][1..] == ciphertext[i + 1..];
      r := r + [Xor(ciphertext[i], key)];
      key := ciphertext[i];
    }
    assert ciphertext[|ciphertext|..] == [];
    forall i | 0 <= i < |r| ensures r[i] == Xor(ciphertext[i], if i == 0 then 171 else ciphertext[i - 1]) {
      DecipherChains(INITIAL_KEY, ciphertext, i);
    }
  }

  // ---- the stream ----

  datatype Received = Bytes(bytes: seq<Byte>) | TimedOut | Closed

  /** A connection: what the peer still sends before it closes, and how the bytes arrive. */
  class Socket {
    var incoming: seq<Byte>
    var calls: nat
    // how much the n-th receive is willing to return, whether it waits in vain, and the clock before it
    const sizes: nat -> nat
    const stalls: nat -> bool
    const clock: nat -> int

    constructor (incoming: seq<Byte>, sizes: nat -> nat, stalls: nat -> bool, clock: nat -> int)
      ensures this.incoming == incoming && this.calls == 0
      ensures this.sizes == sizes && this.stalls == stalls && this.clock == clock
    {
      this.incoming, this.calls := incoming, 0;
      this.sizes, this.stalls, this.clock := sizes, stalls, clock;
    }

    // `recv`: at least one byte and at most `n`, or nothing once the peer has closed.
    method Recv(n: nat) returns (r: Received)
      requires n > 0
      modifies this
      ensures calls == old(calls) + 1
      ensures r.TimedOut? <==> stalls(old(calls))
      ensures r.TimedOut? ==> incoming == old(incoming)
      ensures r.Closed? <==> !stalls(old(calls)) && old(incoming) == []
      ensures r.Closed? ==> incoming == []
      ensures r.Bytes? ==> 0 < |r.bytes| <= n && r.bytes + incoming == old(incoming)
    {
      calls := calls + 1;
      if stalls(calls - 1) {
        return TimedOut;
      }
      if incoming == [] {
        return Closed;
      }
      var k := if n < |incoming| then n else |incoming|;
      k := if sizes(calls - 1) < k then sizes(calls - 1) else k;
      k := if k == 0 then 1 else k;
      r := Bytes(incoming[..k]);
      assert incoming[..k] + incoming[k..] == incoming;
      incoming := incoming[k..];
    }
  }

  // No receive from the `from`-th on waits in vain or starts after the deadline.
  ghost predicate InTime(socket: Socket, from: nat, deadline: int) {
    forall i :: i >= from ==> !socket.stalls(i) && socket.clock(i) < deadline
  }

  /** `_recv_exact`: the next `n` bytes, however they arrive, and not one more.  It fails only when time
      runs out or the peer closes first. */
  method RecvExact(socket: Socket, n: nat, deadline: int) returns (r: Received)
    modifies socket
    ensures r.Bytes? ==> |r.bytes| == n && r.bytes + socket.incoming == old(socket.incoming)
    ensures !r.Bytes? ==>
      exists k :: 0 <= k <= n && k <= |old(socket.incoming)| && socket.incoming == old(socket.incoming)[k..]
    ensures r.Closed? ==> |old(socket.incoming)| < n
    ensures InTime(socket, old(socket.calls), deadline) ==> (r.Bytes? <==> n <= |old(socket.incoming)|)
    ensures socket.calls >= old(socket.calls)
  {
    var buf: seq<Byte> := [];
    while |buf| < n
      invariant |buf| <= n && buf + socket.incoming == old(socket.incoming)
      invariant socket.calls >= old(socket.calls)
      decreases n - |buf|
    {
      assert socket.incoming == old(socket.incoming)[|buf|..];
      var remaining := deadline - socket.clock(socket.calls);
      if remaining <= 0 {
        return TimedOut;
      }
      var chunk := socket.Recv(n - |buf|);
      if !chunk.Bytes? {
        return chunk;
      }
      assert buf + (chunk.bytes + socket.incoming) == (buf + chunk.bytes) + socket.incoming;
      buf := buf + chunk.bytes;
    }
    return Bytes(buf);
  }

  datatype Reply = Body(plain: seq<Byte>) | BadLength | NoResponse

  /** The framing part of `run`, after the request was sent. */
  method ReadReply(socket: Socket, deadline: int) returns (r: Reply)
    modifies socket
    ensures r.Body? ==> 1 <= |r.plain| <= 65536 && Frame(r.plain) + socket.incoming == old(socket.incoming)
    ensures r.BadLength? ==>
      |old(socket.incoming)| >= 4 && !(1 <= FromBigEndian(old(socket.incoming)[..4]) <= 65536)
    ensures InTime(socket, old(socket.calls), deadline) && r.NoResponse? ==>
      |old(socket.incoming)| < 4 || |old(socket.incoming)| - 4 < FromBigEndian(old(socket.incoming)[..4])
  {
    var header := RecvExact(socket, 4, deadline);
    if !header.Bytes? {
      return NoResponse;
    }
    assert header.bytes == old(socket.incoming)[..4];
    var length := FromBigEndian(header.bytes);
    if length <= 0 || length > MAX_LENGTH {
      return BadLength;
    }
    label afterHeader:
    assert socket.incoming == old(socket.incoming)[4..];
    var body := RecvExact(socket, length, deadline);
    if !body.Bytes? {
      return NoResponse;
    }
    var plain := Decrypt(body.bytes);
    CipherDeciphered(INITIAL_KEY, body.bytes);
    HeaderIsLength(header.bytes);
    FourBytes();
    assert header.bytes + (body.bytes + socket.incoming) == (header.bytes + body.bytes) + socket.incoming;
    return Body(plain);
  }

  lemma FrameStart(plain: seq<Byte>, rest: seq<Byte>)
    requires |plain| < LENGTHS
    ensures (Frame(plain) + rest)[..4] == Header(|plain|) && |Frame(plain)| == 4 + |plain|
  {
  }

  /** Two frames at the start of one stream are the same frame. */
  lemma FrameIsUnique(p: seq<Byte>, rest: seq<Byte>, q: seq<Byte>, rest': seq<Byte>)
    requires |p| < LENGTHS && |q| < LENGTHS
    requires Frame(p) + rest == Frame(q) + rest'
    ensures p == q && rest == rest'
  {
    FourBytes();
    FrameStart(p, rest);
    FrameStart(q, rest');
    LengthRoundTrip(|p|, 4);
    LengthRoundTrip(|q|, 4);
    var s := Frame(p) + rest;
    assert s[4..4 + |p|] == Ciphered(INITIAL_KEY, p);
    assert s[4..4 + |p|] == Ciphered(INITIAL_KEY, q);
    DecipherCiphered(INITIAL_KEY, p);
    DecipherCiphered(INITIAL_KEY, q);
    assert s[4 + |p|..] == rest && s[4 + |p|..] == rest';
  }

  /** A payload of 1 to 65536 bytes, sent as one frame and followed by anything, comes back as it was,
      however the stream is split; nothing after the frame is read. */
  method SendAndRead(plain: seq<Byte>, after: seq<Byte>, sizes: nat -> nat, stalls: nat -> bool, clock: nat -> int,
                     deadline: int)
    returns (r: Reply, socket: Socket)
    requires 1 <= |plain| <= 65536
    requires forall i :: !stalls(i) && clock(i) < deadline
    ensures fresh(socket)
    ensures r == Body(plain) && socket.incoming == after
  {
    var frame := Encrypt(plain);
    socket := new Socket(frame + after, sizes, stalls, clock);
    r := ReadReply(socket, deadline);
    FourBytes();
    FrameStart(plain, after);
    LengthRoundTrip(|plain|, 4);
    if r.Body? {
      FrameIsUnique(r.plain, socket.incoming, plain, after);
    }
  }
}
