/** The bit-layer primitives of the PRESENT block cipher (src/lib.rs): the 4-bit
    S-box, the 64-bit bit permutation P, round-key addition, big-endian
    conversion between bytes and the 64-bit state, and zero padding to whole
    8-byte blocks.

    Bit and nibble positions count from the least significant end, as the
    shifts of the source do: nibble i is state bits 4i+3..4i and bit i is
    `(state >> i) & 1`.  Every loop of the source over bit or nibble positions
    is modelled by a function recursive in a `bv64` loop counter, so that the
    counter is used as a shift amount without a conversion. */
module Present {

  type Byte = bv8

  /** One 64-bit block, the state the round function works on. */
  type State = bv64

  /** The block size; the engine files call it BLOCK_SIZE_IN_BYTES. */
  const BLOCK_SIZE_IN_BYTES: nat := 8

  /** The number of full rounds (31); a final key addition follows them. */
  const NUM_ROUNDS: bv64 := 31

  /* ---------------------------------------------------------------------- */
  /* The S-box                                                               */
  /* ---------------------------------------------------------------------- */

  /** The table S_BOX, indexed by a nibble. */
  function SBox(x: bv4): bv4 {
    match x
    case 0 => 0xC case 1 => 0x5 case 2 => 0x6 case 3 => 0xB
    case 4 => 0x9 case 5 => 0x0 case 6 => 0xA case 7 => 0xD
    case 8 => 0x3 case 9 => 0xE case 10 => 0xF case 11 => 0x8
    case 12 => 0x4 case 13 => 0x7 case 14 => 0x1 case _ => 0x2  // entry 15
  }

  /** The point inverse of S_BOX; used only to prove that S_BOX is onto. */
  ghost function SBoxInverse(y: bv4): bv4 {
    match y
    case 0xC => 0 case 0x5 => 1 case 0x6 => 2 case 0xB => 3
    case 0x9 => 4 case 0x0 => 5 case 0xA => 6 case 0xD => 7
    case 0x3 => 8 case 0xE => 9 case 0xF => 10 case 0x8 => 11
    case 0x4 => 12 case 0x7 => 13 case 0x1 => 14 case _ => 15  // entry 0x2
  }

  /** S_BOX is a permutation of the sixteen nibble values: SBoxInverse undoes
      it on both sides, so it is one-to-one and onto. */
  lemma SBoxIsPermutation()
    ensures forall x: bv4 :: SBoxInverse(SBox(x)) == x
    ensures forall y: bv4 :: SBox(SBoxInverse(y)) == y
    ensures forall x: bv4, y: bv4 :: SBox(x) == SBox(y) ==> x == y
  {
    forall x: bv4, y: bv4 | SBox(x) == SBox(y)
      ensures x == y
    {
      assert SBoxInverse(SBox(x)) == x && SBoxInverse(SBox(y)) == y;
    }
  }

  /* ---------------------------------------------------------------------- */
  /* The S-box layer                                                         */
  /* ---------------------------------------------------------------------- */

  /** Nibble i of a state (state bits 4i+3..4i). */
  function Nibble(s: State, i: bv64): bv4
    requires i < 16
  {
    ((s >> (i * 4)) & 0xF) as bv4
  }

  /** The bits of s below position 4n: its nibbles 0..n-1. */
  function LowNibbles(s: State, n: bv64): State
    requires n <= 16
  {
    s & ((1 << (n * 4)) - 1)
  }

  /** A state is determined by its sixteen nibbles: the low n nibbles agree. */
  lemma {:induction false} LowNibblesAgree(s: State, t: State, n: bv64)
    requires n <= 16
    requires forall i: bv64 :: i < 16 ==> Nibble(s, i) == Nibble(t, i)
    ensures LowNibbles(s, n) == LowNibbles(t, n)
    decreases n
  {
    if n > 0 {
      LowNibblesAgree(s, t, n - 1);
      assert Nibble(s, n - 1) == Nibble(t, n - 1);
    }
  }

  /** Two states with the same sixteen nibbles are equal. */
  lemma NibblesDetermineState(s: State, t: State)
    requires forall i: bv64 :: i < 16 ==> Nibble(s, i) == Nibble(t, i)
    ensures s == t
  {
    LowNibblesAgree(s, t, 16);
  }

  /** One iteration (i) of the S-box layer's loop: nibble i of the state put
      through S_BOX and shifted back into place, every other bit zero. */
  function SubstitutedNibble(state: State, i: bv64): State
    requires i < 16
  {
    var shift := i * 4;
    var mask := 0xF << shift;
    var x := (state & mask) >> shift;
    var y := SBox(x as bv4) as bv64;
    y << shift
  }

  /** The value of new_state after the first n iterations of the loop. */
  function SBoxLayerLoop(state: State, n: bv64): State
    requires n <= 16
    decreases n
  {
    if n == 0 then 0 else SBoxLayerLoop(state, n - 1) | SubstitutedNibble(state, n - 1)
  }

  lemma SubstitutedNibbleAt(state: State, i: bv64, j: bv64)
    requires i < 16 && j < 16
    ensures Nibble(SubstitutedNibble(state, j), i) == if i == j then SBox(Nibble(state, i)) else 0
  {
  }

  lemma NibbleOfOr(x: State, y: State, i: bv64)
    requires i < 16
    ensures Nibble(x | y, i) == Nibble(x, i) | Nibble(y, i)
  {
  }

  /** Loop invariant of the S-box layer, for nibble i: after n iterations
      nibbles 0..n-1 hold their substitutes and the others are still zero. */
  lemma {:induction false} SBoxLayerLoopNibble(state: State, n: bv64, i: bv64)
    requires n <= 16 && i < 16
    ensures Nibble(SBoxLayerLoop(state, n), i) == if i < n then SBox(Nibble(state, i)) else 0
    decreases n
  {
    if n > 0 {
      SBoxLayerLoopNibble(state, n - 1, i);
      NibbleOfOr(SBoxLayerLoop(state, n - 1), SubstitutedNibble(state, n - 1), i);
      SubstitutedNibbleAt(state, i, n - 1);
    }
  }

  /** s_box_layer: every nibble of the state is replaced by its S_BOX image,
      each independently of the others. */
  function SBoxLayer(state: State): (r: State)
    ensures forall i: bv64 :: i < 16 ==> Nibble(r, i) == SBox(Nibble(state, i))
  {
    forall i: bv64 | i < 16
      ensures Nibble(SBoxLayerLoop(state, 16), i) == SBox(Nibble(state, i))
    {
      SBoxLayerLoopNibble(state, 16, i);
    }
    SBoxLayerLoop(state, 16)
  }

  /** The substitution layer loses no information. */
  lemma SBoxLayerInjective(s: State, t: State)
    requires SBoxLayer(s) == SBoxLayer(t)
    ensures s == t
  {
    SBoxIsPermutation();
    forall i: bv64 | i < 16
      ensures Nibble(s, i) == Nibble(t, i)
    {
      assert SBox(Nibble(s, i)) == Nibble(SBoxLayer(s), i);
    }
    NibblesDetermineState(s, t);
  }

  /** The nibble-wise description determines the layer's output: a state whose
      nibbles are the substitutes of those of s is SBoxLayer(s). */
  lemma SBoxLayerIs(s: State, r: State)
    requires forall i: bv64 :: i < 16 ==> Nibble(r, i) == SBox(Nibble(s, i))
    ensures SBoxLayer(s) == r
  {
    NibblesDetermineState(SBoxLayer(s), r);
  }

  /** The S-box layer test vector of src/lib.rs. */
  lemma SBoxLayerExample()
    ensures SBoxLayer(0x0123456789ABCDEF) == 0xC56B90AD3EF84712
  {
    assert forall i: bv64 :: i < 16 ==> Nibble(0xC56B90AD3EF84712, i) == SBox(Nibble(0x0123456789ABCDEF, i));
    SBoxLayerIs(0x0123456789ABCDEF, 0xC56B90AD3EF84712);
  }

  /* ---------------------------------------------------------------------- */
  /* The bit permutation                                                     */
  /* ---------------------------------------------------------------------- */

  /** The table P: source bit i of the state goes to bit P(i).  The table's
      entries are 16 * (i mod 4) + i / 4, computed here with shifts; PTable
      lists them. */
  function P(i: bv64): (j: bv64)
    requires i < 64
    ensures j < 64
  {
    ((i & 3) << 4) | (i >> 2)
  }

  /** The 64 entries of the table P, in order. */
  lemma PTable()
    ensures P(0) == 0 && P(1) == 16 && P(2) == 32 && P(3) == 48 && P(4) == 1 && P(5) == 17 && P(6) == 33 && P(7) == 49
    ensures P(8) == 2 && P(9) == 18 && P(10) == 34 && P(11) == 50 && P(12) == 3 && P(13) == 19 && P(14) == 35 && P(15) == 51
    ensures P(16) == 4 && P(17) == 20 && P(18) == 36 && P(19) == 52 && P(20) == 5 && P(21) == 21 && P(22) == 37 && P(23) == 53
    ensures P(24) == 6 && P(25) == 22 && P(26) == 38 && P(27) == 54 && P(28) == 7 && P(29) == 23 && P(30) == 39 && P(31) == 55
    ensures P(32) == 8 && P(33) == 24 && P(34) == 40 && P(35) == 56 && P(36) == 9 && P(37) == 25 && P(38) == 41 && P(39) == 57
    ensures P(40) == 10 && P(41) == 26 && P(42) == 42 && P(43) == 58 && P(44) == 11 && P(45) == 27 && P(46) == 43 && P(47) == 59
    ensures P(48) == 12 && P(49) == 28 && P(50) == 44 && P(51) == 60 && P(52) == 13 && P(53) == 29 && P(54) == 45 && P(55) == 61
    ensures P(56) == 14 && P(57) == 30 && P(58) == 46 && P(59) == 62 && P(60) == 15 && P(61) == 31 && P(62) == 47 && P(63) == 63
  {
  }

  /** The entries of P follow the formula 16 * (i mod 4) + i / 4. */
  lemma PFormula(i: bv64)
    requires i < 64
    ensures P(i) == 16 * (i % 4) + i / 4
  {
  }

  /** The positional inverse of P: 4 * (j mod 16) + j / 16. */
  ghost function PInverse(j: bv64): bv64
    requires j < 64
  {
    ((j & 15) << 2) | (j >> 4)
  }

  lemma PInverseOfP(i: bv64)
    requires i < 64
    ensures P(i) < 64 && PInverse(P(i)) == i
  {
  }

  lemma POfPInverse(j: bv64)
    requires j < 64
    ensures PInverse(j) < 64 && P(PInverse(j)) == j
  {
  }

  /** The table P is a permutation of 0..63, PInverse being its inverse. */
  lemma PIsPermutation()
    ensures forall i: bv64 :: i < 64 ==> P(i) < 64 && PInverse(P(i)) == i
    ensures forall j: bv64 :: j < 64 ==> PInverse(j) < 64 && P(PInverse(j)) == j
    ensures forall i: bv64, k: bv64 :: i < 64 && k < 64 && P(i) == P(k) ==> i == k
  {
    forall i: bv64 | i < 64
      ensures P(i) < 64 && PInverse(P(i)) == i
    {
      PInverseOfP(i);
    }
    forall j: bv64 | j < 64
      ensures PInverse(j) < 64 && P(PInverse(j)) == j
    {
      POfPInverse(j);
    }
  }

  /** Bit i of a state. */
  function Bit(s: State, i: bv64): bool
    requires i < 64
  {
    (s >> i) & 1 == 1
  }

  /** The bits of s below position n. */
  function LowBits(s: State, n: bv64): State
    requires n <= 64
  {
    s & ((1 << n) - 1)
  }

  lemma {:induction false} LowBitsAgree(s: State, t: State, n: bv64)
    requires n <= 64
    requires forall i: bv64 :: i < 64 ==> Bit(s, i) == Bit(t, i)
    ensures LowBits(s, n) == LowBits(t, n)
    decreases n
  {
    if n > 0 {
      LowBitsAgree(s, t, n - 1);
      assert Bit(s, n - 1) == Bit(t, n - 1);
    }
  }

  /** Two states with the same 64 bits are equal. */
  lemma BitsDetermineState(s: State, t: State)
    requires forall i: bv64 :: i < 64 ==> Bit(s, i) == Bit(t, i)
    ensures s == t
  {
    LowBitsAgree(s, t, 64);
  }

  /** One iteration (i) of the P-layer's loop: bit i of the state moved to
      position P(i), every other bit zero. */
  function MovedBit(state: State, i: bv64): State
    requires i < 64
  {
    var mask := 1 << i;
    var x := (state & mask) >> i;
    x << P(i)
  }

  /** The value of new_state after the first n iterations of the loop. */
  function PLayerLoop(state: State, n: bv64): State
    requires n <= 64
    decreases n
  {
    if n == 0 then 0 else PLayerLoop(state, n - 1) | MovedBit(state, n - 1)
  }

  lemma ShiftedBitAt(state: State, i: bv64, p: bv64, t: bv64)
    requires i < 64 && p < 64 && t < 64
    ensures Bit(((state & (1 << i)) >> i) << p, t) == (t == p && Bit(state, i))
  {
  }

  lemma MovedBitAt(state: State, i: bv64, t: bv64)
    requires i < 64 && t < 64
    ensures Bit(MovedBit(state, i), t) == (t == P(i) && Bit(state, i))
  {
    ShiftedBitAt(state, i, P(i), t);
  }

  lemma BitOfOr(x: State, y: State, t: bv64)
    requires t < 64
    ensures Bit(x | y, t) == (Bit(x, t) || Bit(y, t))
  {
  }

  /** Loop invariant of the P-layer, for target bit t: after n iterations it
      holds source bit PInverse(t) if that bit has been moved yet, else zero. */
  lemma {:induction false} PLayerLoopBit(state: State, n: bv64, t: bv64)
    requires n <= 64 && t < 64
    ensures Bit(PLayerLoop(state, n), t) == (PInverse(t) < n && Bit(state, PInverse(t)))
    decreases n
  {
    if n > 0 {
      PLayerLoopBit(state, n - 1, t);
      BitOfOr(PLayerLoop(state, n - 1), MovedBit(state, n - 1), t);
      MovedBitAt(state, n - 1, t);
      PInverseOfP(n - 1);
      POfPInverse(t);
    }
  }

  /** p_layer: bit i of the state becomes bit P(i) of the result. */
  function PLayer(state: State): (r: State)
    ensures forall i: bv64 :: i < 64 ==> Bit(r, P(i)) == Bit(state, i)
  {
    forall i: bv64 | i < 64
      ensures Bit(PLayerLoop(state, 64), P(i)) == Bit(state, i)
    {
      PLayerLoopBit(state, 64, P(i));
      PInverseOfP(i);
    }
    PLayerLoop(state, 64)
  }

  /** The P-layer loses no information. */
  lemma PLayerInjective(s: State, t: State)
    requires PLayer(s) == PLayer(t)
    ensures s == t
  {
    forall i: bv64 | i < 64
      ensures Bit(s, i) == Bit(t, i)
    {
      assert Bit(s, i) == Bit(PLayer(s), P(i));
    }
    BitsDetermineState(s, t);
  }

  /** The bit-wise description determines the layer's output. */
  lemma PLayerIs(s: State, r: State)
    requires forall i: bv64 :: i < 64 ==> Bit(r, P(i)) == Bit(s, i)
    ensures PLayer(s) == r
  {
    PIsPermutation();
    forall t: bv64 | t < 64
      ensures Bit(PLayer(s), t) == Bit(r, t)
    {
      assert t == P(PInverse(t));
    }
    BitsDetermineState(PLayer(s), r);
  }

  /** The P-layer test vector of src/lib.rs. */
  lemma PLayerExample()
    ensures PLayer(0xAAAAAAAAAAAAAAAA) == 0xFFFF0000FFFF0000
  {
    PLayerIs(0xAAAAAAAAAAAAAAAA, 0xFFFF0000FFFF0000);
  }

  /** The positions below n of the set bits of a state. */
  ghost function SetBitsBelow(s: State, n: bv64): set<bv64>
    requires n <= 64
    decreases n
  {
    if n == 0 then {}
    else if Bit(s, n - 1) then SetBitsBelow(s, n - 1) + {n - 1}
    else SetBitsBelow(s, n - 1)
  }

  lemma {:induction false} InSetBitsBelow(s: State, n: bv64, t: bv64)
    requires n <= 64
    ensures t in SetBitsBelow(s, n) <==> t < n && Bit(s, t)
    decreases n
  {
    if n > 0 {
      InSetBitsBelow(s, n - 1, t);
    }
  }

  /** The positions of the set bits of a state; its size is the number of
      set bits. */
  ghost function SetBits(s: State): set<bv64> {
    SetBitsBelow(s, 64)
  }

  /** The image of a set of bit positions under P. */
  ghost function MovedPositions(positions: set<bv64>): set<bv64>
    requires forall i :: i in positions ==> i < 64
  {
    set i | i in positions :: P(i)
  }

  /** Moving the set bits below n through P keeps their number, because P
      is one-to-one. */
  lemma {:induction false} MovedSetBitsSize(s: State, n: bv64)
    requires n <= 64
    ensures forall i :: i in SetBitsBelow(s, n) ==> i < 64
    ensures |MovedPositions(SetBitsBelow(s, n))| == |SetBitsBelow(s, n)|
    decreases n
  {
    if n > 0 {
      MovedSetBitsSize(s, n - 1);
      var below := SetBitsBelow(s, n - 1);
      if Bit(s, n - 1) {
        var x := n - 1;
        forall k | k in below
          ensures P(k) != P(x)
        {
          InSetBitsBelow(s, n - 1, k);
          PInverseOfP(k);
          PInverseOfP(x);
        }
        assert MovedPositions(below + {x}) == MovedPositions(below) + {P(x)};
      }
    }
  }

  /** The P-layer preserves the number of set bits. */
  lemma PLayerPreservesPopCount(s: State)
    ensures |SetBits(PLayer(s))| == |SetBits(s)|
  {
    MovedSetBitsSize(s, 64);
    var moved := MovedPositions(SetBits(s));
    forall t | t in SetBits(PLayer(s))
      ensures t in moved
    {
      InSetBitsBelow(PLayer(s), 64, t);
      POfPInverse(t);
      InSetBitsBelow(s, 64, PInverse(t));
    }
    forall t | t in moved
      ensures t in SetBits(PLayer(s))
    {
      var i :| i in SetBits(s) && t == P(i);
      InSetBitsBelow(s, 64, i);
      InSetBitsBelow(PLayer(s), 64, t);
    }
    assert SetBits(PLayer(s)) == moved;
    MovedSetBitsSize(s, 64);
  }

  /* ---------------------------------------------------------------------- */
  /* Round-key addition                                                      */
  /* ---------------------------------------------------------------------- */

  /** add_round_key: the state XOR-ed with the round key.  Any two of state,
      round key and result determine the third. */
  function AddRoundKey(state: State, roundKey: bv64): (r: State)
    ensures r ^ roundKey == state
    ensures r ^ state == roundKey
  {
    state ^ roundKey
  }

  /** Adding the same round key twice gives back the state. */
  lemma AddRoundKeyInvolution(state: State, roundKey: bv64)
    ensures AddRoundKey(AddRoundKey(state, roundKey), roundKey) == state
  {
  }

  /** The round-key test vector of src/lib.rs. */
  lemma AddRoundKeyExample()
    ensures AddRoundKey(0x3333333333333333, 0x5555555555555555) == 0x6666666666666666
  {
  }

  /* ---------------------------------------------------------------------- */
  /* Bytes and states                                                        */
  /* ---------------------------------------------------------------------- */

  /** The state after the first n iterations of bytes_to_state's loop:
      byte i is or-ed in at shift (7 - i) * 8. */
  function BytesToStateLoop(bytes: seq<Byte>, n: bv64): State
    requires |bytes| >= 8 && n <= 8
  {
    if n == 0 then 0
    else BytesToStateLoop(bytes, n - 1) | ((bytes[(n - 1) as int] as bv64) << ((7 - (n - 1)) * 8))
  }

  /** The first eight bytes of a sequence, most significant first, as a state. */
  function PackBigEndian(bytes: seq<Byte>): State
    requires |bytes| >= 8
  {
    (bytes[0] as bv64 << 56) | (bytes[1] as bv64 << 48) | (bytes[2] as bv64 << 40) | (bytes[3] as bv64 << 32) |
    (bytes[4] as bv64 << 24) | (bytes[5] as bv64 << 16) | (bytes[6] as bv64 << 8) | (bytes[7] as bv64)
  }

  /** One iteration of bytes_to_state's loop. */
  lemma BytesToStateLoopStep(bytes: seq<Byte>, n: bv64)
    requires |bytes| >= 8 && 1 <= n <= 8
    ensures BytesToStateLoop(bytes, n) == BytesToStateLoop(bytes, n - 1) | ((bytes[(n - 1) as int] as bv64) << ((8 - n) * 8))
  {
  }

  /** The eight iterations of bytes_to_state's loop, one by one. */
  lemma BytesToStateLoopUnrolled(bytes: seq<Byte>)
    requires |bytes| >= 8
    ensures BytesToStateLoop(bytes, 8) == PackBigEndian(bytes)
  {
    assert BytesToStateLoop(bytes, 0) == 0;
    BytesToStateLoopStep(bytes, 1);
    BytesToStateLoopStep(bytes, 2);
    BytesToStateLoopStep(bytes, 3);
    BytesToStateLoopStep(bytes, 4);
    BytesToStateLoopStep(bytes, 5);
    BytesToStateLoopStep(bytes, 6);
    BytesToStateLoopStep(bytes, 7);
    BytesToStateLoopStep(bytes, 8);
  }

  /** The bytes after the iterations i.. of state_to_bytes's loop: byte i
      becomes bits (7 - i) * 8 + 7 .. (7 - i) * 8 of the state. */
  function StateToBytesLoop(state: State, i: bv64, bytes: seq<Byte>): (r: seq<Byte>)
    requires i <= 8 && |bytes| == 8
    ensures |r| == 8
    decreases 8 - i
  {
    if i == 8 then bytes
    else StateToBytesLoop(state, i + 1, bytes[i as int := ((state >> ((7 - i) * 8)) & 0xff) as bv8])
  }

  /** The eight bytes of a state, most significant first. */
  function UnpackBigEndian(s: State): seq<Byte> {
    [(s >> 56) as bv8, ((s >> 48) & 0xff) as bv8, ((s >> 40) & 0xff) as bv8, ((s >> 32) & 0xff) as bv8,
     ((s >> 24) & 0xff) as bv8, ((s >> 16) & 0xff) as bv8, ((s >> 8) & 0xff) as bv8, (s & 0xff) as bv8]
  }

  /** After the iterations i.. of state_to_bytes's loop, the bytes before i
      are as they were and byte k from i on is the k-th big-endian byte. */
  lemma {:induction false} StateToBytesLoopByte(s: State, i: bv64, bytes: seq<Byte>, k: int)
    requires i <= 8 && |bytes| == 8 && 0 <= k < 8
    ensures StateToBytesLoop(s, i, bytes)[k] == if k < i as int then bytes[k] else UnpackBigEndian(s)[k]
    decreases 8 - i
  {
    if i < 8 {
      StateToBytesLoopByte(s, i + 1, bytes[i as int := ((s >> ((7 - i) * 8)) & 0xff) as bv8], k);
    }
  }

  /** The whole of state_to_bytes's loop writes the big-endian bytes. */
  lemma StateToBytesLoopUnrolled(s: State)
    ensures StateToBytesLoop(s, 0, [0, 0, 0, 0, 0, 0, 0, 0]) == UnpackBigEndian(s)
  {
    forall k | 0 <= k < 8
      ensures StateToBytesLoop(s, 0, [0, 0, 0, 0, 0, 0, 0, 0])[k] == UnpackBigEndian(s)[k]
    {
      StateToBytesLoopByte(s, 0, [0, 0, 0, 0, 0, 0, 0, 0], k);
    }
  }

  /** state_to_bytes: the state as eight bytes, most significant first. */
  function StateToBytes(state: State): (bytes: seq<Byte>)
    ensures bytes == UnpackBigEndian(state)
  {
    StateToBytesLoopUnrolled(state);
    StateToBytesLoop(state, 0, [0, 0, 0, 0, 0, 0, 0, 0])
  }

  /** Packing eight bytes and unpacking the state gives the bytes back. */
  lemma UnpackPackBigEndian(bytes: seq<Byte>)
    requires |bytes| >= 8
    ensures UnpackBigEndian(PackBigEndian(bytes)) == bytes[..8]
  {
  }

  /** bytes_to_state: the first eight bytes, read big-endian; the source
      indexes bytes 0..7 and so needs at least eight.  It reads exactly the
      bytes that StateToBytes writes back. */
  function BytesToState(bytes: seq<Byte>): (state: State)
    requires |bytes| >= 8
    ensures StateToBytes(state) == bytes[..8]
  {
    BytesToStateLoopUnrolled(bytes);
    StateToBytesLoopUnrolled(PackBigEndian(bytes));
    UnpackPackBigEndian(bytes);
    BytesToStateLoop(bytes, 8)
  }

  /** Converting a state to bytes and back gives the state. */
  lemma StateToBytesRoundTrip(s: State)
    ensures BytesToState(StateToBytes(s)) == s
  {
    StateToBytesLoopUnrolled(s);
    BytesToStateLoopUnrolled(UnpackBigEndian(s));
  }

  /** Different states give different bytes. */
  lemma StateToBytesInjective(s: State, t: State)
    requires StateToBytes(s) == StateToBytes(t)
    ensures s == t
  {
    StateToBytesRoundTrip(s);
    StateToBytesRoundTrip(t);
  }

  /** Converting eight bytes to a state and back gives the bytes. */
  lemma BytesToStateRoundTrip(bytes: seq<Byte>)
    requires |bytes| == 8
    ensures StateToBytes(BytesToState(bytes)) == bytes
  {
    assert bytes[..8] == bytes;
  }

  /** Only the first eight bytes count. */
  lemma BytesToStateReadsEightBytes(bytes: seq<Byte>)
    requires |bytes| >= 8
    ensures BytesToState(bytes) == BytesToState(bytes[..8])
  {
    BytesToStateLoopUnrolled(bytes);
    BytesToStateLoopUnrolled(bytes[..8]);
  }

  /** The conversion test vectors of src/lib.rs. */
  lemma ConversionExamples()
    ensures BytesToState([0x30, 0, 0, 0, 0, 0, 0, 0]) == 0x3000000000000000
    ensures StateToBytes(0x3041000000000000) == [48, 65, 0, 0, 0, 0, 0, 0]
  {
    BytesToStateLoopUnrolled([0x30, 0, 0, 0, 0, 0, 0, 0]);
    StateToBytesLoopUnrolled(0x3041000000000000);
  }

  /* ---------------------------------------------------------------------- */
  /* Padding                                                                 */
  /* ---------------------------------------------------------------------- */

  /** n zero bytes. */
  function Zeros(n: nat): (z: seq<Byte>)
    ensures |z| == n && forall i :: 0 <= i < n ==> z[i] == 0
  {
    seq(n, _ => 0)
  }

  /** pad: the data followed by the fewest zero bytes that make its length a
      multiple of the block size. */
  function Pad(data: seq<Byte>): (padded: seq<Byte>)
    ensures |padded| % 8 == 0
    ensures |data| <= |padded| < |data| + 8
    ensures padded[..|data|] == data
    ensures forall i :: |data| <= i < |padded| ==> padded[i] == 0
  {
    var numBlocks :=
      match (|data| / 8, |data| % 8)
      case (quo, 0) => quo
      case (quo, _) => quo + 1;
    data + Zeros(numBlocks * 8 - |data|)
  }

  /** No multiple of the block size between |data| and |Pad(data)| is skipped:
      the padded length is the least one at least |data|. */
  lemma PadIsShortest(data: seq<Byte>, m: nat)
    requires m % 8 == 0 && |data| <= m
    ensures |Pad(data)| <= m
  {
  }

  /** Block-aligned data, the empty sequence included, is left unchanged. */
  lemma PadAligned(data: seq<Byte>)
    requires |data| % 8 == 0
    ensures Pad(data) == data
  {
    assert Pad(data)[..|data|] == data;
  }

  /** Padding twice is padding once. */
  lemma PadIdempotent(data: seq<Byte>)
    ensures Pad(Pad(data)) == Pad(data)
  {
    PadAligned(Pad(data));
  }

  /** The padding test vectors of src/lib.rs. */
  lemma PadExamples()
    ensures Pad([117, 121, 97, 105, 106]) == [117, 121, 97, 105, 106, 0, 0, 0]
    ensures Pad([103, 110, 105, 121, 103, 110, 111, 114]) == [103, 110, 105, 121, 103, 110, 111, 114]
    ensures Pad([121, 114, 114, 101, 104, 115, 105, 121, 110, 101, 119, 121, 97, 116])
         == [121, 114, 114, 101, 104, 115, 105, 121, 110, 101, 119, 121, 97, 116, 0, 0]
  {
    PadAligned([103, 110, 105, 121, 103, 110, 111, 114]);
  }

  /** An aligned prefix passes through padding untouched. */
  lemma PadAfterAlignedPrefix(prefix: seq<Byte>, data: seq<Byte>)
    requires |prefix| % 8 == 0
    ensures Pad(prefix + data) == prefix + Pad(data)
  {
    var padded := Pad(prefix + data);
    var expected := prefix + Pad(data);
    assert |padded| == |expected|;
    forall i | 0 <= i < |padded|
      ensures padded[i] == expected[i]
    {
      if i < |prefix| + |data| {
        assert padded[..|prefix + data|][i] == (prefix + data)[i];
        if i >= |prefix| {
          assert Pad(data)[..|data|][i - |prefix|] == data[i - |prefix|];
        }
      }
    }
  }

  /* ---------------------------------------------------------------------- */
  /* Blocks                                                                  */
  /* ---------------------------------------------------------------------- */

  /** Block i of a byte sequence: bytes 8 * i .. 8 * i + 8. */
  function Block(s: seq<Byte>, i: nat): (block: seq<Byte>)
    requires 8 * i + 8 <= |s|
    ensures |block| == BLOCK_SIZE_IN_BYTES
  {
    s[8 * i .. 8 * i + 8]
  }

  /** Appending bytes does not change the blocks already there. */
  lemma BlocksOfConcat(u: seq<Byte>, v: seq<Byte>)
    ensures forall i: nat :: 8 * i + 8 <= |u| ==> Block(u + v, i) == Block(u, i)
  {
    forall i: nat | 8 * i + 8 <= |u|
      ensures Block(u + v, i) == Block(u, i)
    {
      assert (u + v)[8 * i .. 8 * i + 8] == u[8 * i .. 8 * i + 8];
    }
  }

  /** The last block of an aligned sequence ending in b is b. */
  lemma LastBlockOfConcat(u: seq<Byte>, b: seq<Byte>, m: nat)
    requires |u| == 8 * m && |b| == 8
    ensures Block(u + b, m) == b
  {
  }

  /** Blocks past an aligned prefix are the blocks of what follows it. */
  lemma BlocksAfterAlignedPrefix(u: seq<Byte>, v: seq<Byte>, m: nat)
    requires |u| == 8 * m
    ensures forall j: nat :: 8 * j + 8 <= |v| ==> Block(u + v, m + j) == Block(v, j)
  {
    forall j: nat | 8 * j + 8 <= |v|
      ensures Block(u + v, m + j) == Block(v, j)
    {
      assert (u + v)[8 * (m + j) .. 8 * (m + j) + 8] == v[8 * j .. 8 * j + 8];
    }
  }

  /** The first n blocks of s, each passed through the block function f, in
      order: the shape of electronic-codebook mode. */
  function MapBlocks(s: seq<Byte>, f: seq<Byte> -> seq<Byte>, n: nat): (r: seq<Byte>)
    requires 8 * n <= |s|
    requires forall block :: |f(block)| == BLOCK_SIZE_IN_BYTES
    ensures |r| == 8 * n
  {
    if n == 0 then [] else MapBlocks(s, f, n - 1) + f(Block(s, n - 1))
  }

  /** Block i of the result is f applied to block i of the input. */
  lemma {:induction false} MapBlocksContent(s: seq<Byte>, f: seq<Byte> -> seq<Byte>, n: nat)
    requires 8 * n <= |s|
    requires forall block :: |f(block)| == BLOCK_SIZE_IN_BYTES
    ensures forall i: nat :: i < n ==> Block(MapBlocks(s, f, n), i) == f(Block(s, i))
  {
    if n > 0 {
      var previous := MapBlocks(s, f, n - 1);
      var last := f(Block(s, n - 1));
      MapBlocksContent(s, f, n - 1);
      BlocksOfConcat(previous, last);
      LastBlockOfConcat(previous, last, n - 1);
    }
  }

  /** Mapping the first n blocks reads nothing past them. */
  lemma {:induction false} MapBlocksOfPrefix(u: seq<Byte>, v: seq<Byte>, f: seq<Byte> -> seq<Byte>, n: nat)
    requires 8 * n <= |u|
    requires forall block :: |f(block)| == BLOCK_SIZE_IN_BYTES
    ensures MapBlocks(u + v, f, n) == MapBlocks(u, f, n)
  {
    if n > 0 {
      MapBlocksOfPrefix(u, v, f, n - 1);
      BlocksOfConcat(u, v);
      assert Block(u + v, n - 1) == Block(u, n - 1);
    }
  }

  /** Mapping the blocks of an aligned sequence followed by more bytes maps
      each part on its own. */
  lemma {:induction false} MapBlocksConcat(u: seq<Byte>, v: seq<Byte>, f: seq<Byte> -> seq<Byte>, m: nat, k: nat)
    requires |u| == 8 * m && 8 * k <= |v|
    requires forall block :: |f(block)| == BLOCK_SIZE_IN_BYTES
    ensures MapBlocks(u + v, f, m + k) == MapBlocks(u, f, m) + MapBlocks(v, f, k)
  {
    if k == 0 {
      MapBlocksOfPrefix(u, v, f, m);
    } else {
      MapBlocksConcat(u, v, f, m, k - 1);
      BlocksAfterAlignedPrefix(u, v, m);
      assert Block(u + v, m + (k - 1)) == Block(v, k - 1);
      assert MapBlocks(u + v, f, m + k) == MapBlocks(u + v, f, m + k - 1) + f(Block(u + v, m + k - 1));
    }
  }
}
