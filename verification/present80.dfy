/** PRESENT-80 as src/present80.rs implements it: the 10-byte key, the 80-bit
    key register held in two 64-bit words, the 31-round encryption and the
    block and ECB wrappers. */
module Present80 {
  import opened Present
  import opened KeyLoad

  const KEY_LENGTH_IN_BYTES: nat := 10

  type KeyBytes = s: seq<Byte> | |s| == KEY_LENGTH_IN_BYTES witness [0, 0, 0, 0, 0, 0, 0, 0, 0, 0]

  /** A PRESENT-80 key: exactly ten bytes. */
  datatype Key = Key(bytes: KeyBytes)

  /* ---------------------------------------------------------------------- */
  /* Keys                                                                    */
  /* ---------------------------------------------------------------------- */

  /** Key::new: the first min(|bytes|, 10) bytes, then zeros. */
  function NewKey(bytes: seq<Byte>): (key: Key)
    ensures forall i :: 0 <= i < KEY_LENGTH_IN_BYTES ==> key.bytes[i] == if i < |bytes| then bytes[i] else 0
  {
    Key(FitKeyBytes(bytes, KEY_LENGTH_IN_BYTES))
  }

  /** The empty input gives the all-zero key. */
  lemma NewKeyEmpty()
    ensures NewKey([]) == Key(Zeros(KEY_LENGTH_IN_BYTES))
  {
  }

  /** A longer input behaves like its first ten bytes. */
  lemma NewKeyTruncates(bytes: seq<Byte>)
    requires |bytes| >= KEY_LENGTH_IN_BYTES
    ensures NewKey(bytes) == NewKey(bytes[..KEY_LENGTH_IN_BYTES])
  {
    FitKeyBytesTruncates(bytes, KEY_LENGTH_IN_BYTES);
  }

  /** Rebuilding a key from its own bytes gives the key. */
  lemma NewKeyOfKeyBytes(key: Key)
    ensures NewKey(key.bytes) == key
  {
    FitKeyBytesKeepsFullKey(key.bytes);
  }

  /* ---------------------------------------------------------------------- */
  /* The key register                                                        */
  /* ---------------------------------------------------------------------- */

  /** The 80-bit key register: `a` holds register bits 79..16 and the top 16
      bits of `b` hold bits 15..0. */
  datatype KeyRegister = KeyRegister(a: bv64, b: bv64) {
    /** The 80-bit register the two words stand for. */
    function View(): bv80 {
      ((a as bv80) << 16) | ((b >> 48) as bv80)
    }

    /** The low 48 bits of `b`, which lie outside the register, are zero. */
    predicate Aligned() {
      b & 0xFFFF_FFFF_FFFF == 0
    }
  }

  /** The leftmost 64 bits of an 80-bit key register: its round key. */
  function TopBits(k: bv80): bv64 {
    (k >> 16) as bv64
  }

  /** The round key is the leftmost 64 bits of the register, which is word a. */
  lemma RoundKeyIsTopOfView(reg: KeyRegister)
    ensures reg.a == TopBits(reg.View())
  {
  }

  /** The loading loop over a ten-byte key, in closed form. */
  lemma LoadKeyLoop80(bytes: KeyBytes)
    ensures LoadKeyLoop(bytes, 10).0 == BytesToState(bytes) == PackBigEndian(bytes)
    ensures LoadKeyLoop(bytes, 10).1 == ((bytes[8] as bv64) << 56) | ((bytes[9] as bv64) << 48)
  {
    LoadKeyFirstWord(bytes);
    LoadKeyLoopStep(bytes, 9);
    LoadKeyLoopStep(bytes, 10);
    BytesToStateLoopUnrolled(bytes);
  }

  /** The bytes of a word whose top two bytes are x and y and whose other
      bytes are zero; such a word is aligned. */
  lemma TopTwoBytes(x: Byte, y: Byte)
    ensures StateToBytes(((x as bv64) << 56) | ((y as bv64) << 48)) == [x, y] + Zeros(6)
    ensures KeyRegister(0, ((x as bv64) << 56) | ((y as bv64) << 48)).Aligned()
  {
    StateToBytesLoopUnrolled(((x as bv64) << 56) | ((y as bv64) << 48));
  }

  /** What the loading loop leaves in each word for a ten-byte key. */
  lemma LoadKeyWords80(bytes: KeyBytes)
    ensures LoadKeyLoop(bytes, 10).0 == BytesToState(bytes)
    ensures StateToBytes(LoadKeyLoop(bytes, 10).1) == bytes[8..] + Zeros(6)
    ensures KeyRegister(0, LoadKeyLoop(bytes, 10).1).Aligned()
  {
    LoadKeyLoop80(bytes);
    TopTwoBytes(bytes[8], bytes[9]);
    assert bytes[8..] == [bytes[8], bytes[9]];
  }

  /** KeyRegister::from for PRESENT-80: key bytes 0..7 fill a and bytes 8..9
      fill the top of b, most significant first. */
  function FromKey(key: Key): (reg: KeyRegister)
    ensures reg.a == BytesToState(key.bytes)
    ensures StateToBytes(reg.a) + StateToBytes(reg.b) == key.bytes + Zeros(6)
    ensures reg.Aligned()
  {
    var bytes := key.bytes;
    var words := LoadKeyLoop(bytes, 10);
    LoadKeyWords80(bytes);
    assert bytes + Zeros(6) == bytes[..8] + (bytes[8..] + Zeros(6));
    KeyRegister(words.0, words.1)
  }

  /** The register loaded from a key, in closed form. */
  lemma FromKeyIs(key: Key)
    ensures FromKey(key).a == PackBigEndian(key.bytes)
    ensures FromKey(key).b == ((key.bytes[8] as bv64) << 56) | ((key.bytes[9] as bv64) << 48)
  {
    var reg := FromKey(key);
    assert reg == KeyRegister(LoadKeyLoop(key.bytes, 10).0, LoadKeyLoop(key.bytes, 10).1);
    LoadKeyLoop80(key.bytes);
  }

  /** The key register tests of src/present80.rs. */
  lemma FromKeyExamples()
    ensures FromKey(NewKey([0, 0, 0, 0, 0, 1])) == KeyRegister(1 << 16, 0)
    ensures FromKey(NewKey([0, 0, 0, 0, 0, 0, 0, 1, 0, 0])) == KeyRegister(1, 0)
    ensures FromKey(NewKey([0, 0, 0, 0, 0, 0, 0, 1, 0, 1])) == KeyRegister(1, 1 << 48)
    ensures FromKey(NewKey([0, 0, 0, 0, 0, 0, 0, 1, 0, 1, 0, 1])) == KeyRegister(1, 1 << 48)
  {
    var k1: KeyBytes := [0, 0, 0, 0, 0, 1, 0, 0, 0, 0];
    assert NewKey([0, 0, 0, 0, 0, 1]).bytes == k1;
    FromKeyIs(Key(k1));
    var k2: KeyBytes := [0, 0, 0, 0, 0, 0, 0, 1, 0, 0];
    NewKeyOfKeyBytes(Key(k2));
    FromKeyIs(Key(k2));
    var k3: KeyBytes := [0, 0, 0, 0, 0, 0, 0, 1, 0, 1];
    NewKeyOfKeyBytes(Key(k3));
    FromKeyIs(Key(k3));
    NewKeyTruncates([0, 0, 0, 0, 0, 0, 0, 1, 0, 1, 0, 1]);
    assert [0, 0, 0, 0, 0, 0, 0, 1, 0, 1, 0, 1][..10] == k3;
  }

  /* ---------------------------------------------------------------------- */
  /* The key register update                                                 */
  /* ---------------------------------------------------------------------- */

  /** An 80-bit word rotated left by 61 bits, written with shifts. */
  function RotateLeft61(k: bv80): bv80 {
    (k << 61) | (k >> 19)
  }

  /** The shifts do rotate: left by 61, which is right by 19. */
  lemma RotateLeft61IsRotation(k: bv80)
    ensures RotateLeft61(k) == k.RotateLeft(61)
    ensures RotateLeft61(k) == k.RotateRight(19)
  {
  }

  /** The second part of a key-schedule step: the top four bits of the
      80-bit register pass through the S-box. */
  function SubstituteTop(k: bv80): bv80 {
    (k & 0xFFF_FFFF_FFFF_FFFF_FFFF) | ((SBox((k >> 76) as bv4) as bv80) << 76)
  }

  /** The third part of a key-schedule step: the low five bits of the round
      counter are XOR-ed into register bits 19..15. */
  function AddRoundCounter(k: bv80, roundCounter: bv64): bv80 {
    k ^ (((roundCounter & 0x1F) as bv80) << 15)
  }

  /** One step of the PRESENT-80 key schedule on the 80-bit register, as the
      cipher's designers give it: rotate left by 61, pass the top four bits
      through the S-box, then XOR the five-bit round counter into bits 19..15. */
  function KeyScheduleStep(k: bv80, roundCounter: bv64): bv80 {
    AddRoundCounter(SubstituteTop(RotateLeft61(k)), roundCounter)
  }

  /** KeyRegister::rotate: the register rotated left by 61 bits.  The three
      parts of the new `a` occupy disjoint bits, so the source's additions
      never carry; the bits of `b` outside the register end up zero. */
  function Rotate(reg: KeyRegister): (r: KeyRegister)
    ensures r.View() == RotateLeft61(reg.View())
  {
    var w := reg.a & 0xFFFF_FFFF_FFF8_0000;
    var x := reg.a & 0x0000_0000_0007_FFF8;
    var y := reg.a & 0x0000_0000_0000_0007;
    var z := reg.b & 0xFFFF_0000_0000_0000;
    KeyRegister((y << 61) + (z >> 3) + (w >> 19), x << 45)
  }

  /** Rotate is an 80-bit rotation: left by 61, or right by 19. */
  lemma RotateIsRotation(reg: KeyRegister)
    ensures Rotate(reg).View() == RotateLeft61(reg.View())
    ensures Rotate(reg).View() == reg.View().RotateLeft(61)
    ensures Rotate(reg).View() == reg.View().RotateRight(19)
  {
    RotateLeft61IsRotation(reg.View());
  }

  /** The bits of b below the register are zero after a rotation, whatever
      they were before. */
  lemma RotateAligns(reg: KeyRegister)
    ensures Rotate(reg).Aligned()
  {
  }

  /** The rotate test of src/present80.rs. */
  lemma RotateExample()
    ensures Rotate(KeyRegister(0xC, 0)) == KeyRegister(1 << 63, 1 << 48)
  {
  }

  /** KeyRegister::update2: register bits 79..76 (the top nibble of a) pass
      through the S-box; every other bit of the register is kept. */
  function Update2(reg: KeyRegister): (r: KeyRegister)
    ensures r.View() == (reg.View() & 0xFFF_FFFF_FFFF_FFFF_FFFF) | ((SBox((reg.View() >> 76) as bv4) as bv80) << 76)
  {
    var w := (reg.a >> 60) & 0xF;
    var x := SBox(w as bv4);
    var y := (x as bv64) << 60;
    var z := reg.a & 0x0FFF_FFFF_FFFF_FFFF;
    assert (reg.View() >> 76) as bv4 == w as bv4;
    assert SBox((reg.View() >> 76) as bv4) == x;
    KeyRegister(y + z, reg.b)
  }

  /** The view-level effect of update2, as a fact about a given register. */
  lemma Update2View(reg: KeyRegister)
    ensures Update2(reg).View() == SubstituteTop(reg.View())
  {
  }

  /** On the words: the top nibble of a is substituted. */
  lemma Update2SubstitutesTopNibble(reg: KeyRegister)
    ensures (Update2(reg).a >> 60) as bv4 == SBox((reg.a >> 60) as bv4)
  {
    var w := (reg.a >> 60) & 0xF;
    assert (reg.a >> 60) as bv4 == w as bv4;
  }

  /** On the words: b is kept. */
  lemma Update2KeepsB(reg: KeyRegister)
    ensures Update2(reg).b == reg.b
  {
  }

  /** KeyRegister::update3: the low five bits of the round counter are XOR-ed
      into register bits 19..15 (bits 3..0 of a and bit 63 of b). */
  function Update3(reg: KeyRegister, roundCounter: bv64): (r: KeyRegister)
    ensures r.View() == reg.View() ^ (((roundCounter & 0x1F) as bv80) << 15)
  {
    var w := (reg.a & 0xF) << 1;
    var x := (reg.b >> 63) & 1;
    var y := w + x;
    var z := y ^ roundCounter;
    var p := (z & 0x1E) >> 1;
    var q := (z & 0x01) << 63;
    var r := reg.a & 0xFFFF_FFFF_FFFF_FFF0;
    var s := reg.b & 0x7FFF_FFFF_FFFF_FFFF;
    KeyRegister(p + r, q + s)
  }

  /** The view-level effect of update3, as a fact about a given register. */
  lemma Update3View(reg: KeyRegister, roundCounter: bv64)
    ensures Update3(reg, roundCounter).View() == AddRoundCounter(reg.View(), roundCounter)
  {
  }

  /** update3 keeps the bits of b below the register zero. */
  lemma Update3Aligns(reg: KeyRegister, roundCounter: bv64)
    requires reg.Aligned()
    ensures Update3(reg, roundCounter).Aligned()
  {
  }

  /** XOR-ing the same round counter twice gives back the register. */
  lemma Update3Involution(reg: KeyRegister, roundCounter: bv64)
    ensures Update3(Update3(reg, roundCounter), roundCounter) == reg
  {
  }

  /** Only the low five bits of the round counter matter. */
  lemma Update3UsesFiveBits(reg: KeyRegister, roundCounter: bv64)
    ensures Update3(reg, roundCounter) == Update3(reg, roundCounter & 0x1F)
  {
  }

  /** The source builds the new words with `+`, which panics on overflow in a
      debug build.  Every such sum adds words with no set bit in common, so
      no sum carries and none can overflow. */
  lemma UpdateSumsNeverCarry(reg: KeyRegister, roundCounter: bv64)
    ensures var w, x, y, z := reg.a & 0xFFFF_FFFF_FFF8_0000, reg.a & 0x0000_0000_0007_FFF8, reg.a & 0x0000_0000_0000_0007, reg.b & 0xFFFF_0000_0000_0000;
      (y << 61) & (z >> 3) == 0 && ((y << 61) + (z >> 3)) & (w >> 19) == 0
    ensures ((SBox(((reg.a >> 60) & 0xF) as bv4) as bv64) << 60) & (reg.a & 0x0FFF_FFFF_FFFF_FFFF) == 0
    ensures ((reg.a & 0xF) << 1) & ((reg.b >> 63) & 1) == 0
    ensures var z := (((reg.a & 0xF) << 1) + ((reg.b >> 63) & 1)) ^ roundCounter;
      ((z & 0x1E) >> 1) & (reg.a & 0xFFFF_FFFF_FFFF_FFF0) == 0 && ((z & 0x01) << 63) & (reg.b & 0x7FFF_FFFF_FFFF_FFFF) == 0
  {
  }

  /** KeyRegister::update: rotate, update2, update3 in turn.  On the 80-bit
      view it is one key-schedule step. */
  function Update(reg: KeyRegister, roundCounter: bv64): (r: KeyRegister)
    ensures r.View() == KeyScheduleStep(reg.View(), roundCounter)
  {
    var rotated := Rotate(reg);
    var substituted := Update2(rotated);
    RotateIsRotation(reg);
    Update2View(rotated);
    Update3View(substituted, roundCounter);
    Update3(substituted, roundCounter)
  }

  /** The result of an update is always aligned: the bits of b below the
      register are zero. */
  lemma UpdateAligns(reg: KeyRegister, roundCounter: bv64)
    ensures Update(reg, roundCounter).Aligned()
  {
    var rotated := Rotate(reg);
    RotateAligns(reg);
    Update2KeepsB(rotated);
    Update3Aligns(Update2(rotated), roundCounter);
  }

  /** The view-level effect of update, as a fact about a given register. */
  lemma UpdateView(reg: KeyRegister, roundCounter: bv64)
    ensures Update(reg, roundCounter).View() == KeyScheduleStep(reg.View(), roundCounter)
  {
  }

  /** The update test of src/present80.rs. */
  lemma UpdateExample()
    ensures Update(KeyRegister(0, 0), 1) == KeyRegister(0xC000_0000_0000_0000, 0x8000_0000_0000_0000)
  {
  }

  /* ---------------------------------------------------------------------- */
  /* Encryption                                                              */
  /* ---------------------------------------------------------------------- */

  /** The 80-bit register after n steps of the key schedule from k; step i
      uses round counter i. */
  function ReferenceRegister(k: bv80, n: bv64): bv80
    decreases n
  {
    if n == 0 then k else KeyScheduleStep(ReferenceRegister(k, n - 1), n)
  }

  /** Round key n: the leftmost 64 bits of the register after n steps. */
  function ReferenceRoundKey(k: bv80, n: bv64): bv64 {
    TopBits(ReferenceRegister(k, n))
  }

  /** One round of the cipher: add the round key, then apply the S-box layer
      and the P-layer. */
  function CipherRound(state: State, roundKey: bv64): State {
    PLayer(SBoxLayer(AddRoundKey(state, roundKey)))
  }

  /** The state after n rounds of the cipher: round i adds round key i, then
      applies the S-box layer and the P-layer. */
  function ReferenceRounds(state: State, k: bv80, n: bv64): State
    decreases n
  {
    if n == 0 then state
    else CipherRound(ReferenceRounds(state, k, n - 1), ReferenceRoundKey(k, n - 1))
  }

  /** PRESENT-80 encryption under the 80-bit key register k: 31 rounds, then
      round key 32 (number 31 from zero) is added. */
  function ReferenceEncrypt(state: State, k: bv80): State {
    AddRoundKey(ReferenceRounds(state, k, NUM_ROUNDS), ReferenceRoundKey(k, NUM_ROUNDS))
  }

  /** Round i of encrypt's loop: add the round key held in word a, apply the
      two layers, then update the register with round counter i + 1.  On the
      80-bit view this is one reference cipher round under the register's
      leftmost 64 bits, then key-schedule step i + 1. */
  function EncryptRound(current: (State, KeyRegister), i: bv64): (next: (State, KeyRegister))
    ensures next.0 == CipherRound(current.0, TopBits(current.1.View()))
    ensures next.1.View() == KeyScheduleStep(current.1.View(), i + 1)
  {
    RoundKeyIsTopOfView(current.1);
    UpdateView(current.1, i + 1);
    (CipherRound(current.0, current.1.a), Update(current.1, i + 1))
  }

  /** The state and register after the first n rounds of encrypt's loop: the
      register stands for the key register after n key-schedule steps, and
      the state is n reference rounds of the cipher. */
  function EncryptLoop(state: State, reg: KeyRegister, n: bv64): (r: (State, KeyRegister))
    requires n <= NUM_ROUNDS
    ensures r.1.View() == ReferenceRegister(reg.View(), n)
    ensures r.0 == ReferenceRounds(state, reg.View(), n)
  {
    if n == 0 then (state, reg) else EncryptRound(EncryptLoop(state, reg, n - 1), n - 1)
  }

  /** After n rounds, word a of the loop's register is reference round key n. */
  lemma LoopRoundKey(state: State, reg: KeyRegister, n: bv64)
    requires n <= NUM_ROUNDS
    ensures EncryptLoop(state, reg, n).1.a == ReferenceRoundKey(reg.View(), n)
  {
    RoundKeyIsTopOfView(EncryptLoop(state, reg, n).1);
  }

  /** encrypt: 31 rounds, then the final key addition with word a of the
      register; this is PRESENT-80 under the 80-bit key the register was
      loaded with. */
  function Encrypt(state: State, key: Key): (r: State)
    ensures r == ReferenceEncrypt(state, FromKey(key).View())
  {
    var reg := FromKey(key);
    var afterRounds := EncryptLoop(state, reg, NUM_ROUNDS);
    RoundKeyIsTopOfView(afterRounds.1);
    AddRoundKey(afterRounds.0, afterRounds.1.a)
  }

  /** The rounds are injective for a fixed key. */
  lemma {:induction false} ReferenceRoundsInjective(s: State, t: State, k: bv80, n: bv64)
    requires ReferenceRounds(s, k, n) == ReferenceRounds(t, k, n)
    ensures s == t
    decreases n
  {
    if n > 0 {
      var keyN := ReferenceRoundKey(k, n - 1);
      var s1 := ReferenceRounds(s, k, n - 1);
      var t1 := ReferenceRounds(t, k, n - 1);
      PLayerInjective(SBoxLayer(AddRoundKey(s1, keyN)), SBoxLayer(AddRoundKey(t1, keyN)));
      SBoxLayerInjective(AddRoundKey(s1, keyN), AddRoundKey(t1, keyN));
      AddRoundKeyInvolution(s1, keyN);
      AddRoundKeyInvolution(t1, keyN);
      ReferenceRoundsInjective(s, t, k, n - 1);
    }
  }

  /** Under a fixed key, different plaintext blocks give different ciphertext
      blocks: encryption is a permutation of the 64-bit states. */
  lemma EncryptInjective(s: State, t: State, key: Key)
    requires Encrypt(s, key) == Encrypt(t, key)
    ensures s == t
  {
    var k := FromKey(key).View();
    AddRoundKeyInvolution(ReferenceRounds(s, k, NUM_ROUNDS), ReferenceRoundKey(k, NUM_ROUNDS));
    AddRoundKeyInvolution(ReferenceRounds(t, k, NUM_ROUNDS), ReferenceRoundKey(k, NUM_ROUNDS));
    ReferenceRoundsInjective(s, t, k, NUM_ROUNDS);
  }

  /** The first round key is key bytes 0..7, read big-endian. */
  lemma FirstRoundKeyIsKeyPrefix(key: Key)
    ensures ReferenceRoundKey(FromKey(key).View(), 0) == BytesToState(key.bytes)
  {
    RoundKeyIsTopOfView(FromKey(key));
  }

  /* ---------------------------------------------------------------------- */
  /* Blocks and ECB                                                          */
  /* ---------------------------------------------------------------------- */

  /** _encrypt_block: the first eight bytes, encrypted.  bytes_to_state reads
      eight bytes, so the source needs at least that many. */
  function RawEncryptBlock(data: seq<Byte>, key: Key): (r: seq<Byte>)
    requires |data| >= BLOCK_SIZE_IN_BYTES
    ensures |r| == BLOCK_SIZE_IN_BYTES
    ensures BytesToState(r) == Encrypt(BytesToState(data), key)
  {
    var encrypted := Encrypt(BytesToState(data), key);
    StateToBytesRoundTrip(encrypted);
    StateToBytes(encrypted)
  }

  /** encrypt_block: the first eight bytes of the data followed by zeros,
      encrypted.  Shorter data is zero-filled; longer data is cut to eight. */
  function EncryptBlock(data: seq<Byte>, key: Key): (r: seq<Byte>)
    ensures |r| == BLOCK_SIZE_IN_BYTES
    ensures r == RawEncryptBlock((data + Zeros(BLOCK_SIZE_IN_BYTES))[..BLOCK_SIZE_IN_BYTES], key)
  {
    if |data| < BLOCK_SIZE_IN_BYTES then
      assert data + Zeros(BLOCK_SIZE_IN_BYTES - |data|) == (data + Zeros(BLOCK_SIZE_IN_BYTES))[..BLOCK_SIZE_IN_BYTES];
      RawEncryptBlock(data + Zeros(BLOCK_SIZE_IN_BYTES - |data|), key)
    else
      assert data[..BLOCK_SIZE_IN_BYTES] == (data + Zeros(BLOCK_SIZE_IN_BYTES))[..BLOCK_SIZE_IN_BYTES];
      RawEncryptBlock(data[..BLOCK_SIZE_IN_BYTES], key)
  }

  /** Bytes past the eighth do not change the result. */
  lemma EncryptBlockIgnoresTail(data: seq<Byte>, key: Key)
    requires |data| >= BLOCK_SIZE_IN_BYTES
    ensures EncryptBlock(data, key) == EncryptBlock(data[..BLOCK_SIZE_IN_BYTES], key)
  {
    assert (data + Zeros(8))[..8] == data[..8] == (data[..8] + Zeros(8))[..8];
  }

  /** Short data is encrypted as if it had been zero-filled to eight bytes. */
  lemma EncryptBlockZeroFills(data: seq<Byte>, key: Key)
    requires |data| < BLOCK_SIZE_IN_BYTES
    ensures EncryptBlock(data, key) == EncryptBlock(data + Zeros(BLOCK_SIZE_IN_BYTES - |data|), key)
  {
    var filled := data + Zeros(8 - |data|);
    assert (data + Zeros(8))[..8] == filled == (filled + Zeros(8))[..8];
  }

  /** Under a fixed key, different eight-byte blocks encrypt differently. */
  lemma EncryptBlockInjective(u: seq<Byte>, v: seq<Byte>, key: Key)
    requires |u| == |v| == BLOCK_SIZE_IN_BYTES
    requires EncryptBlock(u, key) == EncryptBlock(v, key)
    ensures u == v
  {
    assert (u + Zeros(8))[..8] == u;
    assert (v + Zeros(8))[..8] == v;
    EncryptInjective(BytesToState(u), BytesToState(v), key);
    BytesToStateRoundTrip(u);
    BytesToStateRoundTrip(v);
  }

  /** encrypt_block under one key, as a block function. */
  function BlockCipher(key: Key): seq<Byte> -> seq<Byte> {
    block => EncryptBlock(block, key)
  }

  /** The block function always yields one block. */
  lemma BlockCipherYieldsBlocks(key: Key)
    ensures forall block :: |BlockCipher(key)(block)| == BLOCK_SIZE_IN_BYTES
  {
  }

  /** ecb_encrypt: the data zero-padded to whole blocks, each block encrypted
      on its own, in order. */
  function EcbEncrypt(data: seq<Byte>, key: Key): (r: seq<Byte>)
    ensures |r| == |Pad(data)|
  {
    var padded := Pad(data);
    BlockCipherYieldsBlocks(key);
    MapBlocks(padded, BlockCipher(key), |padded| / 8)
  }

  /** Block i of ecb_encrypt's output is block i of the padded data, encrypted. */
  lemma EcbEncryptBlocks(data: seq<Byte>, key: Key)
    ensures forall i: nat :: 8 * i + 8 <= |Pad(data)| ==> Block(EcbEncrypt(data, key), i) == RawEncryptBlock(Block(Pad(data), i), key)
  {
    var padded := Pad(data);
    var cipher := BlockCipher(key);
    BlockCipherYieldsBlocks(key);
    MapBlocksContent(padded, cipher, |padded| / 8);
    forall i: nat | 8 * i + 8 <= |padded|
      ensures cipher(Block(padded, i)) == RawEncryptBlock(Block(padded, i), key)
    {
      assert (Block(padded, i) + Zeros(8))[..8] == Block(padded, i);
    }
  }

  /** Empty data gives empty ciphertext, while encrypt_block of empty data
      encrypts the all-zero block. */
  lemma EcbEncryptEmpty(key: Key)
    ensures EcbEncrypt([], key) == []
    ensures EncryptBlock([], key) == RawEncryptBlock(Zeros(BLOCK_SIZE_IN_BYTES), key)
  {
    PadAligned([]);
    assert ([] + Zeros(8))[..8] == Zeros(8);
  }

  /** On one to eight bytes, ecb_encrypt and encrypt_block agree. */
  lemma EcbEncryptAgreesWithEncryptBlock(data: seq<Byte>, key: Key)
    requires 1 <= |data| <= BLOCK_SIZE_IN_BYTES
    ensures EcbEncrypt(data, key) == EncryptBlock(data, key)
  {
    var padded := Pad(data);
    assert |padded| == 8;
    assert padded == (data + Zeros(8))[..8];
    var r := EcbEncrypt(data, key);
    EcbEncryptBlocks(data, key);
    assert Block(r, 0) == r;
    assert Block(padded, 0) == padded;
  }

  /** On two whole blocks, ecb_encrypt is encrypt_block on each. */
  lemma EcbEncryptTwoBlocks(u: seq<Byte>, v: seq<Byte>, key: Key)
    requires |u| == |v| == BLOCK_SIZE_IN_BYTES
    ensures EcbEncrypt(u + v, key) == EncryptBlock(u, key) + EncryptBlock(v, key)
  {
    EcbEncryptConcat(u, v, key);
    EcbEncryptAgreesWithEncryptBlock(u, key);
    EcbEncryptAgreesWithEncryptBlock(v, key);
  }

  /** ecb_encrypt as the block map it is built from. */
  lemma EcbEncryptIsMapBlocks(data: seq<Byte>, key: Key)
    ensures 8 * (|Pad(data)| / 8) <= |Pad(data)|
    ensures forall block :: |BlockCipher(key)(block)| == BLOCK_SIZE_IN_BYTES
    ensures EcbEncrypt(data, key) == MapBlocks(Pad(data), BlockCipher(key), |Pad(data)| / 8)
  {
    BlockCipherYieldsBlocks(key);
  }

  /** ECB works block by block: encrypting aligned data followed by more data
      is encrypting each part. */
  lemma EcbEncryptConcat(u: seq<Byte>, v: seq<Byte>, key: Key)
    requires |u| % 8 == 0
    ensures EcbEncrypt(u + v, key) == EcbEncrypt(u, key) + EcbEncrypt(v, key)
  {
    var cipher := BlockCipher(key);
    BlockCipherYieldsBlocks(key);
    PadAfterAlignedPrefix(u, v);
    PadAligned(u);
    var m, k := |u| / 8, |Pad(v)| / 8;
    assert |u| == 8 * m && |Pad(v)| == 8 * k;
    assert |Pad(u + v)| / 8 == m + k;
    MapBlocksConcat(u, Pad(v), cipher, m, k);
    EcbEncryptIsMapBlocks(u + v, key);
    EcbEncryptIsMapBlocks(u, key);
    EcbEncryptIsMapBlocks(v, key);
  }
}
