/** The parts of PRESENT-128 that src/present128.rs implements: the 16-byte
    key and the loading of the 128-bit key register.  The register update and
    the encryption built on it are left unimplemented there. */
module Present128 {
  import opened Present
  import opened KeyLoad

  const KEY_LENGTH_IN_BYTES: nat := 16

  type KeyBytes = s: seq<Byte> | |s| == KEY_LENGTH_IN_BYTES
    witness [0, 0, 0, 0, 0, 0, 0, 0, 0, 0, 0, 0, 0, 0, 0, 0]

  /** A PRESENT-128 key: exactly sixteen bytes. */
  datatype Key = Key(bytes: KeyBytes)

  /* ---------------------------------------------------------------------- */
  /* Keys                                                                    */
  /* ---------------------------------------------------------------------- */

  /** Key::new: the first min(|bytes|, 16) bytes, then zeros. */
  function NewKey(bytes: seq<Byte>): (key: Key)
    ensures forall i :: 0 <= i < KEY_LENGTH_IN_BYTES ==> key.bytes[i] == if i < |bytes| then bytes[i] else 0
  {
    Key(FitKeyBytes(bytes, KEY_LENGTH_IN_BYTES))
  }

  /** The empty input gives the all-zero key. */
  lemma NewKeyEmpty()
    ensures NewKey([]) == Key(Zeros(KEY_LENGTH_IN_BYTES))
  {
  }

  /** A longer input behaves like its first sixteen bytes. */
  lemma NewKeyTruncates(bytes: seq<Byte>)
    requires |bytes| >= KEY_LENGTH_IN_BYTES
    ensures NewKey(bytes) == NewKey(bytes[..KEY_LENGTH_IN_BYTES])
  {
    FitKeyBytesTruncates(bytes, KEY_LENGTH_IN_BYTES);
  }

  /** Rebuilding a key from its own bytes gives the key. */
  lemma NewKeyOfKeyBytes(key: Key)
    ensures NewKey(key.bytes) == key
  {
    FitKeyBytesKeepsFullKey(key.bytes);
  }

  /* ---------------------------------------------------------------------- */
  /* The key register                                                        */
  /* ---------------------------------------------------------------------- */

  /** The 128-bit key register: `a` holds register bits 127..64 and `b` holds
      bits 63..0. */
  datatype KeyRegister = KeyRegister(a: bv64, b: bv64)

  /** KeyRegister::from for PRESENT-128: key bytes 0..7 fill a and bytes 8..15
      fill b, each most significant first. */
  function FromKey(key: Key): (reg: KeyRegister)
    ensures reg.a == BytesToState(key.bytes)
    ensures reg.b == BytesToState(key.bytes[8..])
  {
    var words := LoadKeyLoop(key.bytes, 16);
    LoadKeyBothWords(key.bytes);
    KeyRegister(words.0, words.1)
  }

  /** The register holds the key exactly: written back as bytes, word a then
      word b, it is the key. */
  lemma FromKeyHoldsKey(key: Key)
    ensures StateToBytes(FromKey(key).a) + StateToBytes(FromKey(key).b) == key.bytes
  {
    assert key.bytes == key.bytes[..8] + key.bytes[8..][..8];
  }

  /** Different keys load different registers. */
  lemma FromKeyInjective(k1: Key, k2: Key)
    requires FromKey(k1) == FromKey(k2)
    ensures k1 == k2
  {
    FromKeyHoldsKey(k1);
    FromKeyHoldsKey(k2);
  }

  /** The register loaded from a key, in closed form. */
  lemma FromKeyIs(key: Key)
    ensures FromKey(key).a == PackBigEndian(key.bytes)
    ensures FromKey(key).b == PackBigEndian(key.bytes[8..])
  {
    BytesToStateLoopUnrolled(key.bytes);
    BytesToStateLoopUnrolled(key.bytes[8..]);
  }

  /** The first key register test of src/present128.rs: a six-byte key. */
  lemma FromKeyExampleSixBytes()
    ensures FromKey(NewKey([0, 0, 0, 0, 0, 1])) == KeyRegister(1 << 16, 0)
  {
    var k1: KeyBytes := [0, 0, 0, 0, 0, 1, 0, 0, 0, 0, 0, 0, 0, 0, 0, 0];
    assert NewKey([0, 0, 0, 0, 0, 1]).bytes == k1;
    FromKeyIs(Key(k1));
  }

  /** The second key register test of src/present128.rs: a ten-byte key
      whose last set byte is byte 7. */
  lemma FromKeyExampleTenBytes()
    ensures FromKey(NewKey([0, 0, 0, 0, 0, 0, 0, 1, 0, 0])) == KeyRegister(1, 0)
  {
    var k2: KeyBytes := [0, 0, 0, 0, 0, 0, 0, 1, 0, 0, 0, 0, 0, 0, 0, 0];
    assert NewKey([0, 0, 0, 0, 0, 0, 0, 1, 0, 0]).bytes == k2;
    FromKeyIs(Key(k2));
  }

  /** The third key register test of src/present128.rs: byte 9 of a ten-byte
      key lands in bits 55..48 of b. */
  lemma FromKeyExampleTenBytesIntoB()
    ensures FromKey(NewKey([0, 0, 0, 0, 0, 0, 0, 1, 0, 1])) == KeyRegister(1, 1 << 48)
  {
    var k3: KeyBytes := [0, 0, 0, 0, 0, 0, 0, 1, 0, 1, 0, 0, 0, 0, 0, 0];
    assert NewKey([0, 0, 0, 0, 0, 0, 0, 1, 0, 1]).bytes == k3;
    FromKeyIs(Key(k3));
  }

  /** The key register tests of src/present128.rs with keys of sixteen bytes
      and more. */
  lemma FromKeyExamplesLong()
    ensures FromKey(NewKey([0, 0, 0, 0, 0, 0, 0, 1, 0, 0, 0, 0, 0, 0, 0, 1])) == KeyRegister(1, 1)
    ensures FromKey(NewKey([0, 0, 0, 0, 0, 0, 0, 1, 0, 0, 0, 0, 0, 0, 0, 1, 0, 1])) == KeyRegister(1, 1)
  {
    var k4: KeyBytes := [0, 0, 0, 0, 0, 0, 0, 1, 0, 0, 0, 0, 0, 0, 0, 1];
    NewKeyOfKeyBytes(Key(k4));
    FromKeyIs(Key(k4));
    NewKeyTruncates([0, 0, 0, 0, 0, 0, 0, 1, 0, 0, 0, 0, 0, 0, 0, 1, 0, 1]);
    assert [0, 0, 0, 0, 0, 0, 0, 1, 0, 0, 0, 0, 0, 0, 0, 1, 0, 1][..16] == k4;
  }
}
