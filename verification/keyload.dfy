/** The key-loading loop that `KeyRegister::from` runs in both src/present80.rs
    and src/present128.rs: key byte i is or-ed into word `a` at shift
    56 - 8 * i when i < 8 and into word `b` at shift 120 - 8 * i otherwise,
    so the key bytes fill a then b, most significant first. */
module KeyLoad {
  import opened Present

  /** The key bytes `Key::new` keeps for a key of `len` bytes: none of the
      input when it is empty, all of it followed by zeros when it has 1..len
      bytes, and its first len bytes when it is longer. */
  function FitKeyBytes(bytes: seq<Byte>, len: nat): (r: seq<Byte>)
    ensures |r| == len
    ensures forall i :: 0 <= i < len ==> r[i] == if i < |bytes| then bytes[i] else 0
  {
    if |bytes| == 0 then Zeros(len)
    else if |bytes| <= len then bytes + Zeros(len - |bytes|)
    else bytes[..len]
  }

  /** Only the first len input bytes matter. */
  lemma FitKeyBytesTruncates(bytes: seq<Byte>, len: nat)
    requires |bytes| >= len
    ensures FitKeyBytes(bytes, len) == FitKeyBytes(bytes[..len], len) == bytes[..len]
  {
  }

  /** A sequence that already has len bytes is kept as it is. */
  lemma FitKeyBytesKeepsFullKey(bytes: seq<Byte>)
    ensures FitKeyBytes(bytes, |bytes|) == bytes
  {
  }

  /** One iteration of the loading loop: key byte i or-ed into the words. */
  function LoadKeyByte(words: (bv64, bv64), i: bv64, x: Byte): (bv64, bv64)
    requires i < 16
  {
    var (a, b) := words;
    var byte := x as bv64;
    if i < 8 then (a | (byte << (56 - i * 8)), b)
    else (a, b | (byte << (120 - i * 8)))
  }

  /** Or-ing a byte into a word at shift s, when the byte's slot is empty,
      fills the slot with the byte. */
  lemma OrIntoSlotFills(w: bv64, x: Byte, s: bv64)
    requires s <= 56
    requires ((w >> s) & 0xFF) == 0
    ensures (((w | ((x as bv64) << s)) >> s) & 0xFF) as Byte == x
  {
  }

  /** One of the first eight iterations of the loading loop: byte i lands in
      word a, in the slot at shift 56 - 8 * i, and b is untouched. */
  lemma LoadKeyByteIntoFirstWord(words: (bv64, bv64), i: bv64, x: Byte)
    requires i < 8
    ensures LoadKeyByte(words, i, x).1 == words.1
    ensures ((words.0 >> (56 - i * 8)) & 0xFF) == 0 ==> ((LoadKeyByte(words, i, x).0 >> (56 - i * 8)) & 0xFF) as Byte == x
  {
    if ((words.0 >> (56 - i * 8)) & 0xFF) == 0 {
      OrIntoSlotFills(words.0, x, 56 - i * 8);
    }
  }

  /** One of the last eight iterations of the loading loop: byte i lands in
      word b, in the slot at shift 120 - 8 * i, and a is untouched. */
  lemma LoadKeyByteIntoSecondWord(words: (bv64, bv64), i: bv64, x: Byte)
    requires 8 <= i < 16
    ensures LoadKeyByte(words, i, x).0 == words.0
    ensures ((words.1 >> (120 - i * 8)) & 0xFF) == 0 ==> ((LoadKeyByte(words, i, x).1 >> (120 - i * 8)) & 0xFF) as Byte == x
  {
    if ((words.1 >> (120 - i * 8)) & 0xFF) == 0 {
      OrIntoSlotFills(words.1, x, 120 - i * 8);
    }
  }

  /** The words (a, b) after the first n iterations of the loading loop.  The
      source's early exit (`i > KEY_LENGTH_IN_BYTES - 1`) never fires, since
      the key holds exactly KEY_LENGTH_IN_BYTES bytes, so it has no branch here. */
  function LoadKeyLoop(bytes: seq<Byte>, n: bv64): (bv64, bv64)
    requires n as int <= |bytes| <= 16
  {
    if n == 0 then (0, 0)
    else LoadKeyByte(LoadKeyLoop(bytes, n - 1), n - 1, bytes[(n - 1) as int])
  }

  /** Or-ing a byte into the slot just below m - 8 loaded bits keeps every bit
      below the first m zero. */
  lemma OrBelowLoaded(w: bv64, x: Byte, m: bv64)
    requires 8 <= m <= 64
    requires (w & (0xFFFF_FFFF_FFFF_FFFF >> (m - 8))) == 0
    ensures ((w | ((x as bv64) << (64 - m))) & (0xFFFF_FFFF_FFFF_FFFF >> m)) == 0
  {
  }

  /** The loop invariant the or-ing relies on, over the first eight
      iterations: the slots of the bytes of a not loaded yet are still zero,
      and so is all of b. */
  lemma {:induction false} LoadKeyLoopFirstWordUnloadedZero(bytes: seq<Byte>, n: bv64)
    requires n <= 8 && n as int <= |bytes| <= 16
    ensures LoadKeyLoop(bytes, n).1 == 0
    ensures (LoadKeyLoop(bytes, n).0 & (0xFFFF_FFFF_FFFF_FFFF >> (n * 8))) == 0
    decreases n
  {
    if n > 0 {
      LoadKeyLoopFirstWordUnloadedZero(bytes, n - 1);
      var previous := LoadKeyLoop(bytes, n - 1);
      assert LoadKeyLoop(bytes, n) == LoadKeyByte(previous, n - 1, bytes[(n - 1) as int]);
      OrBelowLoaded(previous.0, bytes[(n - 1) as int], n * 8);
    }
  }

  /** The same invariant over the last eight iterations: the slots of the
      bytes of b not loaded yet are still zero. */
  lemma {:induction false} LoadKeyLoopSecondWordUnloadedZero(bytes: seq<Byte>, n: bv64)
    requires 8 <= n && n as int <= |bytes| <= 16
    ensures (LoadKeyLoop(bytes, n).1 & (0xFFFF_FFFF_FFFF_FFFF >> ((n - 8) * 8))) == 0
    decreases n
  {
    if n == 8 {
      LoadKeyLoopFirstWordUnloadedZero(bytes, 8);
    } else {
      LoadKeyLoopSecondWordUnloadedZero(bytes, n - 1);
      var previous := LoadKeyLoop(bytes, n - 1);
      assert LoadKeyLoop(bytes, n) == LoadKeyByte(previous, n - 1, bytes[(n - 1) as int]);
      OrBelowLoaded(previous.1, bytes[(n - 1) as int], (n - 8) * 8);
    }
  }

  /** One iteration of the loading loop. */
  lemma LoadKeyLoopStep(bytes: seq<Byte>, n: bv64)
    requires 1 <= n && n as int <= |bytes| <= 16
    ensures LoadKeyLoop(bytes, n) == LoadKeyByte(LoadKeyLoop(bytes, n - 1), n - 1, bytes[(n - 1) as int])
  {
  }

  /** The first eight iterations load bytes 0..7 into a, big-endian, exactly as
      bytes_to_state reads them, and leave b zero. */
  lemma LoadKeyFirstWord(bytes: seq<Byte>)
    requires 8 <= |bytes| <= 16
    ensures LoadKeyLoop(bytes, 8) == (BytesToState(bytes), 0)
  {
    assert LoadKeyLoop(bytes, 0) == (0, 0);
    LoadKeyLoopStep(bytes, 1);
    LoadKeyLoopStep(bytes, 2);
    LoadKeyLoopStep(bytes, 3);
    LoadKeyLoopStep(bytes, 4);
    LoadKeyLoopStep(bytes, 5);
    LoadKeyLoopStep(bytes, 6);
    LoadKeyLoopStep(bytes, 7);
    LoadKeyLoopStep(bytes, 8);
    BytesToStateLoopUnrolled(bytes);
  }

  /** Iterations 9..12 load bytes 8..11 into b as bytes_to_state reads the
      first four bytes of the second half, and leave a as it was. */
  lemma LoadKeySecondWordHigh(bytes: seq<Byte>)
    requires |bytes| == 16
    requires LoadKeyLoop(bytes, 8).1 == 0
    ensures LoadKeyLoop(bytes, 12).0 == LoadKeyLoop(bytes, 8).0
    ensures LoadKeyLoop(bytes, 12).1 == BytesToStateLoop(bytes[8..], 4)
  {
    var rest := bytes[8..];
    assert BytesToStateLoop(rest, 0) == 0;
    LoadKeyLoopStep(bytes, 9);
    LoadKeyLoopStep(bytes, 10);
    LoadKeyLoopStep(bytes, 11);
    LoadKeyLoopStep(bytes, 12);
    BytesToStateLoopStep(rest, 1);
    BytesToStateLoopStep(rest, 2);
    BytesToStateLoopStep(rest, 3);
    BytesToStateLoopStep(rest, 4);
  }

  /** Iterations 13..16 load bytes 12..15 into b as bytes_to_state reads the
      last four bytes of the second half, and leave a as it was. */
  lemma LoadKeySecondWordLow(bytes: seq<Byte>)
    requires |bytes| == 16
    requires LoadKeyLoop(bytes, 12).1 == BytesToStateLoop(bytes[8..], 4)
    ensures LoadKeyLoop(bytes, 16).0 == LoadKeyLoop(bytes, 12).0
    ensures LoadKeyLoop(bytes, 16).1 == BytesToStateLoop(bytes[8..], 8)
  {
    var rest := bytes[8..];
    LoadKeyLoopStep(bytes, 13);
    LoadKeyLoopStep(bytes, 14);
    LoadKeyLoopStep(bytes, 15);
    LoadKeyLoopStep(bytes, 16);
    BytesToStateLoopStep(rest, 5);
    BytesToStateLoopStep(rest, 6);
    BytesToStateLoopStep(rest, 7);
    BytesToStateLoopStep(rest, 8);
  }

  /** All sixteen iterations load bytes 0..7 into a and bytes 8..15 into b,
      each big-endian, exactly as bytes_to_state reads them. */
  lemma LoadKeyBothWords(bytes: seq<Byte>)
    requires |bytes| == 16
    ensures LoadKeyLoop(bytes, 16).0 == BytesToState(bytes)
    ensures LoadKeyLoop(bytes, 16).1 == BytesToState(bytes[8..])
  {
    LoadKeyFirstWord(bytes);
    LoadKeySecondWordHigh(bytes);
    LoadKeySecondWordLow(bytes);
  }
}
