// Values shared by the AES engine model and the two test schedules: bytes,
// 16-byte blocks, the engine configuration and the block transform of the
// hardware core, which the model leaves uninterpreted.
module AesTypes {

  newtype byte = x: int | 0 <= x < 256

  datatype Option<T> = None | Some(value: T)

  /** One 16-byte unit of plaintext or ciphertext. */
  type Block = s: seq<byte> | |s| == 16 witness seq(16, _ => 0 as byte)

  datatype Operation = Enc | Dec

  datatype KeyLen = Aes128 | Aes192 | Aes256

  /** Number of key bytes the core reads for a key length. */
  function KeyBytes(len: KeyLen): (n: nat)
    ensures n == 16 || n == 24 || n == 32
  {
    match len
    case Aes128 => 16
    case Aes192 => 24
    case Aes256 => 32
  }

  /** The fields of the driver's configuration record. */
  datatype Cfg = Cfg(operation: Operation, keyLen: KeyLen, manualOperation: bool)

  /** The block transform the hardware applies under an operation and a key
      (FIPS 197 in the real core); every result below holds for any such function. */
  type Cipher = (Operation, seq<byte>, Block) -> Block

  /** Block i of a byte buffer: the bytes at offsets 16*i .. 16*i+16. */
  function BlockAt(s: seq<byte>, i: nat): Block
    requires 16 * i + 16 <= |s|
  {
    s[16 * i .. 16 * i + 16]
  }

  /** Electronic codebook over the first n blocks of plain: the transform
      applied to each block on its own, in order. */
  function Ecb(cipher: Cipher, op: Operation, key: seq<byte>, plain: seq<byte>, n: nat): (c: seq<byte>)
    requires 16 * n <= |plain|
    ensures |c| == 16 * n
  {
    if n == 0 then []
    else Ecb(cipher, op, key, plain, n - 1) + cipher(op, key, BlockAt(plain, n - 1))
  }

  /** Output order matches input order: block i of the output is the image of
      block i of the input. */
  lemma {:induction false} EcbBlockAt(cipher: Cipher, op: Operation, key: seq<byte>, plain: seq<byte>, n: nat, i: nat)
    requires 16 * n <= |plain| && i < n
    ensures BlockAt(Ecb(cipher, op, key, plain, n), i) == cipher(op, key, BlockAt(plain, i))
  {
    var prev := Ecb(cipher, op, key, plain, n - 1);
    var c := Ecb(cipher, op, key, plain, n);
    if i == n - 1 {
      assert BlockAt(c, i) == c[|prev|..];
    } else {
      EcbBlockAt(cipher, op, key, plain, n - 1, i);
      assert BlockAt(c, i) == BlockAt(prev, i);
    }
  }
}
