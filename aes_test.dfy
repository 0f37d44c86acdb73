// The two AES tests. Each configures the core, pushes the four plaintext
// blocks through it under one pacing discipline while advancing a `working`
// offset into the plaintext and an `outp` offset into the output buffer, and
// then scans the output against the expected ciphertext for the first
// differing byte.
module AesTest {
  import opened AesTypes
  import opened AesEngine
  import opened Schedule

  /** The first index at which a and b differ, or |a| when they are equal. */
  function FirstMismatch(a: seq<byte>, b: seq<byte>): (r: nat)
    requires |a| == |b|
    ensures r <= |a|
    ensures forall k :: 0 <= k < r ==> a[k] == b[k]
    ensures r < |a| ==> a[r] != b[r]
    decreases |a|
  {
    if a == [] || a[0] != b[0] then 0 else 1 + FirstMismatch(a[1..], b[1..])
  }

  /** Corrupting one byte of the expected ciphertext is reported at exactly
      that byte's offset. */
  lemma CorruptedByteReported(a: seq<byte>, p: nat, v: byte)
    requires p < |a| && v != a[p]
    ensures FirstMismatch(a[p := v], a) == p
  {
  }

  /** Writing block b at offset 16*i behind an already correct prefix extends
      the prefix by b. */
  lemma BlockWritten(before: seq<byte>, after: seq<byte>, done: seq<byte>, i: nat, b: Block)
    requires 16 * i + 16 <= |before| && before[..16 * i] == done
    requires after == before[..16 * i] + b + before[16 * i + 16..]
    ensures after[..16 * i + 16] == done + b
  {
  }

  /** The comparison both tests run: error is 1 exactly when some byte of out
      differs from cypher, and j is then the first such byte; otherwise error
      stays 0 and j ends at 64. */
  method FindFirstMismatch(cypher: array<byte>, out: array<byte>) returns (error: int, j: int)
    requires cypher.Length == 64 && out.Length == 64
    ensures error == 0 || error == 1
    ensures error == 1 <==> exists k :: 0 <= k < 64 && cypher[k] != out[k]
    ensures j == FirstMismatch(cypher[..], out[..])
    ensures error == 0 <==> j == 64
  {
    error := 0;
    j := 0;
    while j < 16 * 4
      invariant 0 <= j <= 64
      invariant error == 0
      invariant forall k :: 0 <= k < j ==> cypher[k] == out[k]
    {
      if cypher[j] != out[j] {
        error := 1;
        break;
      }
      j := j + 1;
    }
  }

  /** The configuration both tests make before any data: aes_clear, then
      aes_init for AES-128 encryption in the given mode, then aes_key_put of
      the 16-byte key. Whatever state the core was in, it ends loaded and empty. */
  method StartSession(dev: Device, key: array<byte>, manual: bool)
    requires dev.Inv() && key.Length == 16
    modifies dev
    ensures dev.Inv() && dev.engine == Loaded(Cfg(Enc, Aes128, manual), key[..])
    ensures dev.trace == old(dev.trace) + Setup(Cfg(Enc, Aes128, manual), key[..])
  {
    dev.Clear();
    var cfg := Cfg(Enc, Aes128, manual);
    dev.Init(cfg);
    dev.KeyPut(key, Aes128);
    assert key[..][..16] == key[..];
  }

  /** One pass of the manual loop: submit block i from plain at working,
      trigger it, wait for its image and copy it to out at outp. */
  method TriggerRound(dev: Device, ghost key: seq<byte>, plain: array<byte>, out: array<byte>, i: nat, working: nat, outp: nat)
    returns (working': nat, outp': nat)
    requires dev.Inv() && i < 4 && plain.Length == 64 && out.Length == 64 && out != plain
    requires working == 16 * i && outp == 16 * i
    requires dev.engine == Loaded(Cfg(Enc, Aes128, true), key)
    requires out[..16 * i] == Ecb(dev.cipher, Enc, key, plain[..], i)
    modifies dev, out
    ensures working' == 16 * (i + 1) && outp' == 16 * (i + 1)
    ensures dev.Inv() && dev.engine == Loaded(Cfg(Enc, Aes128, true), key)
    ensures out[..16 * (i + 1)] == Ecb(dev.cipher, Enc, key, plain[..], i + 1)
    ensures out[16 * (i + 1)..] == old(out[16 * (i + 1)..])
    ensures dev.trace == old(dev.trace) + ManualRound(i)
  {
    ghost var P, before := plain[..], out[..];
    ghost var b := BlockAt(P, i);
    ManualIteration(dev.cipher, Cfg(Enc, Aes128, true), key, b);
    dev.DataPutWait(plain, working);
    working' := working + 16;
    dev.Trigger();
    dev.DataGetWait(out, outp);
    outp' := outp + 16;
    BlockWritten(before, out[..], Ecb(dev.cipher, Enc, key, P, i), i, dev.cipher(Enc, key, b));
  }

  /** aes_test_trigger: manual mode, one block at a time. The device sees
      exactly the configuration calls followed by four put-trigger-get rounds,
      and out ends as the ECB image of plain. */
  method TriggerTest(dev: Device, key: array<byte>, plain: array<byte>, cypher: array<byte>, out: array<byte>)
    returns (error: int, j: int)
    requires dev.Inv()
    requires key.Length == 16 && plain.Length == 64 && cypher.Length == 64 && out.Length == 64
    requires out != key && out != plain && out != cypher
    modifies dev, out
    ensures dev.Inv() && dev.engine == Loaded(Cfg(Enc, Aes128, true), key[..])
    ensures dev.trace == old(dev.trace) + Setup(Cfg(Enc, Aes128, true), key[..]) + ManualSchedule(4)
    ensures out[..] == Ecb(dev.cipher, Enc, key[..], plain[..], 4)
    ensures Run(dev.cipher, plain[..], Machine(old(dev.engine), old(out[..])),
                Setup(Cfg(Enc, Aes128, true), key[..]) + ManualSchedule(4))
         == Some(Machine(dev.engine, out[..]))
    ensures j == FirstMismatch(cypher[..], out[..]) && (error == 1 <==> j < 64) && (error == 0 <==> j == 64)
  {
    ghost var start, e0, out0 := dev.trace, dev.engine, out[..];
    ghost var K, P := key[..], plain[..];
    var working := 0;
    var outp := 0;

    var cfg := Cfg(Enc, Aes128, true);
    StartSession(dev, key, true);

    var i := 0;
    while i < 4
      invariant 0 <= i <= 4
      invariant working == 16 * i && outp == 16 * i
      invariant key[..] == K && plain[..] == P
      invariant dev.Inv() && dev.engine == Loaded(cfg, K)
      invariant dev.trace == start + Setup(cfg, K) + ManualRounds(i)
      invariant out[..16 * i] == Ecb(dev.cipher, Enc, K, P, i)
    {
      working, outp := TriggerRound(dev, K, plain, out, i, working, outp);
      assert start + Setup(cfg, K) + ManualRounds(i + 1) == start + Setup(cfg, K) + ManualRounds(i) + ManualRound(i);
      i := i + 1;
    }
    assert out[..] == out[..64];
    ManualScheduleRun(dev.cipher, P, e0, out0, cfg, K, 4);

    error, j := FindFirstMismatch(cypher, out);
  }

  /** The two submissions before the automatic loop: block 0 after polling
      for input-ready, block 1 straight after it. */
  method AutomaticPrime(dev: Device, ghost key: seq<byte>, plain: array<byte>, working: nat) returns (working': nat)
    requires dev.Inv() && plain.Length == 64 && working == 0
    requires dev.engine == Loaded(Cfg(Enc, Aes128, false), key)
    modifies dev
    ensures working' == 32
    ensures dev.Inv() && dev.engine == AutoEngine(Cfg(Enc, Aes128, false), key, plain[..], 0, 4)
    ensures dev.trace == old(dev.trace) + AutoPrime()
  {
    dev.DataPutWait(plain, working);
    working' := working + 16;
    dev.DataPut(plain, working');
    working' := working' + 16;
    assert plain[..][0..16] == BlockAt(plain[..], 0) && plain[..][16..32] == BlockAt(plain[..], 1);
  }

  /** One pass of the automatic loop: wait for block i and copy it to out at
      outp, then, while plaintext remains (i < 2), submit block i + 2 from
      plain at working without polling. Both offsets advance by 16 per block. */
  method AutomaticRound(dev: Device, ghost key: seq<byte>, plain: array<byte>, out: array<byte>, i: nat, working: nat, outp: nat)
    returns (working': nat, outp': nat)
    requires dev.Inv() && i < 4 && plain.Length == 64 && out.Length == 64 && out != plain
    requires outp == 16 * i && working == 16 * (if i + 2 <= 4 then i + 2 else 4)
    requires dev.engine == AutoEngine(Cfg(Enc, Aes128, false), key, plain[..], i, 4)
    requires out[..16 * i] == Ecb(dev.cipher, Enc, key, plain[..], i)
    modifies dev, out
    ensures outp' == 16 * (i + 1) && working' == 16 * (if i + 3 <= 4 then i + 3 else 4)
    ensures dev.Inv() && dev.engine == AutoEngine(Cfg(Enc, Aes128, false), key, plain[..], i + 1, 4)
    ensures out[..16 * (i + 1)] == Ecb(dev.cipher, Enc, key, plain[..], i + 1)
    ensures out[16 * (i + 1)..] == old(out[16 * (i + 1)..])
    ensures dev.trace == old(dev.trace) + AutoRound(i, 4)
  {
    ghost var P, before := plain[..], out[..];
    AutoIteration(dev.cipher, P, Cfg(Enc, Aes128, false), key, 4, i);
    dev.DataGetWait(out, outp);
    outp' := outp + 16;
    BlockWritten(before, out[..], Ecb(dev.cipher, Enc, key, P, i), i, dev.cipher(Enc, key, BlockAt(P, i)));
    working' := working;
    if i < 2 {
      assert P[working..working + 16] == BlockAt(P, i + 2);
      dev.DataPut(plain, working);
      working' := working + 16;
    }
  }

  /** aes_test_automatic: automatic mode with two blocks submitted ahead.
      The device sees exactly the configuration calls, two puts, and then four
      rounds of one get followed by a put while plaintext remains; out ends as
      the ECB image of plain, the same as after TriggerTest. */
  method AutomaticTest(dev: Device, key: array<byte>, plain: array<byte>, cypher: array<byte>, out: array<byte>)
    returns (error: int, j: int)
    requires dev.Inv()
    requires key.Length == 16 && plain.Length == 64 && cypher.Length == 64 && out.Length == 64
    requires out != key && out != plain && out != cypher
    modifies dev, out
    ensures dev.Inv() && dev.engine == Loaded(Cfg(Enc, Aes128, false), key[..])
    ensures dev.trace == old(dev.trace) + Setup(Cfg(Enc, Aes128, false), key[..]) + AutomaticSchedule(4)
    ensures out[..] == Ecb(dev.cipher, Enc, key[..], plain[..], 4)
    ensures Run(dev.cipher, plain[..], Machine(old(dev.engine), old(out[..])),
                Setup(Cfg(Enc, Aes128, false), key[..]) + AutomaticSchedule(4))
         == Some(Machine(dev.engine, out[..]))
    ensures j == FirstMismatch(cypher[..], out[..]) && (error == 1 <==> j < 64) && (error == 0 <==> j == 64)
  {
    ghost var start, e0, out0 := dev.trace, dev.engine, out[..];
    ghost var K, P := key[..], plain[..];
    var working := 0;
    var outp := 0;

    var cfg := Cfg(Enc, Aes128, false);
    StartSession(dev, key, false);

    working := AutomaticPrime(dev, K, plain, working);
    ghost var primed := start + Setup(cfg, K) + AutoPrime();
    assert dev.trace == primed + AutoRounds(0, 4);

    var i := 0;
    while i < 4
      invariant 0 <= i <= 4
      invariant outp == 16 * i && working == 16 * (if i + 2 <= 4 then i + 2 else 4)
      invariant key[..] == K && plain[..] == P
      invariant dev.Inv() && dev.engine == AutoEngine(cfg, K, P, i, 4)
      invariant dev.trace == primed + AutoRounds(i, 4)
      invariant out[..16 * i] == Ecb(dev.cipher, Enc, K, P, i)
    {
      working, outp := AutomaticRound(dev, K, plain, out, i, working, outp);
      AutoRoundsSnoc(primed, i, 4);
      i := i + 1;
    }
    assert dev.trace == start + Setup(cfg, K) + AutomaticSchedule(4);
    assert out[..] == out[..64];
    assert AutoEngine(cfg, K, P, 4, 4) == Loaded(cfg, K);
    AutomaticScheduleRun(dev.cipher, P, e0, out0, cfg, K, 4);

    error, j := FindFirstMismatch(cypher, out);
  }
}
