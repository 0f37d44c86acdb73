// The two pacing disciplines of the AES test as sequences of driver calls, a
// replay of any call sequence against the engine model, and what the replay
// shows about both disciplines: the calls are accepted by the core, no block
// is lost, duplicated or reordered, the two disciplines write the same output,
// at most one (manual) or two (automatic) blocks are ever in flight, and every
// buffer offset stays inside the 16*n bytes of plaintext and output.
module Schedule {
  import opened AesTypes
  import opened AesEngine

  /** What a run of driver calls acts on: the core and the output buffer. */
  datatype Machine = Machine(engine: Engine, out: seq<byte>)

  /** One driver call against the core, reading blocks from plain and writing
      blocks into the output buffer. None: the call is out of protocol (a wait
      that never returns, a call in the wrong phase) or its 16 bytes fall
      outside the buffer. */
  function Exec(cipher: Cipher, plain: seq<byte>, m: Machine, c: Call): (r: Option<Machine>)
    requires Valid(m.engine)
    ensures r.Some? ==> Valid(r.value.engine) && |r.value.out| == |m.out|
  {
    match c
    case ClearCall => Some(m.(engine := Cleared()))
    case InitCall(cfg) =>
      if m.engine.phase == Idle then Some(m.(engine := Configure(m.engine, cfg))) else None
    case KeyPutCall(key, len) =>
      if CanLoadKey(m.engine, key, len) then Some(m.(engine := LoadKey(m.engine, key, len))) else None
    case DataPutCall(src, _) =>
      if CanSubmit(m.engine) && src + 16 <= |plain| then
        Some(m.(engine := Submit(m.engine, plain[src..src + 16])))
      else None
    case TriggerCall =>
      if CanStart(m.engine) then Some(m.(engine := Start(m.engine))) else None
    case DataGetCall(dst) =>
      if CanRetrieve(m.engine) && dst + 16 <= |m.out| then
        var r := Retrieve(cipher, m.engine);
        Some(Machine(r.0, m.out[..dst] + r.1 + m.out[dst + 16..]))
      else None
  }

  /** Replays a call sequence; None as soon as one call is refused. */
  function Run(cipher: Cipher, plain: seq<byte>, m: Machine, t: seq<Call>): (r: Option<Machine>)
    requires Valid(m.engine)
    ensures r.Some? ==> Valid(r.value.engine) && |r.value.out| == |m.out|
    decreases |t|
  {
    if t == [] then Some(m)
    else
      match Exec(cipher, plain, m, t[0])
      case None => None
      case Some(m') => Run(cipher, plain, m', t[1..])
  }

  lemma {:induction false} RunAppend(cipher: Cipher, plain: seq<byte>, m: Machine, a: seq<Call>, b: seq<Call>)
    requires Valid(m.engine)
    ensures Run(cipher, plain, m, a + b)
         == if Run(cipher, plain, m, a).None? then None
            else Run(cipher, plain, Run(cipher, plain, m, a).value, b)
    decreases |a|
  {
    if a == [] {
      assert a + b == b;
    } else {
      assert (a + b)[0] == a[0] && (a + b)[1..] == a[1..] + b;
      match Exec(cipher, plain, m, a[0])
      case None =>
      case Some(m') => RunAppend(cipher, plain, m', a[1..], b);
    }
  }

  /** Running a then b from m0 ends where b ends when started where a ends. */
  lemma RunThen(cipher: Cipher, plain: seq<byte>, m0: Machine, a: seq<Call>, m1: Machine, b: seq<Call>, m2: Machine)
    requires Valid(m0.engine) && Valid(m1.engine)
    requires Run(cipher, plain, m0, a) == Some(m1) && Run(cipher, plain, m1, b) == Some(m2)
    ensures Run(cipher, plain, m0, a + b) == Some(m2)
  {
    RunAppend(cipher, plain, m0, a, b);
  }

  lemma RunOne(cipher: Cipher, plain: seq<byte>, m: Machine, c: Call)
    requires Valid(m.engine)
    ensures Run(cipher, plain, m, [c]) == Exec(cipher, plain, m, c)
  {
    assert [c][1..] == [];
  }

  /** A data put the core accepts submits the 16 plaintext bytes at src. */
  lemma ExecPut(cipher: Cipher, plain: seq<byte>, m: Machine, src: nat, wait: bool)
    requires Valid(m.engine) && CanSubmit(m.engine) && src + 16 <= |plain|
    ensures Exec(cipher, plain, m, DataPutCall(src, wait)) == Some(m.(engine := Submit(m.engine, plain[src..src + 16])))
  {
  }

  lemma ExecTrigger(cipher: Cipher, plain: seq<byte>, m: Machine)
    requires Valid(m.engine) && CanStart(m.engine)
    ensures Exec(cipher, plain, m, TriggerCall) == Some(m.(engine := Start(m.engine)))
  {
  }

  /** A data get the core accepts writes the image of the oldest block at dst. */
  lemma ExecGet(cipher: Cipher, plain: seq<byte>, m: Machine, dst: nat)
    requires Valid(m.engine) && CanRetrieve(m.engine) && dst + 16 <= |m.out|
    ensures Exec(cipher, plain, m, DataGetCall(dst))
         == Some(Machine(Retrieve(cipher, m.engine).0,
                         m.out[..dst] + Retrieve(cipher, m.engine).1 + m.out[dst + 16..]))
  {
  }

  /** Three calls that each succeed run as one sequence. */
  lemma RunThree(cipher: Cipher, plain: seq<byte>, m0: Machine, c0: Call, m1: Machine, c1: Call,
                 m2: Machine, c2: Call, m3: Machine)
    requires Valid(m0.engine) && Valid(m1.engine) && Valid(m2.engine)
    requires Exec(cipher, plain, m0, c0) == Some(m1)
    requires Exec(cipher, plain, m1, c1) == Some(m2)
    requires Exec(cipher, plain, m2, c2) == Some(m3)
    ensures Run(cipher, plain, m0, [c0, c1, c2]) == Some(m3)
  {
    RunOne(cipher, plain, m0, c0);
    RunOne(cipher, plain, m1, c1);
    RunOne(cipher, plain, m2, c2);
    RunThen(cipher, plain, m1, [c1], m2, [c2], m3);
    RunThen(cipher, plain, m0, [c0], m1, [c1] + [c2], m3);
    assert [c0] + ([c1] + [c2]) == [c0, c1, c2];
  }

  // ---------------------------------------------------------------------
  // The call sequences of the two tests, for n blocks (the tests use n = 4)
  // ---------------------------------------------------------------------

  /** aes_clear, aes_init, aes_key_put: the configuration before any data. */
  function Setup(cfg: Cfg, key: seq<byte>): seq<Call>
  {
    [ClearCall, InitCall(cfg), KeyPutCall(key, cfg.keyLen)]
  }

  /** Iteration i of the manual loop: put block i with wait, trigger, get it back. */
  function ManualRound(i: nat): seq<Call>
  {
    [DataPutCall(16 * i, true), TriggerCall, DataGetCall(16 * i)]
  }

  /** The first i iterations of the manual loop: three calls each. */
  function ManualRounds(i: nat): (t: seq<Call>)
    ensures |t| == 3 * i
  {
    if i == 0 then [] else ManualRounds(i - 1) + ManualRound(i - 1)
  }

  /** The manual test's data calls for n blocks: one put, one trigger and one get each. */
  function ManualSchedule(n: nat): (t: seq<Call>)
    ensures |t| == 3 * n
  {
    ManualRounds(n)
  }

  /** The automatic test's first two submissions, made before any retrieval. */
  function AutoPrime(): seq<Call>
  {
    [DataPutCall(0, true), DataPutCall(16, false)]
  }

  /** Iteration i of the automatic loop: get block i; while input remains,
      submit block i + 2 (for n = 4 that is the test's `i < 2`). */
  function AutoRound(i: nat, n: nat): seq<Call>
  {
    [DataGetCall(16 * i)] + (if i + 2 < n then [DataPutCall(16 * (i + 2), false)] else [])
  }

  /** The first i iterations of the automatic loop: one get each, plus one
      put for each of them that has a block i + 2 left to submit. */
  function AutoRounds(i: nat, n: nat): seq<Call>
  {
    if i == 0 then [] else AutoRounds(i - 1, n) + AutoRound(i - 1, n)
  }

  lemma AutoRoundsSnoc(p: seq<Call>, i: nat, n: nat)
    ensures p + AutoRounds(i + 1, n) == (p + AutoRounds(i, n)) + AutoRound(i, n)
  {
    assert AutoRounds(i + 1, n) == AutoRounds(i, n) + AutoRound(i, n);
  }

  /** The automatic test's data calls for n blocks: two puts, then the loop. */
  function AutomaticSchedule(n: nat): seq<Call>
  {
    AutoPrime() + AutoRounds(n, n)
  }

  lemma {:induction false} AutoRoundsLength(i: nat, n: nat)
    requires 2 <= n
    ensures |AutoRounds(i, n)| == i + (if i <= n - 2 then i else n - 2)
  {
    if i > 0 {
      AutoRoundsLength(i - 1, n);
    }
  }

  /** The automatic test makes one put and one get per block: 2*n data calls. */
  lemma AutomaticScheduleLength(n: nat)
    requires 2 <= n
    ensures |AutomaticSchedule(n)| == 2 * n
  {
    AutoRoundsLength(n, n);
  }

  // ---------------------------------------------------------------------
  // Replaying the schedules
  // ---------------------------------------------------------------------

  /** Configuration from any earlier state leaves the core loaded and empty. */
  lemma SetupRun(cipher: Cipher, plain: seq<byte>, e: Engine, out0: seq<byte>, cfg: Cfg, key: seq<byte>)
    requires Valid(e) && |key| == KeyBytes(cfg.keyLen)
    ensures Run(cipher, plain, Machine(e, out0), Setup(cfg, key)) == Some(Machine(Loaded(cfg, key), out0))
  {
    var t := Setup(cfg, key);
    var m1 := Machine(Cleared(), out0);
    var m2 := Machine(Configure(Cleared(), cfg), out0);
    assert key[..KeyBytes(cfg.keyLen)] == key;
    assert t[1..] == [InitCall(cfg), KeyPutCall(key, cfg.keyLen)];
    assert t[1..][1..] == [KeyPutCall(key, cfg.keyLen)];
    assert Run(cipher, plain, m2, t[1..][1..]) == Some(Machine(Loaded(cfg, key), out0));
    assert Run(cipher, plain, m1, t[1..]) == Some(Machine(Loaded(cfg, key), out0));
  }

  /** One manual iteration: put, trigger and get leave the core as they found
      it and return the image of the block. */
  lemma ManualIteration(cipher: Cipher, cfg: Cfg, key: seq<byte>, b: Block)
    requires cfg.manualOperation
    ensures CanSubmit(Loaded(cfg, key)) && CanStart(Submit(Loaded(cfg, key), b))
    ensures CanRetrieve(Start(Submit(Loaded(cfg, key), b)))
    ensures Retrieve(cipher, Start(Submit(Loaded(cfg, key), b))) == (Loaded(cfg, key), cipher(cfg.operation, key, b))
  {
  }

  /** One manual iteration writes the image of block i at offset 16*i and
      leaves the core as it found it. The proof unfolds one round; induction
      on i, which Dafny would otherwise try, is not wanted here. */
  lemma {:induction false} ManualRoundRun(cipher: Cipher, plain: seq<byte>, cfg: Cfg, key: seq<byte>, out: seq<byte>, i: nat)
    requires cfg.manualOperation
    requires 16 * i + 16 <= |plain| && 16 * i + 16 <= |out|
    ensures Run(cipher, plain, Machine(Loaded(cfg, key), out), ManualRound(i))
         == Some(Machine(Loaded(cfg, key),
                         out[..16 * i] + cipher(cfg.operation, key, BlockAt(plain, i)) + out[16 * i + 16..]))
  {
    var b := BlockAt(plain, i);
    ManualIteration(cipher, cfg, key, b);
    var m0 := Machine(Loaded(cfg, key), out);
    var m1 := Machine(Submit(m0.engine, b), out);
    var m2 := Machine(Start(m1.engine), out);
    var m3 := Machine(Loaded(cfg, key), out[..16 * i] + cipher(cfg.operation, key, b) + out[16 * i + 16..]);
    ExecPut(cipher, plain, m0, 16 * i, true);
    ExecTrigger(cipher, plain, m1);
    ExecGet(cipher, plain, m2, 16 * i);
    RunThree(cipher, plain, m0, DataPutCall(16 * i, true), m1, TriggerCall, m2, DataGetCall(16 * i), m3);
  }

  /** Writing block b just behind a finished prefix of length k extends the
      prefix and leaves the rest of the buffer as it was. */
  lemma SpliceBlock(done: seq<byte>, out0: seq<byte>, k: nat, b: Block)
    requires |done| == k && k + 16 <= |out0|
    ensures (done + out0[k..])[..k] + b + (done + out0[k..])[k + 16..] == (done + b) + out0[k + 16..]
  {
    var out1 := done + out0[k..];
    assert out1[..k] == done;
    assert out1[k + 16..] == out0[k + 16..];
  }

  /** After i manual iterations the first 16*i output bytes are the ECB image
      of the first i blocks and the rest of the buffer is untouched. */
  lemma {:induction false} ManualRoundsRun(cipher: Cipher, plain: seq<byte>, cfg: Cfg, key: seq<byte>, out0: seq<byte>, n: nat, i: nat)
    requires cfg.manualOperation
    requires |plain| == 16 * n && |out0| == 16 * n && i <= n
    ensures Run(cipher, plain, Machine(Loaded(cfg, key), out0), ManualRounds(i))
         == Some(Machine(Loaded(cfg, key), Ecb(cipher, cfg.operation, key, plain, i) + out0[16 * i..]))
  {
    var m0 := Machine(Loaded(cfg, key), out0);
    if i == 0 {
      assert out0[0..] == out0;
      assert Ecb(cipher, cfg.operation, key, plain, 0) == [];
      assert Run(cipher, plain, m0, ManualRounds(0)) == Some(m0);
      assert Ecb(cipher, cfg.operation, key, plain, i) + out0[16 * i..] == out0;
    } else {
      var j := i - 1;
      ManualRoundsRun(cipher, plain, cfg, key, out0, n, j);
      RunAppend(cipher, plain, m0, ManualRounds(j), ManualRound(j));
      var done := Ecb(cipher, cfg.operation, key, plain, j);
      var out1 := done + out0[16 * j..];
      ManualRoundRun(cipher, plain, cfg, key, out1, j);
      SpliceBlock(done, out0, 16 * j, cipher(cfg.operation, key, BlockAt(plain, j)));
    }
  }

  /** The whole manual test from any earlier state of the core: every call is
      accepted, the core ends loaded with nothing in flight, and the output
      buffer holds the ECB image of the plaintext. The proof composes
      the lemmas above; induction on n, which Dafny would otherwise try, is
      not wanted here. */
  lemma {:induction false} ManualScheduleRun(cipher: Cipher, plain: seq<byte>, e: Engine, out0: seq<byte>, cfg: Cfg, key: seq<byte>, n: nat)
    requires Valid(e) && cfg.manualOperation && |key| == KeyBytes(cfg.keyLen)
    requires |plain| == 16 * n && |out0| == 16 * n
    ensures Run(cipher, plain, Machine(e, out0), Setup(cfg, key) + ManualSchedule(n))
         == Some(Machine(Loaded(cfg, key), Ecb(cipher, cfg.operation, key, plain, n)))
  {
    var c := Ecb(cipher, cfg.operation, key, plain, n);
    var m1 := Machine(Loaded(cfg, key), out0);
    SetupRun(cipher, plain, e, out0, cfg, key);
    ManualRoundsRun(cipher, plain, cfg, key, out0, n, n);
    assert out0[16 * n..] == [];
    assert c + out0[16 * n..] == c;
    assert Run(cipher, plain, m1, ManualSchedule(n)) == Some(Machine(Loaded(cfg, key), c));
    RunThen(cipher, plain, Machine(e, out0), Setup(cfg, key), m1, ManualSchedule(n),
            Machine(Loaded(cfg, key), Ecb(cipher, cfg.operation, key, plain, n)));
  }

  /** The blocks in flight before iteration i of the automatic loop: i and
      i + 1 while both exist. */
  function Pending(plain: seq<byte>, i: nat, n: nat): (q: seq<Block>)
    requires 16 * n <= |plain|
    ensures |q| <= PipelineDepth
  {
    if i + 2 <= n then [BlockAt(plain, i), BlockAt(plain, i + 1)]
    else if i < n then [BlockAt(plain, i)]
    else []
  }

  function AutoEngine(cfg: Cfg, key: seq<byte>, plain: seq<byte>, i: nat, n: nat): (e: Engine)
    requires 16 * n <= |plain| && !cfg.manualOperation
    ensures Valid(e)
  {
    var q := Pending(plain, i, n);
    Engine(KeyLoaded, cfg, key, q, |q|)
  }

  /** Iteration i of the automatic loop on the core: the retrieval returns
      the image of block i, and the core then holds blocks i + 1, i + 2 once
      block i + 2 is submitted, or what is left of the plaintext. */
  lemma AutoIteration(cipher: Cipher, plain: seq<byte>, cfg: Cfg, key: seq<byte>, n: nat, i: nat)
    requires !cfg.manualOperation && i < n && 16 * n <= |plain|
    ensures CanRetrieve(AutoEngine(cfg, key, plain, i, n))
    ensures Retrieve(cipher, AutoEngine(cfg, key, plain, i, n)).1 == cipher(cfg.operation, key, BlockAt(plain, i))
    ensures i + 2 < n ==>
              CanSubmit(Retrieve(cipher, AutoEngine(cfg, key, plain, i, n)).0) &&
              Submit(Retrieve(cipher, AutoEngine(cfg, key, plain, i, n)).0, BlockAt(plain, i + 2))
                == AutoEngine(cfg, key, plain, i + 1, n)
    ensures n <= i + 2 ==> Retrieve(cipher, AutoEngine(cfg, key, plain, i, n)).0 == AutoEngine(cfg, key, plain, i + 1, n)
  {
  }

  /** The two initial submissions fill the pipeline with blocks 0 and 1. */
  lemma AutoPrimeRun(cipher: Cipher, plain: seq<byte>, cfg: Cfg, key: seq<byte>, out: seq<byte>, n: nat)
    requires !cfg.manualOperation && 2 <= n && |plain| == 16 * n
    ensures Run(cipher, plain, Machine(Loaded(cfg, key), out), AutoPrime())
         == Some(Machine(AutoEngine(cfg, key, plain, 0, n), out))
  {
    var t := AutoPrime();
    var e1 := Submit(Loaded(cfg, key), BlockAt(plain, 0));
    var e2 := Submit(e1, BlockAt(plain, 1));
    assert plain[0..16] == BlockAt(plain, 0) && plain[16..32] == BlockAt(plain, 1);
    assert e2 == AutoEngine(cfg, key, plain, 0, n);
    assert t[1..] == [DataPutCall(16, false)];
    assert Run(cipher, plain, Machine(e1, out), t[1..]) == Some(Machine(e2, out));
  }

  /** Iteration i of the automatic loop retrieves block i into offset 16*i and
      refills the pipeline with block i + 2 when there is one. */
  lemma AutoRoundRun(cipher: Cipher, plain: seq<byte>, cfg: Cfg, key: seq<byte>, out: seq<byte>, n: nat, i: nat)
    requires !cfg.manualOperation && i < n && |plain| == 16 * n && 16 * i + 16 <= |out|
    ensures Run(cipher, plain, Machine(AutoEngine(cfg, key, plain, i, n), out), AutoRound(i, n))
         == Some(Machine(AutoEngine(cfg, key, plain, i + 1, n),
                         out[..16 * i] + cipher(cfg.operation, key, BlockAt(plain, i)) + out[16 * i + 16..]))
  {
    AutoIteration(cipher, plain, cfg, key, n, i);
    var m0 := Machine(AutoEngine(cfg, key, plain, i, n), out);
    var out' := out[..16 * i] + cipher(cfg.operation, key, BlockAt(plain, i)) + out[16 * i + 16..];
    var m1 := Machine(Retrieve(cipher, m0.engine).0, out');
    var m2 := Machine(AutoEngine(cfg, key, plain, i + 1, n), out');
    var get := DataGetCall(16 * i);
    RunOne(cipher, plain, m0, get);
    if i + 2 < n {
      var put := DataPutCall(16 * (i + 2), false);
      assert plain[16 * (i + 2)..16 * (i + 2) + 16] == BlockAt(plain, i + 2);
      RunOne(cipher, plain, m1, put);
      RunThen(cipher, plain, m0, [get], m1, [put], m2);
      assert AutoRound(i, n) == [get] + [put];
    } else {
      assert AutoRound(i, n) == [get];
    }
  }

  /** After i automatic iterations the first 16*i output bytes are the ECB
      image of the first i blocks and blocks i, i + 1 (as far as they exist)
      are in flight. */
  lemma {:induction false} AutoRoundsRun(cipher: Cipher, plain: seq<byte>, cfg: Cfg, key: seq<byte>, out0: seq<byte>, n: nat, i: nat)
    requires !cfg.manualOperation && |plain| == 16 * n && |out0| == 16 * n && i <= n
    ensures Run(cipher, plain, Machine(AutoEngine(cfg, key, plain, 0, n), out0), AutoRounds(i, n))
         == Some(Machine(AutoEngine(cfg, key, plain, i, n),
                         Ecb(cipher, cfg.operation, key, plain, i) + out0[16 * i..]))
  {
    var m0 := Machine(AutoEngine(cfg, key, plain, 0, n), out0);
    if i == 0 {
      assert out0[0..] == out0;
      assert Ecb(cipher, cfg.operation, key, plain, 0) == [];
      assert Run(cipher, plain, m0, AutoRounds(0, n)) == Some(m0);
      assert Ecb(cipher, cfg.operation, key, plain, i) + out0[16 * i..] == out0;
    } else {
      var j := i - 1;
      AutoRoundsRun(cipher, plain, cfg, key, out0, n, j);
      RunAppend(cipher, plain, m0, AutoRounds(j, n), AutoRound(j, n));
      var done := Ecb(cipher, cfg.operation, key, plain, j);
      var out1 := done + out0[16 * j..];
      assert AutoRounds(i, n) == AutoRounds(j, n) + AutoRound(j, n);
      AutoRoundRun(cipher, plain, cfg, key, out1, n, j);
      SpliceBlock(done, out0, 16 * j, cipher(cfg.operation, key, BlockAt(plain, j)));
    }
  }

  /** The whole automatic test from any earlier state of the core: every call
      is accepted, the core ends loaded with nothing in flight, and the output
      buffer holds the ECB image of the plaintext. The proof composes
      the lemmas above; induction on n, which Dafny would otherwise try, is
      not wanted here. */
  lemma {:induction false} AutomaticScheduleRun(cipher: Cipher, plain: seq<byte>, e: Engine, out0: seq<byte>, cfg: Cfg, key: seq<byte>, n: nat)
    requires Valid(e) && !cfg.manualOperation && |key| == KeyBytes(cfg.keyLen) && 2 <= n
    requires |plain| == 16 * n && |out0| == 16 * n
    ensures Run(cipher, plain, Machine(e, out0), Setup(cfg, key) + AutomaticSchedule(n))
         == Some(Machine(Loaded(cfg, key), Ecb(cipher, cfg.operation, key, plain, n)))
  {
    var c := Ecb(cipher, cfg.operation, key, plain, n);
    var m0 := Machine(e, out0);
    var m1 := Machine(Loaded(cfg, key), out0);
    var m2 := Machine(AutoEngine(cfg, key, plain, 0, n), out0);
    var done := Machine(Loaded(cfg, key), c);
    SetupRun(cipher, plain, e, out0, cfg, key);
    AutoPrimeRun(cipher, plain, cfg, key, out0, n);
    AutoRoundsRun(cipher, plain, cfg, key, out0, n, n);
    assert out0[16 * n..] == [];
    assert AutoEngine(cfg, key, plain, n, n) == Loaded(cfg, key);
    assert c + out0[16 * n..] == c;
    RunThen(cipher, plain, m1, AutoPrime(), m2, AutoRounds(n, n), done);
    RunThen(cipher, plain, m0, Setup(cfg, key), m1, AutomaticSchedule(n), done);
  }

  /** Both disciplines produce the same output for the same key and
      plaintext, whatever state the core and the output buffer were in. */
  lemma SchedulesAgree(cipher: Cipher, plain: seq<byte>, e1: Engine, e2: Engine, out1: seq<byte>, out2: seq<byte>,
                       cfg: Cfg, key: seq<byte>, n: nat)
    requires Valid(e1) && Valid(e2) && cfg.manualOperation && |key| == KeyBytes(cfg.keyLen) && 2 <= n
    requires |plain| == 16 * n && |out1| == 16 * n && |out2| == 16 * n
    ensures Run(cipher, plain, Machine(e1, out1), Setup(cfg, key) + ManualSchedule(n)).Some?
    ensures Run(cipher, plain, Machine(e2, out2), Setup(cfg.(manualOperation := false), key) + AutomaticSchedule(n)).Some?
    ensures Run(cipher, plain, Machine(e1, out1), Setup(cfg, key) + ManualSchedule(n)).value.out
         == Run(cipher, plain, Machine(e2, out2), Setup(cfg.(manualOperation := false), key) + AutomaticSchedule(n)).value.out
  {
    ManualScheduleRun(cipher, plain, e1, out1, cfg, key, n);
    AutomaticScheduleRun(cipher, plain, e2, out2, cfg.(manualOperation := false), key, n);
  }

  // ---------------------------------------------------------------------
  // Blocks in flight: submissions minus retrievals along a call sequence
  // ---------------------------------------------------------------------

  function Weight(c: Call): int
  {
    match c
    case DataPutCall(_, _) => 1
    case DataGetCall(_) => -1
    case _ => 0
  }

  /** Blocks submitted minus blocks retrieved. */
  function InFlight(t: seq<Call>): int
  {
    if t == [] then 0 else InFlight(t[..|t| - 1]) + Weight(t[|t| - 1])
  }

  lemma {:induction false} InFlightAppend(a: seq<Call>, b: seq<Call>)
    ensures InFlight(a + b) == InFlight(a) + InFlight(b)
    decreases |b|
  {
    if b == [] {
      assert a + b == a;
    } else {
      var b' := b[..|b| - 1];
      assert (a + b)[..|a + b| - 1] == a + b';
      InFlightAppend(a, b');
    }
  }

  /** At every point of t, between 0 and d blocks are in flight. */
  ghost predicate DepthWithin(t: seq<Call>, d: int)
  {
    forall k :: 0 <= k <= |t| ==> 0 <= InFlight(t[..k]) <= d
  }

  lemma DepthConcat(a: seq<Call>, b: seq<Call>, d: int)
    requires DepthWithin(a, d)
    requires forall k :: 0 <= k <= |b| ==> 0 <= InFlight(a) + InFlight(b[..k]) <= d
    ensures DepthWithin(a + b, d)
  {
    forall k | 0 <= k <= |a + b|
      ensures 0 <= InFlight((a + b)[..k]) <= d
    {
      if k <= |a| {
        assert (a + b)[..k] == a[..k];
      } else {
        assert (a + b)[..k] == a + b[..k - |a|];
        InFlightAppend(a, b[..k - |a|]);
      }
    }
  }

  lemma InFlight3(x: Call, y: Call, z: Call)
    ensures InFlight([x]) == Weight(x)
    ensures InFlight([x, y]) == Weight(x) + Weight(y)
    ensures InFlight([x, y, z]) == Weight(x) + Weight(y) + Weight(z)
  {
    assert [x, y][..1] == [x];
    assert [x, y, z][..2] == [x, y];
  }

  lemma SetupDepth(cfg: Cfg, key: seq<byte>)
    ensures DepthWithin(Setup(cfg, key), 0) && InFlight(Setup(cfg, key)) == 0
  {
    var t := Setup(cfg, key);
    InFlight3(t[0], t[1], t[2]);
    assert t[..0] == [] && t[..1] == [t[0]] && t[..2] == [t[0], t[1]] && t[..3] == t;
  }

  lemma {:induction false} ManualRoundsDepth(i: nat)
    ensures DepthWithin(ManualRounds(i), 1) && InFlight(ManualRounds(i)) == 0
  {
    if i == 0 {
      assert ManualRounds(0)[..0] == [];
    } else {
      ManualRoundsDepth(i - 1);
      var r := ManualRound(i - 1);
      InFlight3(r[0], r[1], r[2]);
      assert r[..0] == [] && r[..1] == [r[0]] && r[..2] == [r[0], r[1]] && r[..3] == r;
      DepthConcat(ManualRounds(i - 1), r, 1);
      InFlightAppend(ManualRounds(i - 1), r);
    }
  }

  /** Manual test: never more than one block in flight, none at the end. */
  lemma ManualDepth(cfg: Cfg, key: seq<byte>, n: nat)
    ensures DepthWithin(Setup(cfg, key) + ManualSchedule(n), 1)
    ensures InFlight(Setup(cfg, key) + ManualSchedule(n)) == 0
  {
    SetupDepth(cfg, key);
    ManualRoundsDepth(n);
    DepthConcat(Setup(cfg, key), ManualSchedule(n), 1);
    InFlightAppend(Setup(cfg, key), ManualSchedule(n));
  }

  /** Blocks in flight before automatic iteration i: two, fewer near the end. */
  function AutoInFlight(i: nat, n: nat): int
  {
    if i + 2 <= n then 2 else n - i
  }

  lemma AutoPrimeDepth()
    ensures DepthWithin(AutoPrime(), 2) && InFlight(AutoPrime()) == 2
  {
    var p := AutoPrime();
    InFlight3(p[0], p[1], p[1]);
    assert p[..0] == [] && p[..1] == [p[0]] && p[..2] == p;
  }

  /** Iteration j of the automatic loop keeps the depth within 2 and moves it
      from AutoInFlight(j, n) to AutoInFlight(j + 1, n). */
  lemma AutoRoundDepth(t: seq<Call>, j: nat, n: nat)
    requires j < n && DepthWithin(t, 2) && InFlight(t) == AutoInFlight(j, n)
    ensures DepthWithin(t + AutoRound(j, n), 2)
    ensures InFlight(t + AutoRound(j, n)) == AutoInFlight(j + 1, n)
  {
    var r := AutoRound(j, n);
    var second := if |r| == 2 then r[1] else r[0];
    InFlight3(r[0], second, r[0]);
    assert r[..0] == [] && r[..1] == [r[0]];
    assert |r| == 2 ==> r[..2] == [r[0], r[1]] == r;
    DepthConcat(t, r, 2);
    InFlightAppend(t, r);
  }

  lemma {:induction false} AutoRoundsDepth(i: nat, n: nat)
    requires 2 <= n && i <= n
    ensures DepthWithin(AutoPrime() + AutoRounds(i, n), 2)
    ensures InFlight(AutoPrime() + AutoRounds(i, n)) == AutoInFlight(i, n)
  {
    if i == 0 {
      AutoPrimeDepth();
      assert AutoPrime() + AutoRounds(0, n) == AutoPrime();
    } else {
      AutoRoundsDepth(i - 1, n);
      AutoRoundDepth(AutoPrime() + AutoRounds(i - 1, n), i - 1, n);
      AutoRoundsSnoc(AutoPrime(), i - 1, n);
    }
  }

  /** Automatic test: never more than two blocks in flight, none at the end. */
  lemma AutomaticDepth(cfg: Cfg, key: seq<byte>, n: nat)
    requires 2 <= n
    ensures DepthWithin(Setup(cfg, key) + AutomaticSchedule(n), 2)
    ensures InFlight(Setup(cfg, key) + AutomaticSchedule(n)) == 0
  {
    SetupDepth(cfg, key);
    AutoRoundsDepth(n, n);
    DepthConcat(Setup(cfg, key), AutomaticSchedule(n), 2);
    InFlightAppend(Setup(cfg, key), AutomaticSchedule(n));
  }

  // ---------------------------------------------------------------------
  // Buffer offsets: which block each submission reads and each retrieval writes
  // ---------------------------------------------------------------------

  /** The plaintext offsets of the submissions in t, in order. */
  function Sources(t: seq<Call>): seq<nat>
  {
    if t == [] then []
    else Sources(t[..|t| - 1]) + (if t[|t| - 1].DataPutCall? then [t[|t| - 1].src] else [])
  }

  /** The output offsets of the retrievals in t, in order. */
  function Dests(t: seq<Call>): seq<nat>
  {
    if t == [] then []
    else Dests(t[..|t| - 1]) + (if t[|t| - 1].DataGetCall? then [t[|t| - 1].dst] else [])
  }

  lemma {:induction false} OffsetsAppend(a: seq<Call>, b: seq<Call>)
    ensures Sources(a + b) == Sources(a) + Sources(b)
    ensures Dests(a + b) == Dests(a) + Dests(b)
    decreases |b|
  {
    if b == [] {
      assert a + b == a;
    } else {
      var b' := b[..|b| - 1];
      assert (a + b)[..|a + b| - 1] == a + b';
      OffsetsAppend(a, b');
    }
  }

  lemma OffsetsSnoc(t: seq<Call>, c: Call)
    ensures Sources(t + [c]) == Sources(t) + (if c.DataPutCall? then [c.src] else [])
    ensures Dests(t + [c]) == Dests(t) + (if c.DataGetCall? then [c.dst] else [])
  {
    assert (t + [c])[..|t|] == t;
  }

  /** 0, 16, ..., 16*(k-1): block k-1 ends at the k-th offset plus 16. */
  function Strides(k: nat): (s: seq<nat>)
    ensures |s| == k
  {
    seq(k, j => 16 * j)
  }

  lemma ManualRoundOffsets(t: seq<Call>, j: nat)
    ensures Sources(t + ManualRound(j)) == Sources(t) + [16 * j]
    ensures Dests(t + ManualRound(j)) == Dests(t) + [16 * j]
  {
    var r := ManualRound(j);
    assert t + r == t + [r[0]] + [r[1]] + [r[2]];
    OffsetsSnoc(t, r[0]);
    OffsetsSnoc(t + [r[0]], r[1]);
    OffsetsSnoc(t + [r[0]] + [r[1]], r[2]);
  }

  lemma {:induction false} ManualRoundsOffsets(i: nat)
    ensures Sources(ManualRounds(i)) == Strides(i) && Dests(ManualRounds(i)) == Strides(i)
  {
    if i > 0 {
      ManualRoundsOffsets(i - 1);
      ManualRoundOffsets(ManualRounds(i - 1), i - 1);
      assert Strides(i) == Strides(i - 1) + [16 * (i - 1)];
    }
  }

  /** Manual test: block j is submitted from plain[16*j..] and retrieved into
      out[16*j..], for j = 0 .. n-1 in order, each exactly once. */
  lemma ManualOffsets(n: nat)
    ensures Sources(ManualSchedule(n)) == Strides(n)
    ensures Dests(ManualSchedule(n)) == Strides(n)
  {
    ManualRoundsOffsets(n);
  }

  lemma AutoRoundOffsets(t: seq<Call>, j: nat, n: nat)
    ensures Sources(t + AutoRound(j, n)) == Sources(t) + (if j + 2 < n then [16 * (j + 2)] else [])
    ensures Dests(t + AutoRound(j, n)) == Dests(t) + [16 * j]
  {
    var get := DataGetCall(16 * j);
    OffsetsSnoc(t, get);
    if j + 2 < n {
      var put := DataPutCall(16 * (j + 2), false);
      assert t + AutoRound(j, n) == t + [get] + [put];
      OffsetsSnoc(t + [get], put);
    } else {
      assert t + AutoRound(j, n) == t + [get];
    }
  }

  lemma {:induction false} AutoRoundsOffsets(i: nat, n: nat)
    requires 2 <= n && i <= n
    ensures Sources(AutoPrime() + AutoRounds(i, n)) == Strides(if i + 2 <= n then i + 2 else n)
    ensures Dests(AutoPrime() + AutoRounds(i, n)) == Strides(i)
  {
    var p := AutoPrime();
    if i == 0 {
      assert p + AutoRounds(0, n) == [] + [p[0]] + [p[1]];
      OffsetsSnoc([], p[0]);
      OffsetsSnoc([] + [p[0]], p[1]);
      assert Strides(2) == [0, 16];
    } else {
      var j := i - 1;
      AutoRoundsOffsets(j, n);
      AutoRoundsSnoc(p, j, n);
      AutoRoundOffsets(p + AutoRounds(j, n), j, n);
      assert Strides(i) == Strides(j) + [16 * j];
      assert j + 2 < n ==> Strides(j + 3) == Strides(j + 2) + [16 * (j + 2)];
    }
  }

  /** Automatic test: block j is submitted from plain[16*j..] and retrieved
      into out[16*j..], for j = 0 .. n-1 in order, each exactly once; the
      plaintext offset stops at 16*n. */
  lemma AutomaticOffsets(n: nat)
    requires 2 <= n
    ensures Sources(AutomaticSchedule(n)) == Strides(n)
    ensures Dests(AutomaticSchedule(n)) == Strides(n)
  {
    AutoRoundsOffsets(n, n);
  }

  lemma {:induction false} AutoRoundsFirst(i: nat, n: nat)
    requires 1 <= i
    ensures AutoRounds(i, n)[0] == DataGetCall(0)
  {
    if i == 1 {
      assert AutoRounds(1, n) == AutoRound(0, n);
    } else {
      AutoRoundsFirst(i - 1, n);
    }
  }

  /** Automatic test: exactly two blocks are submitted before the first retrieval. */
  lemma AutomaticPrimesTwo(n: nat)
    requires 1 <= n
    ensures AutomaticSchedule(n)[..3] == [DataPutCall(0, true), DataPutCall(16, false), DataGetCall(0)]
  {
    AutoRoundsFirst(n, n);
  }

  // ---------------------------------------------------------------------
  // Configuration precedes data
  // ---------------------------------------------------------------------

  /** From a core without a key, an accepted call sequence loads a key before
      its first data transfer or trigger. */
  lemma {:induction false} KeyBeforeData(cipher: Cipher, plain: seq<byte>, m: Machine, t: seq<Call>, k: nat)
    requires Valid(m.engine) && m.engine.phase != KeyLoaded
    requires Run(cipher, plain, m, t).Some?
    requires k < |t| && (t[k].DataPutCall? || t[k].TriggerCall? || t[k].DataGetCall?)
    ensures exists j :: 0 <= j < k && t[j].KeyPutCall?
    decreases |t|
  {
    var m' := Exec(cipher, plain, m, t[0]).value;
    if !t[0].KeyPutCall? {
      assert m'.engine.phase != KeyLoaded;
      KeyBeforeData(cipher, plain, m', t[1..], k - 1);
      var j :| 0 <= j < k - 1 && t[1..][j].KeyPutCall?;
      assert t[j + 1].KeyPutCall?;
    }
  }

  /** From an idle core, an accepted call sequence configures the core before
      it loads a key. */
  lemma {:induction false} InitBeforeKey(cipher: Cipher, plain: seq<byte>, m: Machine, t: seq<Call>, k: nat)
    requires Valid(m.engine) && m.engine.phase == Idle
    requires Run(cipher, plain, m, t).Some?
    requires k < |t| && t[k].KeyPutCall?
    ensures exists i :: 0 <= i < k && t[i].InitCall?
    decreases |t|
  {
    var m' := Exec(cipher, plain, m, t[0]).value;
    if !t[0].InitCall? {
      assert m'.engine.phase == Idle;
      InitBeforeKey(cipher, plain, m', t[1..], k - 1);
      var i :| 0 <= i < k - 1 && t[1..][i].InitCall?;
      assert t[i + 1].InitCall?;
    }
  }

  /** From an idle core, every data transfer of an accepted call sequence is
      preceded by aes_init and then aes_key_put. */
  lemma ConfigurationPrecedesData(cipher: Cipher, plain: seq<byte>, m: Machine, t: seq<Call>, k: nat)
    requires Valid(m.engine) && m.engine.phase == Idle
    requires Run(cipher, plain, m, t).Some?
    requires k < |t| && (t[k].DataPutCall? || t[k].TriggerCall? || t[k].DataGetCall?)
    ensures exists i, j :: 0 <= i < j < k && t[i].InitCall? && t[j].KeyPutCall?
  {
    KeyBeforeData(cipher, plain, m, t, k);
    var j :| 0 <= j < k && t[j].KeyPutCall?;
    InitBeforeKey(cipher, plain, m, t, j);
    var i :| 0 <= i < j && t[i].InitCall?;
  }
}
