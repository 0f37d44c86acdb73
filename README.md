# AES hardware test: block sequencing and result checking

This project models the two tests in `sw/device/tests/aes/aes_test.c`.
Each test drives the AES hardware core through the `aes_*` driver. It encrypts
the four ECB-AES128 blocks of Appendix F.1.1 of NIST SP 800-38A and compares
the output buffer with the expected ciphertext.

- `aes_test_trigger` runs the core in manual mode. Each block is put (after
  waiting for input-ready), triggered, and got back (after waiting for
  output-valid).
- `aes_test_automatic` runs the core in automatic mode. It submits two blocks
  first. Then each pass of its loop retrieves one block and, while `i < 2`,
  submits block `i + 2`.
- Both tests end with the same scan. It looks for the first byte where `out`
  differs from `cypher`, sets `error` and stops there.

The model has four modules.

- `AesTypes` holds bytes, 16-byte blocks and the driver's configuration record.
  The block transform is a parameter `cipher` that the model leaves
  uninterpreted, so every result holds for any transform. `Ecb` says what the
  output must be: the transform applied to each plaintext block separately, in
  order.
- `AesEngine` is the core as the driver presents it. A pure state machine goes
  Idle, then Configured, then KeyLoaded, and holds an in-order queue of at most
  two submitted blocks. A block is transformed when it is retrieved. The class
  `Device` stands for the hardware. Each driver call is a method that applies
  one transition to the `engine` field in place and records the call in a
  ghost `trace`.
- `Schedule` writes both pacing disciplines as sequences of driver calls, for
  any number of blocks `n` (the tests use `n = 4`). It replays a call sequence
  against the engine with `Run`. The lemmas prove what the replay shows:
  - every call is accepted;
  - the output is the ECB image of the plaintext, so no block is lost,
    duplicated or reordered;
  - the two disciplines write the same output;
  - the depth stays at most 1 in manual mode and at most 2 in automatic mode;
  - every buffer offset stays inside the 64 bytes;
  - configuration comes before data.
- `AesTest` holds the two tests as methods over arrays, with the source's
  `working` and `outp` offsets and its `for` loops, and the shared scan. Each
  test's postcondition ties the calls it made, the final core state and `out`
  to the `Schedule` lemmas.

## Model

| member | source | states |
|---|---|---|
| AesTypes.KeyBytes | sw/device/tests/aes/aes_test.c:58 | the core reads 16, 24 or 32 key bytes according to the key length; `kAes128` selects 16 |
| AesTypes.Ecb | sw/device/tests/aes/aes_test.c:11 | ECB over the first n blocks has exactly 16*n bytes |
| AesTypes.EcbBlockAt | sw/device/tests/aes/aes_test.c:11 | output block i of ECB is the transform of plaintext block i, for every i < n (output order matches input order) |
| AesEngine.Loaded | sw/device/tests/aes/aes_test.c:58 | a core with its key loaded holds no blocks and satisfies the engine invariant |
| AesEngine.Cleared | sw/device/tests/aes/aes_test.c:51 | aes_clear leaves the core idle, empty and without a key, whatever state it was in |
| AesEngine.Configure | sw/device/tests/aes/aes_test.c:56 | aes_init on an idle core makes it Configured with the given configuration and nothing in flight |
| AesEngine.LoadKey | sw/device/tests/aes/aes_test.c:58 | aes_key_put on a configured core loads the first KeyBytes(len) bytes of the key and leaves it ready for data with the configuration unchanged |
| AesEngine.Submit | sw/device/tests/aes/aes_test.c:62 | a put appends the block at the back of the queue, keeps key and configuration, starts the block at once only in automatic mode, and never exceeds depth 2 |
| AesEngine.Start | sw/device/tests/aes/aes_test.c:64 | aes_trigger starts one more submitted block, and changes nothing else |
| AesEngine.Retrieve | sw/device/tests/aes/aes_test.c:65 | a get removes the oldest block from the queue and returns its transform under the session's operation and key |
| AesEngine.Device.constructor | sw/device/tests/aes/aes_test.c:136-141 | the core starts in any valid state left by earlier software, with no calls recorded |
| AesEngine.Device.Clear | sw/device/tests/aes/aes_test.c:51 | the core becomes Cleared(), and one aes_clear is recorded |
| AesEngine.Device.Init | sw/device/tests/aes/aes_test.c:56 | the core becomes Configure(old, cfg), and one aes_init is recorded |
| AesEngine.Device.KeyPut | sw/device/tests/aes/aes_test.c:58 | the core becomes LoadKey(old, key, len), and one aes_key_put is recorded |
| AesEngine.Device.DataPutWait | sw/device/tests/aes/aes_test.c:62 | after input-ready, the 16 bytes at data[off..] are submitted, and one waiting put is recorded |
| AesEngine.Device.DataPut | sw/device/tests/aes/aes_test.c:103 | with input known to be ready, the 16 bytes at data[off..] are submitted, and one non-waiting put is recorded |
| AesEngine.Device.Trigger | sw/device/tests/aes/aes_test.c:64 | the core becomes Start(old), and one aes_trigger is recorded |
| AesEngine.Device.DataGetWait | sw/device/tests/aes/aes_test.c:65 | after output-valid, the oldest block's transform is written to data[off..off+16], every other byte of data is unchanged, and one get is recorded |
| AesEngine.Valid | sw/device/tests/aes/aes_test.c:101-104 | the engine invariant: at most two blocks (the pipeline depth) are submitted and not yet retrieved, none before a key is loaded, and in automatic mode every submitted block is started |
| Schedule.Setup | sw/device/tests/aes/aes_test.c:51-58 | the configuration calls: aes_clear, aes_init with the configuration, aes_key_put with the key and its length |
| Schedule.ManualRound | sw/device/tests/aes/aes_test.c:62-66 | iteration i of the manual loop: a waiting put from plain at 16*i, aes_trigger, a get into out at 16*i |
| Schedule.ManualRounds | sw/device/tests/aes/aes_test.c:61-67 | the first i manual iterations in order, three calls each |
| Schedule.ManualSchedule | sw/device/tests/aes/aes_test.c:61-67 | all data calls of the manual test for n blocks: one put, one trigger and one get per block |
| Schedule.AutoPrime | sw/device/tests/aes/aes_test.c:101-104 | the two puts before the automatic loop: a waiting put from offset 0, then a non-waiting put from offset 16 |
| Schedule.AutoRound | sw/device/tests/aes/aes_test.c:109-117 | iteration i of the automatic loop: a get into out at 16*i, then a non-waiting put from plain at 16*(i+2) while block i+2 exists (i < 2 for four blocks) |
| Schedule.AutoRounds | sw/device/tests/aes/aes_test.c:108-119 | the first i automatic iterations in order |
| Schedule.AutomaticSchedule | sw/device/tests/aes/aes_test.c:101-119 | all data calls of the automatic test for n blocks: the two puts, then the loop |
| Schedule.AutoRoundsLength | sw/device/tests/aes/aes_test.c:108-119 | i automatic iterations make i gets and one put for each iteration that still has a block i+2 to submit |
| Schedule.AutomaticScheduleLength | sw/device/tests/aes/aes_test.c:101-119 | the automatic test makes exactly 2*n data calls, one put and one get per block |
| Schedule.Exec | sw/device/tests/aes/aes_test.c:51-66 | a driver call that the core accepts keeps the engine invariant and the output buffer's length |
| Schedule.Run | sw/device/tests/aes/aes_test.c:51-66 | replaying accepted calls keeps the engine invariant and the output buffer's length |
| Schedule.RunAppend | sw/device/tests/aes/aes_test.c:51-66 | replaying a + b is replaying a and then replaying b from where a ended |
| Schedule.SetupRun | sw/device/tests/aes/aes_test.c:51-58 | aes_clear, aes_init and aes_key_put are accepted from any earlier state and leave the core loaded with nothing in flight |
| Schedule.ManualIteration | sw/device/tests/aes/aes_test.c:61-67 | in manual mode, put, trigger and get on a loaded core are each allowed, return the transform of the block, and leave the core as it was |
| Schedule.ManualRoundRun | sw/device/tests/aes/aes_test.c:61-67 | one manual iteration is accepted, writes the transform of block i at offset 16*i only, and leaves the core loaded and empty |
| Schedule.ManualRoundsRun | sw/device/tests/aes/aes_test.c:61-67 | after i manual iterations, out[..16*i] is the ECB image of the first i blocks and the rest of out is untouched |
| Schedule.ManualScheduleRun | sw/device/tests/aes/aes_test.c:51-67 | the whole manual test is accepted from any core state, and it leaves the core loaded and empty with out equal to the ECB image of plain |
| Schedule.AutoIteration | sw/device/tests/aes/aes_test.c:109-117 | in automatic iteration i, the get is allowed and returns the transform of block i; then the core holds blocks i+1 and i+2 once block i+2 is put, or whatever plaintext is left |
| Schedule.AutoPrimeRun | sw/device/tests/aes/aes_test.c:101-104 | the two initial puts are accepted and fill the pipeline with blocks 0 and 1 |
| Schedule.AutoRoundRun | sw/device/tests/aes/aes_test.c:109-117 | one automatic iteration is accepted, writes the transform of block i at offset 16*i only, and refills the pipeline with block i+2 while there is one |
| Schedule.AutoRoundsRun | sw/device/tests/aes/aes_test.c:108-119 | after i automatic iterations, out[..16*i] is the ECB image of the first i blocks, the rest of out is untouched, and blocks i and i+1 (those that exist) are in flight |
| Schedule.AutomaticScheduleRun | sw/device/tests/aes/aes_test.c:92-119 | the whole automatic test is accepted from any core state, and it leaves the core loaded and empty with out equal to the ECB image of plain |
| Schedule.SchedulesAgree | sw/device/tests/aes/aes_test.c:61-74 | for the same key and plaintext, the manual and automatic tests are both accepted and write identical output, whatever state the core and out were in |
| Schedule.InFlightAppend | sw/device/tests/aes/aes_test.c:101-119 | blocks in flight after a + b is the count after a plus the count after b |
| Schedule.SetupDepth | sw/device/tests/aes/aes_test.c:51-58 | no block is in flight at any point of the configuration |
| Schedule.ManualRoundsDepth | sw/device/tests/aes/aes_test.c:61-67 | through i manual iterations, 0 or 1 blocks are in flight at every point, and 0 after each iteration |
| Schedule.ManualDepth | sw/device/tests/aes/aes_test.c:51-67 | across the manual test, at most one block is ever in flight, and none at the end |
| Schedule.AutoPrimeDepth | sw/device/tests/aes/aes_test.c:101-104 | the two initial puts leave exactly two blocks in flight, and never more |
| Schedule.AutoRoundDepth | sw/device/tests/aes/aes_test.c:109-117 | one automatic iteration keeps 0..2 blocks in flight, and moves the count from its value before iteration j to its value before iteration j+1 |
| Schedule.AutoRoundsDepth | sw/device/tests/aes/aes_test.c:101-119 | after the puts and i iterations, 0..2 blocks are in flight at every point: two while two blocks remain, then n-i |
| Schedule.AutomaticDepth | sw/device/tests/aes/aes_test.c:92-119 | across the automatic test, submitted minus retrieved stays within 0..2, and is 0 when the loop ends |
| Schedule.OffsetsAppend | sw/device/tests/aes/aes_test.c:61-66 | the put and get offsets of a + b are those of a followed by those of b |
| Schedule.ManualRoundsOffsets | sw/device/tests/aes/aes_test.c:61-66 | manual iterations 0..i-1 put from plain at 0, 16, ..., 16*(i-1) and get into out at the same offsets, in that order |
| Schedule.ManualOffsets | sw/device/tests/aes/aes_test.c:61-66 | the manual test reads each plaintext block and writes each output block exactly once, in order, within 16*n bytes |
| Schedule.AutoRoundOffsets | sw/device/tests/aes/aes_test.c:109-117 | automatic iteration j gets into out at 16*j, and puts from plain at 16*(j+2) exactly when j+2 < n |
| Schedule.AutoRoundsOffsets | sw/device/tests/aes/aes_test.c:101-119 | after the puts and i iterations, the put offsets are 0, 16, ... up to block min(i+2, n)-1, and the get offsets are 0, ..., 16*(i-1) |
| Schedule.AutomaticOffsets | sw/device/tests/aes/aes_test.c:101-119 | the automatic test puts exactly n blocks, from offsets 0..16*(n-1) in order, so working stops at 16*n; it gets exactly n blocks into the same offsets of out |
| Schedule.AutoRoundsFirst | sw/device/tests/aes/aes_test.c:109-110 | the first call of the automatic loop is the get of block 0 into offset 0 |
| Schedule.AutomaticPrimesTwo | sw/device/tests/aes/aes_test.c:101-110 | exactly two blocks (offsets 0 and 16) are put before the first retrieval |
| Schedule.KeyBeforeData | sw/device/tests/aes/aes_test.c:58-62 | from a core without a key, any accepted call sequence loads a key before its first put, trigger or get |
| Schedule.InitBeforeKey | sw/device/tests/aes/aes_test.c:56-58 | from an idle core, any accepted call sequence calls aes_init before its first aes_key_put |
| Schedule.ConfigurationPrecedesData | sw/device/tests/aes/aes_test.c:51-62 | from an idle core, every data call of an accepted sequence comes after an aes_init that itself comes before an aes_key_put |
| AesTest.FirstMismatch | sw/device/tests/aes/aes_test.c:69-74 | the result is the first index where the two buffers differ, or their length when none does: all earlier bytes agree and the byte at the result differs |
| AesTest.CorruptedByteReported | sw/device/tests/aes/aes_test.c:122-127 | corrupting one byte of the expected ciphertext is reported at exactly that byte's offset |
| AesTest.FindFirstMismatch | sw/device/tests/aes/aes_test.c:69-74 | error is 1 exactly when some byte of out differs from cypher, and j is then the smallest such index; otherwise error stays 0 and j ends at 64 |
| AesTest.StartSession | sw/device/tests/aes/aes_test.c:51-58 | aes_clear, aes_init for AES-128 encryption in the given mode, then aes_key_put leave the core loaded with the 16-byte key and empty, from any earlier state |
| AesTest.TriggerRound | sw/device/tests/aes/aes_test.c:61-67 | one manual pass writes the transform of block i to out[16*i..16*i+16] and leaves out[16*(i+1)..] unchanged; the core ends loaded and empty, and working and outp advance by 16 |
| AesTest.TriggerTest | sw/device/tests/aes/aes_test.c:43-82 | the device sees exactly the configuration and four put-trigger-get rounds; out ends as the ECB image of plain, agrees with the replay of the same calls, and the scan's error and j are those of FindFirstMismatch |
| AesTest.AutomaticPrime | sw/device/tests/aes/aes_test.c:101-104 | the two puts before the loop fill the pipeline with blocks 0 and 1, and leave working at 32 |
| AesTest.AutomaticRound | sw/device/tests/aes/aes_test.c:109-117 | one automatic pass writes the transform of block i to out[16*i..16*i+16], leaves out[16*(i+1)..] unchanged, and submits block i+2 while i < 2; outp advances by 16 and working stops at 64 |
| AesTest.AutomaticTest | sw/device/tests/aes/aes_test.c:84-134 | the device sees exactly the configuration, two puts and four get(-put) rounds; out ends as the ECB image of plain, agrees with the replay of the same calls, and the scan's error and j are those of FindFirstMismatch |

## Left out

- The AES block transform (FIPS 197) runs in hardware. The model uses an uninterpreted `cipher` parameter and does not prove the NIST byte values.
- The byte tables `key`, `plain` and `cypher` (lines 14-39) appear only as arrays of the right lengths, with arbitrary contents.
- The driver library `sw/device/lib/aes.h` and its implementation are not part of this model. What each call does to the core follows the documented state machine (Idle, Configured, KeyLoaded, pipeline depth 2). The driver's own checks are not visible.
- Polling for input-ready and output-valid is modelled as a precondition. The source polls without a bound, so the model has no timeouts and no `InvalidConfig` or `EngineTimeout` errors, even though a hardened design would add them.
- Input-ready is modelled as a free pipeline slot (fewer than two blocks submitted and not retrieved), the same for `aes_data_put_wait` and `aes_data_put`: `DataPut` and `DataPutWait` have the same precondition, and `Exec` ignores the `wait` flag of a recorded put. The hardware timing that the non-polling puts at lines 103 and 114 rely on (the core has already taken the previous block off its input register) is not captured. The model's claim that those puts are accepted therefore rests on this abstraction.
- The core does not return to Idle when a test ends: neither test calls aes_clear at the end, so both methods leave the core KeyLoaded.
- `uart_init`, every `LOG_INFO`, and `main`'s choice of test (lines 136-141; `main` runs only `aes_test_automatic`) are I/O and logging. They are left out. `error` and `j` are returned as out-parameters instead of being logged (lines 76-80 and 128-132).
- The comparison loop appears twice in the source. The model has it once, as `FindFirstMismatch`, called by both tests.
- Each test's loop body is a method of its own (`TriggerRound`, `AutomaticRound`), and so are the two puts before the automatic loop (`AutomaticPrime`). The loops, their bounds and their offsets match the source.
- The Dec operation and the 192- and 256-bit key lengths are in the configuration record but neither test uses them. They carry no properties beyond the key length the core reads.
- `Schedule` states its results for any number of blocks n (at least 2 for the automatic test). The source fixes n = 4; the methods in `AesTest` use 4.
- Manual mode's trigger starts the oldest submitted block that is not yet started. With one block in flight this is the only block.
