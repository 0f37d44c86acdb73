// The AES core as the test sees it through the aes_* driver: a configuration
// state machine (Idle, Configured, KeyLoaded) and an in-order queue of at most
// two submitted blocks. A block is transformed when it is retrieved. Each
// transition is a pure function; the Device class stands for the hardware and
// applies them in place, one per driver call, recording the call.
module AesEngine {
  import opened AesTypes

  /** Blocks the core may hold submitted but not yet retrieved. */
  const PipelineDepth: nat := 2

  datatype Phase = Idle | Configured | KeyLoaded

  /** The core's state: its configuration, the loaded key, the submitted
      blocks not yet retrieved (oldest first), and how many of those, counted
      from the oldest, have been started. */
  datatype Engine = Engine(phase: Phase, cfg: Cfg, key: seq<byte>, queue: seq<Block>, started: nat)

  /** One driver call as the test issues it; buffer arguments are recorded as
      byte offsets into the caller's buffer. */
  datatype Call =
    | ClearCall
    | InitCall(cfg: Cfg)
    | KeyPutCall(key: seq<byte>, len: KeyLen)
    | DataPutCall(src: nat, wait: bool)
    | TriggerCall
    | DataGetCall(dst: nat)

  /** The core's invariant: no more than PipelineDepth blocks in flight, none
      before a key is loaded, and in automatic mode every submitted block is
      started on submission. */
  predicate Valid(e: Engine)
  {
    && e.started <= |e.queue| <= PipelineDepth
    && (e.phase != KeyLoaded ==> e.queue == [])
    && (!e.cfg.manualOperation ==> e.started == |e.queue|)
  }

  /** Session state after a key is loaded and before any data. */
  function Loaded(cfg: Cfg, key: seq<byte>): (e: Engine)
    ensures Valid(e) && e.phase == KeyLoaded && e.queue == []
  {
    Engine(KeyLoaded, cfg, key, [], 0)
  }

  /** aes_clear: back to an unconfigured, empty core, whatever came before. */
  function Cleared(): (e: Engine)
    ensures Valid(e) && e.phase == Idle && e.queue == [] && e.key == []
  {
    Engine(Idle, Cfg(Enc, Aes128, false), [], [], 0)
  }

  /** aes_init: program the configuration into an idle core. */
  function Configure(e: Engine, cfg: Cfg): (r: Engine)
    requires e.phase == Idle
    ensures Valid(r) && r.phase == Configured && r.cfg == cfg && r.queue == []
  {
    Engine(Configured, cfg, [], [], 0)
  }

  predicate CanLoadKey(e: Engine, key: seq<byte>, len: KeyLen)
  {
    e.phase == Configured && KeyBytes(len) <= |key|
  }

  /** aes_key_put: the core reads the first KeyBytes(len) bytes of the key
      buffer and becomes ready for data. */
  function LoadKey(e: Engine, key: seq<byte>, len: KeyLen): (r: Engine)
    requires Valid(e) && CanLoadKey(e, key, len)
    ensures r == Loaded(e.cfg, key[..KeyBytes(len)])
  {
    e.(phase := KeyLoaded, key := key[..KeyBytes(len)])
  }

  /** Input is ready: a key is loaded and the pipeline has a free slot. */
  predicate CanSubmit(e: Engine)
  {
    e.phase == KeyLoaded && |e.queue| < PipelineDepth
  }

  /** aes_data_put / aes_data_put_wait: the block joins the back of the queue;
      in automatic mode it is started at once. */
  function Submit(e: Engine, b: Block): (r: Engine)
    requires Valid(e) && CanSubmit(e)
    ensures Valid(r) && r.phase == KeyLoaded && r.cfg == e.cfg && r.key == e.key
    ensures r.queue == e.queue + [b]
    ensures r.started == if e.cfg.manualOperation then e.started else e.started + 1
  {
    e.(queue := e.queue + [b], started := if e.cfg.manualOperation then e.started else e.started + 1)
  }

  /** A trigger is meaningful only in manual mode with a submitted block not yet started. */
  predicate CanStart(e: Engine)
  {
    e.phase == KeyLoaded && e.cfg.manualOperation && e.started < |e.queue|
  }

  /** aes_trigger: start the oldest submitted block that is not started. */
  function Start(e: Engine): (r: Engine)
    requires Valid(e) && CanStart(e)
    ensures Valid(r) && r.phase == KeyLoaded && r.cfg == e.cfg && r.key == e.key
    ensures r.queue == e.queue && r.started == e.started + 1
  {
    e.(started := e.started + 1)
  }

  /** Output will become valid: some started block is in flight. Waiting for
      output with nothing started would never return. */
  predicate CanRetrieve(e: Engine)
  {
    e.phase == KeyLoaded && 0 < e.started
  }

  /** aes_data_get_wait: the oldest block leaves the queue and comes back
      transformed under the session's operation and key. */
  function Retrieve(cipher: Cipher, e: Engine): (r: (Engine, Block))
    requires Valid(e) && CanRetrieve(e)
    ensures Valid(r.0) && r.0.phase == KeyLoaded && r.0.cfg == e.cfg && r.0.key == e.key
    ensures [e.queue[0]] + r.0.queue == e.queue && r.0.started + 1 == e.started
    ensures r.1 == cipher(e.cfg.operation, e.key, e.queue[0])
  {
    (e.(queue := e.queue[1..], started := e.started - 1), cipher(e.cfg.operation, e.key, e.queue[0]))
  }

  /** The hardware core behind the aes_* driver. Its registers are updated in
      place; trace records every driver call made on it. */
  class Device {
    const cipher: Cipher
    var engine: Engine
    ghost var trace: seq<Call>

    ghost predicate Inv()
      reads this
    {
      Valid(engine)
    }

    /** A core in whatever state an earlier session left it. */
    constructor (cipher: Cipher, initial: Engine)
      requires Valid(initial)
      ensures Inv() && this.cipher == cipher && engine == initial && trace == []
    {
      this.cipher := cipher;
      engine := initial;
      trace := [];
    }

    method Clear()
      requires Inv()
      modifies this
      ensures Inv() && engine == Cleared() && trace == old(trace) + [ClearCall]
    {
      engine := Cleared();
      trace := trace + [ClearCall];
    }

    method Init(cfg: Cfg)
      requires Inv() && engine.phase == Idle
      modifies this
      ensures Inv() && engine == Configure(old(engine), cfg)
      ensures trace == old(trace) + [InitCall(cfg)]
    {
      engine := Configure(engine, cfg);
      trace := trace + [InitCall(cfg)];
    }

    method KeyPut(key: array<byte>, len: KeyLen)
      requires Inv() && CanLoadKey(engine, key[..], len)
      modifies this
      ensures Inv() && engine == LoadKey(old(engine), key[..], len)
      ensures trace == old(trace) + [KeyPutCall(key[..], len)]
    {
      engine := LoadKey(engine, key[..], len);
      trace := trace + [KeyPutCall(key[..], len)];
    }

    /** Waits for input-ready, then writes the 16 bytes at data[off..]. */
    method DataPutWait(data: array<byte>, off: nat)
      requires Inv() && CanSubmit(engine) && off + 16 <= data.Length
      modifies this
      ensures Inv() && engine == Submit(old(engine), data[off..off + 16])
      ensures trace == old(trace) + [DataPutCall(off, true)]
    {
      engine := Submit(engine, data[off..off + 16]);
      trace := trace + [DataPutCall(off, true)];
    }

    /** Writes the 16 bytes at data[off..] without polling; the caller knows
        that input is ready. */
    method DataPut(data: array<byte>, off: nat)
      requires Inv() && CanSubmit(engine) && off + 16 <= data.Length
      modifies this
      ensures Inv() && engine == Submit(old(engine), data[off..off + 16])
      ensures trace == old(trace) + [DataPutCall(off, false)]
    {
      engine := Submit(engine, data[off..off + 16]);
      trace := trace + [DataPutCall(off, false)];
    }

    method Trigger()
      requires Inv() && CanStart(engine)
      modifies this
      ensures Inv() && engine == Start(old(engine))
      ensures trace == old(trace) + [TriggerCall]
    {
      engine := Start(engine);
      trace := trace + [TriggerCall];
    }

    /** Waits for output-valid, then copies the output block to data[off..];
        the rest of data is untouched. */
    method DataGetWait(data: array<byte>, off: nat)
      requires Inv() && CanRetrieve(engine) && off + 16 <= data.Length
      modifies this, data
      ensures Inv() && engine == Retrieve(cipher, old(engine)).0
      ensures data[..] == old(data[..off]) + Retrieve(cipher, old(engine)).1 + old(data[off + 16..])
      ensures trace == old(trace) + [DataGetCall(off)]
    {
      var r := Retrieve(cipher, engine);
      engine := r.0;
      forall k | 0 <= k < 16 {
        data[off + k] := r.1[k];
      }
      trace := trace + [DataGetCall(off)];
    }
  }
}
