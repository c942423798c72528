/**
 * The JNI boundary between the Kotlin app and the whisper engine (whisper_jni.cpp).
 *
 * The engine itself (whisper_init_from_file, whisper_full, whisper_full_str,
 * whisper_free) is not modelled: whatever it answers is a parameter of the
 * method that calls it, and every call into it is appended to a ghost log.
 * `Replay` reads such a log as a protocol: one context at a time, every use
 * and every free on the live context.
 */
module Jni {
  import opened Wrappers

  newtype int32 = x: int | -0x8000_0000 <= x < 0x8000_0000
  newtype int64 = x: int | -0x8000_0000_0000_0000 <= x < 0x8000_0000_0000_0000

  /** A whisper_context* carried through Kotlin as a jlong; 0 is the null pointer. */
  type Handle = int64

  /** A PCM sample, 16 kHz mono, nominally in [-1, 1]; float rounding is not modelled. */
  type Sample = real
  type Pcm = seq<Sample>

  /** The initial value of g_num_threads. */
  const DefaultThreads: int32 := 4

  /** One call into the engine, in the order the boundary makes them. */
  datatype EngineCall =
    | InitFromFile(path: string, result: Handle)
    | Full(ctx: Handle, nSamples: nat, nThreads: int32)
    | FullStr(ctx: Handle)
    | Free(ctx: Handle)

  /** The context that is live after `c` when `live` was (0: none), or None when
      `c` misuses the engine: uses or frees a context that is not the live one,
      or loads a second context while one is live (the first would leak). */
  function Step(live: Handle, c: EngineCall): Option<Handle>
  {
    match c
    case InitFromFile(_, result) =>
      if result == 0 then Some(live) else if live == 0 then Some(result) else None
    case Full(ctx, _, _) => if ctx != 0 && ctx == live then Some(live) else None
    case FullStr(ctx) => if ctx != 0 && ctx == live then Some(live) else None
    case Free(ctx) => if ctx != 0 && ctx == live then Some(0) else None
  }

  /** The live context after the whole log, starting with none, or None if the
      log breaks the protocol anywhere. */
  function Replay(calls: seq<EngineCall>): Option<Handle>
  {
    if calls == [] then Some(0)
    else match Replay(calls[..|calls| - 1])
      case None => None
      case Some(live) => Step(live, calls[|calls| - 1])
  }

  /** Number of successful model loads in the log. */
  function Loads(calls: seq<EngineCall>): nat
  {
    if calls == [] then 0
    else
      var c := calls[|calls| - 1];
      Loads(calls[..|calls| - 1]) + (if c.InitFromFile? && c.result != 0 then 1 else 0)
  }

  /** Number of frees in the log. */
  function Frees(calls: seq<EngineCall>): nat
  {
    if calls == [] then 0
    else Frees(calls[..|calls| - 1]) + (if calls[|calls| - 1].Free? then 1 else 0)
  }

  /** What the engine's answers make nativeRunInference return once it has
      reached the engine: "" on an error code, else the text, "" for a null text. */
  function EngineText(err: int, text: Option<string>): (r: string)
    ensures err != 0 ==> r == ""
    ensures err == 0 && text.Some? ==> r == text.value
    ensures text.None? ==> r == ""
  {
    if err != 0 then "" else if text.Some? then text.value else ""
  }

  lemma ReplayAppend(calls: seq<EngineCall>, c: EngineCall)
    ensures Replay(calls + [c]) == if Replay(calls).None? then None else Step(Replay(calls).value, c)
  {
    assert (calls + [c])[..|calls|] == calls;
  }

  /** A log that keeps the protocol keeps it at every earlier point too. */
  lemma {:induction false} ReplayPrefix(calls: seq<EngineCall>, k: nat)
    requires Replay(calls).Some? && k <= |calls|
    ensures Replay(calls[..k]).Some?
  {
    if k < |calls| {
      var init := calls[..|calls| - 1];
      ReplayPrefix(init, k);
      assert init[..k] == calls[..k];
    } else {
      assert calls[..k] == calls;
    }
  }

  /** No double free and no leak: a protocol-keeping log has freed every context
      it loaded except the one still live. */
  lemma {:induction false} LoadsBalanceFrees(calls: seq<EngineCall>)
    requires Replay(calls).Some?
    ensures Loads(calls) == Frees(calls) + (if Replay(calls).value == 0 then 0 else 1)
  {
    if calls != [] {
      LoadsBalanceFrees(calls[..|calls| - 1]);
    }
  }

  /** Every inference, text fetch and free in a protocol-keeping log is made on
      the context that was live just before it, never on null. */
  lemma CallsUseLiveContext(calls: seq<EngineCall>, i: nat)
    requires Replay(calls).Some? && i < |calls| && !calls[i].InitFromFile?
    ensures calls[i].ctx != 0 && Replay(calls[..i]) == Some(calls[i].ctx)
  {
    ReplayPrefix(calls, i + 1);
    assert calls[..i + 1][..i] == calls[..i];
  }

  /** No use after free: after a free, until a load succeeds, the engine is not
      touched except by loads that fail. */
  lemma {:induction false} NothingRunsAfterFree(calls: seq<EngineCall>, i: nat, j: nat)
    requires Replay(calls).Some? && i < j < |calls| && calls[i].Free?
    requires forall k :: i < k < j ==> calls[k].InitFromFile? && calls[k].result == 0
    ensures calls[j].InitFromFile?
  {
    ReplayPrefix(calls, j);
    NoLiveContextAfterFree(calls[..j], i);
    if !calls[j].InitFromFile? {
      CallsUseLiveContext(calls, j);
    }
  }

  /** Helper for NothingRunsAfterFree: a free followed only by failed loads
      leaves no live context. */
  lemma {:induction false} NoLiveContextAfterFree(calls: seq<EngineCall>, i: nat)
    requires Replay(calls).Some? && i < |calls| && calls[i].Free?
    requires forall k :: i < k < |calls| ==> calls[k].InitFromFile? && calls[k].result == 0
    ensures Replay(calls) == Some(0)
  {
    var init := calls[..|calls| - 1];
    ReplayPrefix(calls, |calls| - 1);
    if i < |calls| - 1 {
      NoLiveContextAfterFree(init, i);
    }
  }

  /**
   * The process-wide state of the native library: the global g_num_threads,
   * and (ghost) the log of calls made into the engine.
   */
  class NativeLib {
    var numThreads: int32
    ghost var calls: seq<EngineCall>

    /** g_num_threads is always positive, so every inference gets a positive count. */
    ghost predicate Valid()
      reads this
    {
      numThreads > 0 &&
      forall i :: 0 <= i < |calls| && calls[i].Full? ==> calls[i].nThreads > 0
    }

    /** Library load: g_num_threads starts at 4, nothing called yet. */
    constructor ()
      ensures Valid() && numThreads == DefaultThreads && calls == []
    {
      numThreads := DefaultThreads;
      calls := [];
    }

    /**
     * nativeInit. `path` is None when the model path's characters cannot be
     * obtained; `loaded` is what whisper_init_from_file answers (0 on failure).
     */
    method NativeInit(path: Option<string>, nThreads: int32, loaded: Handle) returns (h: Handle)
      requires Valid()
      modifies this
      ensures Valid()
      ensures path.None? ==> h == 0 && calls == old(calls)
      ensures path.Some? ==> h == loaded && calls == old(calls) + [InitFromFile(path.value, loaded)]
      ensures numThreads == if path.Some? && loaded != 0 && nThreads > 0 then nThreads else old(numThreads)
    {
      if path.None? {
        return 0;
      }
      calls := calls + [InitFromFile(path.value, loaded)];
      var ctx := loaded;
      if ctx == 0 {
        return 0;
      }
      numThreads := if nThreads > 0 then nThreads else numThreads;
      h := ctx;
    }

    /**
     * nativeRunInference. `pcm` is None for a null Java array; `err` and `text`
     * are what whisper_full and whisper_full_str answer if they are reached.
     */
    method NativeRunInference(ctx: Handle, pcm: Option<Pcm>, err: int, text: Option<string>) returns (r: string)
      requires Valid()
      modifies this
      ensures Valid() && numThreads == old(numThreads)
      ensures ctx == 0 || pcm.None? ==> r == "" && calls == old(calls)
      ensures ctx != 0 && pcm.Some? ==>
                r == EngineText(err, text) &&
                calls == old(calls) + [Full(ctx, |pcm.value|, numThreads)] + (if err == 0 then [FullStr(ctx)] else [])
    {
      if ctx == 0 || pcm.None? {
        return "";
      }
      var nSamples := |pcm.value|;
      calls := calls + [Full(ctx, nSamples, numThreads)];
      if err != 0 {
        return "";
      }
      calls := calls + [FullStr(ctx)];
      r := if text.Some? then text.value else "";
    }

    /** nativeFree: frees a non-null context exactly once, ignores null. */
    method NativeFree(ctx: Handle)
      requires Valid()
      modifies this
      ensures Valid() && numThreads == old(numThreads)
      ensures calls == old(calls) + (if ctx != 0 then [Free(ctx)] else [])
    {
      if ctx != 0 {
        calls := calls + [Free(ctx)];
      }
    }
  }
}
