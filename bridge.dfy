/**
 * WhisperBridge: the Kotlin singleton that owns the one engine context.
 *
 * Its single mutable field `ctxHandle` (0: no model loaded) gates every call
 * into the native library. The object invariant says that the log of engine
 * calls made through the bridge keeps the engine protocol of module Jni and
 * that the live context is exactly `ctxHandle`; with LoadsBalanceFrees and
 * NothingRunsAfterFree this rules out double frees, leaks and use after free.
 */
module Bridge {
  import opened Wrappers
  import opened Jni

  class WhisperBridge {
    var ctxHandle: Handle
    const native: NativeLib

    ghost predicate Valid()
      reads this, native
    {
      native.Valid() && Replay(native.calls) == Some(ctxHandle)
    }

    /** Object initialisation: the native library is loaded, no model yet. */
    constructor ()
      ensures Valid() && fresh(native)
      ensures ctxHandle == 0 && native.calls == [] && native.numThreads == DefaultThreads
    {
      ctxHandle := 0;
      native := new NativeLib();
    }

    /**
     * init: loads the model only when none is loaded; `loaded` is what the
     * engine's loader answers if it is reached. Returns whether a context is ready.
     */
    method Init(modelPath: string, nThreads: int32, loaded: Handle) returns (ready: bool)
      requires Valid()
      modifies this, native
      ensures Valid()
      ensures ready <==> ctxHandle != 0
      ensures old(ctxHandle) != 0 ==> ctxHandle == old(ctxHandle) && unchanged(native)
      ensures old(ctxHandle) == 0 ==>
                ctxHandle == loaded &&
                native.calls == old(native.calls) + [InitFromFile(modelPath, loaded)] &&
                native.numThreads == (if loaded != 0 && nThreads > 0 then nThreads else old(native.numThreads))
    {
      if ctxHandle != 0 {
        return true;
      }
      ReplayAppend(native.calls, InitFromFile(modelPath, loaded));
      ctxHandle := native.NativeInit(Some(modelPath), nThreads, loaded);
      ready := ctxHandle != 0;
    }

    /**
     * transcribe: "" without reaching the native layer when no model is loaded,
     * else exactly what nativeRunInference answers for the live context.
     * `err` and `text` are the engine's answers if it is reached.
     */
    method Transcribe(pcm: Pcm, err: int, text: Option<string>) returns (r: string)
      requires Valid()
      modifies native
      ensures Valid() && ctxHandle == old(ctxHandle) && native.numThreads == old(native.numThreads)
      ensures ctxHandle == 0 ==> r == "" && native.calls == old(native.calls)
      ensures ctxHandle != 0 ==>
                r == EngineText(err, text) &&
                native.calls == old(native.calls) + [Full(ctxHandle, |pcm|, native.numThreads)]
                                + (if err == 0 then [FullStr(ctxHandle)] else [])
    {
      if ctxHandle == 0 {
        return "";
      }
      ghost var before := native.calls;
      ReplayAppend(before, Full(ctxHandle, |pcm|, native.numThreads));
      ReplayAppend(before + [Full(ctxHandle, |pcm|, native.numThreads)], FullStr(ctxHandle));
      r := native.NativeRunInference(ctxHandle, Some(pcm), err, text);
      assert err != 0 ==> native.calls == before + [Full(ctxHandle, |pcm|, native.numThreads)];
    }

    /** release: frees the live context once and forgets it; nothing when none is loaded. */
    method Release()
      requires Valid()
      modifies this, native
      ensures Valid() && ctxHandle == 0 && native.numThreads == old(native.numThreads)
      ensures native.calls == old(native.calls) + (if old(ctxHandle) != 0 then [Free(old(ctxHandle))] else [])
    {
      if ctxHandle != 0 {
        ReplayAppend(native.calls, Free(ctxHandle));
        native.NativeFree(ctxHandle);
        ctxHandle := 0;
      }
    }
  }

  /** A second init while a model is loaded is a success that does not reach
      the engine, whatever the engine would have answered. */
  method InitTwice(modelPath: string, nThreads: int32, first: Handle, second: Handle)
    returns (ready1: bool, ready2: bool, handle: Handle)
    requires first != 0
    ensures ready1 && ready2 && handle == first
  {
    var b := new WhisperBridge();
    ready1 := b.Init(modelPath, nThreads, first);
    ready2 := b.Init(modelPath, nThreads, second);
    assert b.native.calls == [InitFromFile(modelPath, first)];
    handle := b.ctxHandle;
  }

  /** Releasing twice frees the context once; afterwards transcription answers ""
      without reaching the engine. */
  method ReleaseTwiceThenTranscribe(modelPath: string, nThreads: int32, loaded: Handle,
                                    pcm: Pcm, err: int, text: Option<string>)
    returns (ready: bool, after: string)
    ensures ready == (loaded != 0)
    ensures after == ""
  {
    var b := new WhisperBridge();
    ready := b.Init(modelPath, nThreads, loaded);
    b.Release();
    b.Release();
    after := b.Transcribe(pcm, err, text);
    LoadsBalanceFrees(b.native.calls);
    assert Frees(b.native.calls) == Loads(b.native.calls);
  }

  /** After a release, init loads afresh: its answer is the new load's. */
  method ReleaseThenReinit(modelPath: string, nThreads: int32, first: Handle, second: Handle)
    returns (ready1: bool, ready2: bool)
    ensures ready1 == (first != 0) && ready2 == (second != 0)
  {
    var b := new WhisperBridge();
    ready1 := b.Init(modelPath, nThreads, first);
    b.Release();
    ready2 := b.Init(modelPath, nThreads, second);
  }

  /** With a model loaded, the engine sees the whole buffer and the current thread
      count, and transcribe passes its answer through. */
  method TranscribeLoaded(modelPath: string, nThreads: int32, loaded: Handle,
                          pcm: Pcm, text: string)
    returns (r: string)
    requires loaded != 0 && nThreads > 0
    ensures r == text
  {
    var b := new WhisperBridge();
    var ready := b.Init(modelPath, nThreads, loaded);
    r := b.Transcribe(pcm, 0, Some(text));
    assert b.native.calls == [InitFromFile(modelPath, loaded), Full(loaded, |pcm|, nThreads), FullStr(loaded)];
  }
}
