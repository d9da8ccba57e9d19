/**
 * The speech-detector wrapper of the web client (`useVAD`): one optional reference to a started
 * detector, with null-safe `pause` and `resume` and an idempotent `stop`.
 */
module Vad {

  /** The detector object created by `MicVAD.new`, reduced to whether it classifies and whether it was destroyed. */
  class Detector {
    var running: bool
    var destroyed: bool

    constructor ()
      ensures !running && !destroyed
    {
      running := false;
      destroyed := false;
    }

    /** The detector's `start()`: begin (or continue) classifying. */
    method Start()
      modifies this
      ensures running && destroyed == old(destroyed)
    {
      running := true;
    }

    /** The detector's `pause()`. */
    method Pause()
      modifies this
      ensures !running && destroyed == old(destroyed)
    {
      running := false;
    }

    /** The detector's `destroy()`: releases the microphone. */
    method Destroy()
      modifies this
      ensures destroyed && running == old(running)
    {
      destroyed := true;
    }
  }

  /** What the gate's callers observe: the referenced detector, its two flags, and the resume count. */
  datatype GateState = GateState(detector: Detector?, running: bool, destroyed: bool, resumes: nat)

  /** The gate after `pause()`: the same detector, if any, no longer classifies; nothing else changes. */
  function Paused(g: GateState): GateState
  {
    g.(running := false)
  }

  /** The gate after `resume()`: the same detector, if any, classifies again, and one more resume is counted. */
  function Resumed(g: GateState): GateState
  {
    g.(running := g.detector != null, resumes := g.resumes + 1)
  }

  /** The hook's state: `vadRef`. `resumes` counts the calls of `resume`, for the orchestrator's properties. */
  class SpeechGate {
    var detector: Detector?
    ghost var resumes: nat

    ghost function State(): GateState
      reads this, detector
    {
      GateState(detector, detector != null && detector.running, detector != null && detector.destroyed, resumes)
    }

    constructor ()
      ensures detector == null && resumes == 0
    {
      detector := null;
      resumes := 0;
    }

    /**
     * `start(...)`: `loaded` says whether `MicVAD.new` succeeded (microphone granted, model loaded).
     * Only a detector that was created and started is recorded; on failure nothing changes. An earlier
     * detector still referenced is replaced without being stopped.
     */
    method Start(loaded: bool) returns (ok: bool)
      modifies this
      ensures ok == loaded && resumes == old(resumes)
      ensures ok ==> detector != null && fresh(detector) && detector.running && !detector.destroyed
      ensures !ok ==> detector == old(detector)
    {
      if !loaded {
        return false;
      }
      var d := new Detector();
      d.Start();
      detector := d;
      ok := true;
    }

    /**
     * `stop()`: pauses, destroys and forgets the detector. With no detector it changes nothing, so a
     * second `stop` is a no-op.
     */
    method Stop()
      modifies this, detector
      ensures detector == null && resumes == old(resumes)
      ensures old(detector) != null ==> !old(detector).running && old(detector).destroyed
      ensures old(detector) == null ==> unchanged(this)
    {
      if detector != null {
        detector.Pause();
        detector.Destroy();
      }
      detector := null;
    }

    /** `pause()`: a no-op without a detector. */
    method Pause()
      modifies detector
      ensures detector == old(detector)
      ensures detector != null ==> !detector.running && detector.destroyed == old(detector.destroyed)
    {
      if detector != null {
        detector.Pause();
      }
    }

    /** `resume()`: restarts the same detector, never a new one; a no-op without a detector. */
    method Resume()
      modifies this, detector
      ensures detector == old(detector) && resumes == old(resumes) + 1
      ensures detector != null ==> detector.running && detector.destroyed == old(detector.destroyed)
    {
      if detector != null {
        detector.Start();
      }
      resumes := resumes + 1;
    }
  }
}
