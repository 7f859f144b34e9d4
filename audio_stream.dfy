/** The audio side: the input stream's life cycle and the real-time
    callback that gates each spectrum and offers it to the queue. */
module Audio {
  import opened Settings
  import opened SpectrumTransform
  import opened BoundedQueue

  /** The device stream: never opened, open and delivering, open but
      stopped, or closed. */
  datatype StreamState = NoStream | Active | Inactive | Closed

  /** Which device call, if any, raises while the stream is shut down. */
  datatype DeviceFault = NoFault | StopFails | CloseFails

  /** The stream after the shutdown sequence of AudioStream.stop: an active
      stream is stopped, then any open stream is closed; a failing call ends
      the sequence early (the error is caught and reported). */
  function Shutdown(s: StreamState, fault: DeviceFault): (r: StreamState)
    ensures r == NoStream <==> s == NoStream
    ensures r == Active ==> s == Active && fault == StopFails
    ensures fault == NoFault && s != NoStream ==> r == Closed
    ensures s == Closed ==> r == Closed
  {
    match s
    case NoStream => NoStream
    case Active =>
      if fault == StopFails then Active
      else if fault == CloseFails then Inactive
      else Closed
    case Inactive => if fault == CloseFails then Inactive else Closed
    case Closed => Closed
  }

  /** Without device faults a started stream always ends closed, and a
      second shutdown changes nothing, whatever faults it meets. */
  lemma ShutdownCloses(s: StreamState, fault: DeviceFault)
    ensures s != NoStream ==> Shutdown(s, NoFault) == Closed
    ensures Shutdown(Shutdown(s, NoFault), fault) == Shutdown(s, NoFault)
    ensures Shutdown(s, fault) != Active || (s == Active && fault == StopFails)
  {
  }

  class AudioStream {
    const dataQueue: SpectrumQueue
    var stream: StreamState
    var isRunning: bool

    constructor (q: SpectrumQueue)
      ensures dataQueue == q && stream == NoStream && isRunning
    {
      dataQueue := q;
      stream := NoStream;
      isRunning := true;
    }

    /** Opens and starts the input stream; `started` is false when the device
        cannot be opened, and the failure is reported to the caller. */
    method Start(deviceAvailable: bool) returns (started: bool)
      modifies this
      ensures started == deviceAvailable
      ensures stream == (if started then Active else old(stream))
      ensures isRunning == old(isRunning)
    {
      started := deviceAvailable;
      if started {
        stream := Active;
      }
    }

    /** One invocation of the real-time callback with the magnitude spectrum
        of the delivered buffer: nothing when stopped, otherwise the gated
        frame is offered to the queue and dropped silently if it is full. */
    method Callback(mags: seq<real>)
      requires dataQueue.Valid() && |mags| >= NUM_BARS
      modifies dataQueue
      ensures dataQueue.Valid()
      ensures !isRunning ==> dataQueue.items == old(dataQueue.items)
      ensures isRunning ==> dataQueue.items == Offer(old(dataQueue.items), GateFrame(mags))
    {
      if !isRunning {
        return;
      }
      var frame := GateFrame(mags);
      GateFrameShape(mags);
      var _ := dataQueue.PutNowait(frame);
    }

    /** Marks the stream stopped and shuts the device down; a failing device
        call is caught, so repeating Stop is harmless. */
    method Stop(fault: DeviceFault)
      modifies this
      ensures !isRunning
      ensures stream == Shutdown(old(stream), fault)
    {
      isRunning := false;
      if stream != NoStream {
        if stream == Active {
          if fault == StopFails {
            return;
          }
          stream := Inactive;
        }
        if fault == CloseFails {
          return;
        }
        stream := Closed;
      }
    }
  }
}
