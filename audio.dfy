/** The recording state shared by the screens: whether a recording is running, the recorder's
    last result, and the last error. The recorder itself is not modelled; its answer to each
    call is an input. */
module Audio {
  import opened Common

  /** What the recorder hands back: on start the file path and start time, on stop the path
      and the duration it read (missing when the file gave none). */
  datatype Recording = Started(path: string, startTime: int) | Stopped(path: string, duration: Option<real>)

  /** The recorder's answer to a start: the started recording, or the message of what it threw. */
  datatype StartReply = StartedAt(path: string, startTime: int) | StartThrew(message: string)

  /** The recorder's answer to a stop: the finished recording, or the message of what it threw. */
  datatype StopReply = StoppedAt(path: string, duration: Option<real>) | StopThrew(message: string)

  const NoActiveRecording := "No active recording to stop"

  class RecordingSession {
    var isRecording: bool
    var currentRecording: Option<Recording>
    var recordingError: Option<string>

    /** While recording, the recording on show is the one the last start handed back. */
    predicate Valid()
      reads this
    {
      isRecording ==> currentRecording.Some? && currentRecording.value.Started?
    }

    constructor()
      ensures Valid()
      ensures !isRecording && currentRecording.None? && recordingError.None?
    {
      isRecording := false;
      currentRecording := None;
      recordingError := None;
    }

    /** `startRecording`: no guard, so a start while recording is allowed. The error is
        cleared first; a failure records its message and leaves the rest as it was. */
    method StartRecording(reply: StartReply) returns (r: Result<Recording, string>)
      requires Valid()
      modifies this
      ensures Valid()
      ensures reply.StartedAt? ==>
                && r == Ok(Started(reply.path, reply.startTime))
                && isRecording && currentRecording == Some(r.value) && recordingError.None?
      ensures reply.StartThrew? ==>
                && r == Err(reply.message)
                && isRecording == old(isRecording) && currentRecording == old(currentRecording)
                && recordingError == Some(reply.message)
    {
      recordingError := None;
      match reply
      case StartThrew(message) =>
        recordingError := Some(message);
        return Err(message);
      case StartedAt(path, startTime) =>
        var recording := Started(path, startTime);
        isRecording := true;
        currentRecording := Some(recording);
        return Ok(recording);
    }

    /** `stopRecording`: refused without asking the recorder when nothing is recording. A
        success ends the started recording and shows the finished one in its place; any
        failure only records its message, and a failed stop leaves the started recording
        running and on show. A success does not clear an earlier error. */
    method StopRecording(reply: StopReply) returns (r: Result<Recording, string>, recorderCalled: bool)
      requires Valid()
      modifies this
      ensures Valid()
      ensures recorderCalled == old(isRecording)
      ensures !old(isRecording) ==>
                && r == Err(NoActiveRecording) && recordingError == Some(NoActiveRecording)
                && !isRecording && currentRecording == old(currentRecording)
      ensures old(isRecording) && reply.StoppedAt? ==>
                && old(currentRecording).Some? && old(currentRecording).value.Started?
                && r == Ok(Stopped(reply.path, reply.duration))
                && !isRecording && currentRecording == Some(r.value) && recordingError == old(recordingError)
      ensures old(isRecording) && reply.StopThrew? ==>
                && r == Err(reply.message)
                && isRecording && currentRecording == old(currentRecording) && currentRecording.value.Started?
                && recordingError == Some(reply.message)
    {
      if !isRecording {
        recordingError := Some(NoActiveRecording);
        return Err(NoActiveRecording), false;
      }
      recorderCalled := true;
      match reply
      case StopThrew(message) =>
        recordingError := Some(message);
        r := Err(message);
      case StoppedAt(path, duration) =>
        var recording := Stopped(path, duration);
        isRecording := false;
        currentRecording := Some(recording);
        r := Ok(recording);
    }

    /** `clearError`: the error goes, nothing else changes. */
    method ClearError()
      requires Valid()
      modifies this
      ensures Valid()
      ensures recordingError.None?
      ensures isRecording == old(isRecording) && currentRecording == old(currentRecording)
    {
      recordingError := None;
    }
  }
}
