/** The Cue record (webvtt.py's `Cue` dataclass), restricted to the fields the
    validator writes: the identifier, the two times and the payload text. */
module Cues {
  import opened Text

  class Cue {
    var id: string
    /** start_time: None once timestamp() has failed on it. */
    var startTime: Option<nat>
    var endTime: Option<nat>
    var text: string

    /** A cue with the dataclass defaults. */
    constructor ()
      ensures id == [] && startTime == Some(0) && endTime == Some(0) && text == []
    {
      id := [];
      startTime := Some(0);
      endTime := Some(0);
      text := [];
    }
  }
}
