/** The diagnostics the validator reports, one constructor per message text. */
module Messages {

  datatype Message =
    // document segmenter
    | NoValidSignature
    | NoBlankLineAfterSignature
    | TimestampInComment
    | IdentifierStandalone
    | IdentifierWithoutTimestamp
    | BlankLineMissingBeforeCue
    // timestamp scanner
    | NoTimestampFound
    | TimestampNotDigit
    | NoTimeUnitSeparator
    | NotTwoDigits
    | NoSecondsOrMinutesOver59
    | NoDecimalSeparator
    | MillisecondsNotThreeDigits
    | MinutesOver59
    | SecondsOver59
    | TrailingCharacters
    // cue timings scanner
    | StartBeforePreviousCue
    | NoSpaceBeforeArrow
    | NoTimestampSeparator
    | NoSpaceAfterArrow
    | EndNotAfterStart
  {
    /** The message text exactly as the validator writes it. */
    function Text(): string
    {
      match this
      case NoValidSignature => "No valid signature. (File needs to start with \"WEBVTT\"."
      case NoBlankLineAfterSignature => "No blank line after the signature."
      case TimestampInComment => "Cannot have timestamp in a comment."
      case IdentifierStandalone => "Cue identifier cannot be standalone."
      case IdentifierWithoutTimestamp => "Cue identifier needs to be followed by timestamp."
      case BlankLineMissingBeforeCue => "Blank line missing before cue."
      case NoTimestampFound => "No timestamp found."
      case TimestampNotDigit => "Timestamp must start with a character in the range 0-9."
      case NoTimeUnitSeparator => "No time unit separator found."
      case NotTwoDigits => "Must be exactly two digits."
      case NoSecondsOrMinutesOver59 => "No seconds found or minutes is greater than 59."
      case NoDecimalSeparator => "No decimal separator (\".\") found."
      case MillisecondsNotThreeDigits => "Milliseconds must be given in three digits."
      case MinutesOver59 => "You cannot have more than 59 minutes."
      case SecondsOver59 => "You cannot have more than 59 seconds."
      case TrailingCharacters => "Timestamp must not have trailing characters."
      case StartBeforePreviousCue =>
        "Start timestamp is not greater than or equal to start timestamp of previous cue."
      case NoSpaceBeforeArrow => "Timestamp not separated from \"-->\" by whitespace."
      case NoTimestampSeparator => "No valid timestamp separator found."
      case NoSpaceAfterArrow => "\"-->\" not separated from timestamp by whitespace."
      case EndNotAfterStart => "End timestamp is not greater than start timestamp."
    }

    /** The messages `timestamp()` can report. */
    predicate IsTimestampError()
    {
      this in {NoTimestampFound, TimestampNotDigit, NoTimeUnitSeparator, NotTwoDigits,
               NoSecondsOrMinutesOver59, NoDecimalSeparator, MillisecondsNotThreeDigits,
               MinutesOver59, SecondsOver59}
    }
  }

  /** One entry of the error list: the line being scanned when it was reported. */
  datatype ParseError = ParseError(line: nat, message: Message)
}
