/** The tracks of `tug-of-war/src/notes.rs`. A waveform is one period of
    PWM duty samples; only its length matters to the sequencer, so the
    sample values are not part of this model. A note is a waveform and a
    duration in milliseconds. */
module Notes {
  import opened Common

  datatype Waveform = B1 | C1 | C2 | D1 | E1 | F1 | G0 | G1 | SI

  /** The number of samples in each waveform table. */
  function SampleLen(w: Waveform): (n: nat)
    ensures 2 <= n <= 159
  {
    match w
    case B1 => 127
    case C1 => 119
    case C2 => 60
    case D1 => 106
    case E1 => 95
    case F1 => 89
    case G0 => 159
    case G1 => 80
    case SI => 2
  }

  datatype Note = Note(wave: Waveform, ms: u16)

  /** The countdown beep. */
  const DI_LO: seq<Note> := [Note(C1, 500)]
  /** The start signal. */
  const DI_HI: seq<Note> := [Note(C2, 800)]
  /** The tune played on a win. */
  const PEPPA: seq<Note> := [
    Note(G1, 500), Note(E1, 250), Note(C1, 250), Note(D1, 500),
    Note(G0, 500), Note(SI, 500), Note(G0, 250), Note(B1, 250),
    Note(D1, 250), Note(F1, 250), Note(E1, 500), Note(C1, 500)
  ]
}
