/** The pattern builder the generators drive: a time cursor in quarter notes
    and the list of actions recorded so far. Rendering the actions to track
    chunks belongs to the MIDI library and is a parameter of the generators. */
module Patterns {
  import opened Outcomes
  import opened MusicTheory
  import opened Midi

  /** A recorded action, at the cursor position (in quarter notes) where it
      was added. A velocity of None is the builder's default velocity. */
  datatype PatternAction =
    | NoteAction(start: int, note: Note, length: nat, velocity: Option<nat>)
    | ChordAction(start: int, notes: seq<Note>, length: nat, velocity: Option<nat>)
    | PianoRollAction(start: int, text: string)

  /** Pattern.ToFile(tempoMap): the track chunks of a list of actions at a
      tempo. */
  type Renderer = (seq<PatternAction>, int) -> seq<Chunk>

  class PatternBuilder {
    var time: int
    var actions: seq<PatternAction>

    constructor ()
      ensures time == 0 && actions == []
    {
      time := 0;
      actions := [];
    }

    method MoveToStart()
      modifies this
      ensures time == 0 && actions == old(actions)
    {
      time := 0;
    }

    method MoveToTime(t: int)
      modifies this
      ensures time == t && actions == old(actions)
    {
      time := t;
    }

    /** Note(note, length, velocity): a note at the cursor; the cursor moves
      to its end. */
    method AddNote(note: Note, length: nat, velocity: Option<nat>)
      modifies this
      ensures actions == old(actions) + [NoteAction(old(time), note, length, velocity)]
      ensures time == old(time) + length
    {
      actions := actions + [NoteAction(time, note, length, velocity)];
      time := time + length;
    }

    /** Chord(notes, length, velocity): the notes together at the cursor; the
      cursor moves to their end. */
    method AddChord(notes: seq<Note>, length: nat, velocity: Option<nat>)
      modifies this
      ensures actions == old(actions) + [ChordAction(old(time), notes, length, velocity)]
      ensures time == old(time) + length
    {
      actions := actions + [ChordAction(time, notes, length, velocity)];
      time := time + length;
    }

    /** PianoRoll(text): the notes of a piano-roll text from the cursor on.
      Where the cursor stands afterwards is left open. */
    method AddPianoRoll(text: string)
      modifies this
      ensures actions == old(actions) + [PianoRollAction(old(time), text)]
    {
      actions := actions + [PianoRollAction(time, text)];
    }
  }
}
