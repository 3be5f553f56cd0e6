/**
 * The pitch value type that the harmony code consumes.  Its real definition
 * (constructor normalisation, string labels, transposition by an interval)
 * lives outside the modelled file; here it is reduced to the three parts the
 * harmony code reads: a letter, an accidental and an octave.
 */
module Notes {

  datatype Letter = A | B | C | D | E | F | G

  /** The accidental of a note.  The source spells the natural both as ''
      and as 'n'; both are `Natural` here.  `Other` stands for any further
      accidental symbol a note could carry, which no table in the harmony
      code lists. */
  datatype Accidental = Natural | Sharp | Flat | Other

  /** A letter with its accidental: what the source's two-character label
      ("F#", "Cb", "Gn") carries, without the octave. */
  datatype Spelling = Spelling(letter: Letter, accidental: Accidental)

  datatype Note = Note(letter: Letter, accidental: Accidental, octave: int) {
    function Spelled(): (s: Spelling) {
      Spelling(letter, accidental)
    }
  }
}
