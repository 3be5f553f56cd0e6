# Tonalities and key signatures

This project models the harmony part of a music-theory library. The model is written in Dafny and verified.

A **tonality** is a key: a tonic note plus a major/minor flag. Any tonic can form a key. Whether the key is one of the 15 conventionally written keys of its mode is a separate query. The 15 keys of a mode can also be listed in circle-of-fifths order.

A **key signature** is the ordered list of sharps or flats that a key writes at the start of a staff. The source builds it for four clefs at once: treble, bass, alto and tenor.
- A minor key first moves its tonic up a minor third, to its relative major.
- The tonic's spelling then enters two fall-through `switch` ladders, one of flats and one of sharps.
- Each rung from the matching case down to the terminal rung prepends one note to every clef's list.

The model has three modules:

- `Notes` (`notes.dfy`) — the note value type, which lives outside the modelled file. It is reduced to a letter, an accidental (natural, sharp, flat, or any other symbol) and an octave.
- `KeySignatures` (`key_signature.dfy`) holds two things:
  - The class `KeySignature`. Its constructor builds four `seq<Note>` fields by prepending, rung by rung, from the source's two ladder tables.
  - A declarative reference: the standard sharp order F# C# G# D# A# E# B#, the standard flat order Bb Eb Ab Db Gb Cb Fb, a per-clef octave table, and the number of accidentals each major key carries.

  The constructor is proved to leave, in every clef, the first k entries of the standard order. The properties of signatures are lemmas about that reference.
- `Tonalities` (`tonality.dfy`) — the `Tonality` datatype, the validity test, the key enumeration, key equality, the string form, and lemmas that tie validity and enumeration to key signatures.

Calls into code that is not in the modelled file become parameters:
- Transposing a note up a minor third is `upMinorThird: Note -> Note`.
- Note equality is `noteEquals`.
- A note's string label is `render`.

## Model

| member | source | states |
|---|---|---|
| `KeySignatures.KeySignature.constructor` | lib/MusicTheory/Harmony.php:257-351 | stores tonic, mode and clef; the reference tonic is the tonic itself for a major key and the tonic a minor third up for a minor one; each of the four clef lists equals the key's signature in that clef (`Valid`, `BuiltWith`) |
| `KeySignatures.KeySignature.RunLadder` | lib/MusicTheory/Harmony.php:273-350 | a constructor step: falling through a ladder from the entered case to its end prepends each rung's note to all four lists, in rung order |
| `KeySignatures.Entry` | lib/MusicTheory/Harmony.php:273-313 | the switch enters at the first case whose label matches the spelling, or past the last case when none matches |
| `KeySignatures.LadderMirrorsOrder` | lib/MusicTheory/Harmony.php:274-349 | rung i of each ladder writes, in every clef, the (6 − i)-th accidental of the standard order with that clef's octave |
| `KeySignatures.ExecutedIsSlice` | lib/MusicTheory/Harmony.php:274-349 | running rungs lo..hi−1 of such a ladder yields exactly the slice [7−hi, 7−lo) of the standard order, in standard order |
| `KeySignatures.LabelsCounted` | lib/MusicTheory/Harmony.php:274-344 | the label of rung i is a key with 7 − i accidentals of that ladder's kind, and every such key labels its rung |
| `KeySignatures.EntryCount` | lib/MusicTheory/Harmony.php:273-313 | the switch enters each ladder exactly as many rungs before its end as the key has accidentals of that kind |
| `KeySignatures.LadderYieldsPrefix` | lib/MusicTheory/Harmony.php:273-350 | running one ladder from its entry gives the first `Count` entries of the standard order |
| `KeySignatures.LaddersYieldSignature` | lib/MusicTheory/Harmony.php:262-350 | the flat ladder then the sharp ladder, both on the same spelling and starting from empty lists, give the key's signature |
| `KeySignatures.KeySignature.GetAccidentals` | lib/MusicTheory/Harmony.php:358-372 | returns the signature in the clef named by `clef`; any name other than bass, alto or tenor gets the treble list |
| `KeySignatures.KeySignature.IsInKeySignature` | lib/MusicTheory/Harmony.php:375-397 | true iff some entry of the treble list, whatever the instance's clef, matches the note by letter (letter-only, the default) or by letter and accidental |
| `KeySignatures.KeySignature.HasSharps` | lib/MusicTheory/Harmony.php:399-411 | true iff the reference key carries sharps, which holds iff its spelling labels a rung of the sharp ladder |
| `KeySignatures.SignatureShape` | lib/MusicTheory/Harmony.php:273-350 | a signature has at most 7 entries, one per accidental the key carries; it is never a mix of sharps and flats; it is a prefix of the sharp order or of the flat order |
| `KeySignatures.LadderSignaturesNest` | lib/MusicTheory/Harmony.php:273-350 | a key higher up a ladder has a signature that extends, as a prefix, that of every key lower down |
| `KeySignatures.ClefInvariance` | lib/MusicTheory/Harmony.php:262-350 | the four clef lists have equal length and the same letters and accidentals in the same order; only octaves differ |
| `KeySignatures.UnlabelledKeyIsEmpty` | lib/MusicTheory/Harmony.php:273-350 | a spelling that labels no case of either switch gets an empty signature in every clef |
| `KeySignatures.SharpKeysInTreble` | lib/MusicTheory/Harmony.php:313-350 | in treble clef, the sharp-ladder label on rung i gets the first 7 − i of F#5 C#5 G#5 D#5 A#4 E#5 B#4 |
| `KeySignatures.FlatKeysInTreble` | lib/MusicTheory/Harmony.php:273-310 | in treble clef, the flat-ladder label on rung i gets the first 7 − i of Bb4 Eb5 Ab4 Db5 Gb4 Cb5 Fb4 |
| `KeySignatures.TrebleExamples` | lib/MusicTheory/Harmony.php:273-350 | G major gives [F#5], D major [F#5, C#5], F major [Bb4], Bb major [Bb4, Eb5], C major nothing in any clef |
| `KeySignatures.MembershipClefIndependent` | lib/MusicTheory/Harmony.php:386-397 | searching any clef's list gives the same membership answer as searching the treble list |
| `KeySignatures.GMajorMembership` | lib/MusicTheory/Harmony.php:378-383 | in G major, F# is in the signature; Fb is in it by letter only and out of it by exact match |
| `Tonalities.IsValidKey` | lib/MusicTheory/Harmony.php:68-117 | true exactly for the 15 listed spellings of the key's mode; false for anything else, including any accidental other than natural, sharp or flat |
| `Tonalities.GetValidKeys` | lib/MusicTheory/Harmony.php:176-215 | "M" gives the 15 major keys and "m" the 15 minor keys, in enumeration order with tonics at octave 4; any other mode gives none; every returned key is valid |
| `Tonalities.EnumeratedKeysAreValid` | lib/MusicTheory/Harmony.php:68-215 | every key the enumeration builds passes the validity test |
| `Tonalities.MajorKeysCircleOrder` | lib/MusicTheory/Harmony.php:180-211 | major enumeration: C first, then the keys with 1..7 sharps, then 1..7 flats, Cb last; minor enumeration starts with A and ends with Ab |
| `Tonalities.ValidMajorKeysAreLadderKeys` | lib/MusicTheory/Harmony.php:76-93 | a major key is valid iff it is C major or it has a non-empty signature, i.e. its tonic labels a case of one of the two switches |
| `Tonalities.Equals` | lib/MusicTheory/Harmony.php:138-144 | equal keys have tonics equal under the note type's equality and the same mode |
| `Tonalities.EqualsIsEquivalence` | lib/MusicTheory/Harmony.php:138-144 | when note equality is an equivalence, key equality is reflexive, symmetric and transitive |
| `Tonalities.ToString` | lib/MusicTheory/Harmony.php:154-157 | the string is the tonic's label followed by " major" or " minor", so the label and the mode can be read back from it |
| `Tonalities.GetKeySignature` | lib/MusicTheory/Harmony.php:166-168 | returns a new, valid key signature carrying this key's tonic and mode and the given clef, built from that tonic and mode (`BuiltWith`) |
| `Tonalities.EqualKeysGetEqualSignatures` | lib/MusicTheory/Harmony.php:257-273 | two key-signature objects built from keys that are equal by spelling and mode hold the same four lists, provided the minor-third transposition depends only on spelling; the tonic's octave never matters |
| `Tonalities.MinorKeyUsesRelativeMajor` | lib/MusicTheory/Harmony.php:257-273 | a minor key-signature object holds the same four lists as the major one built on the note a minor third above its tonic; for A minor (relative major C) all four lists are empty |
| `Tonalities.RelativeSignatures` | lib/MusicTheory/Harmony.php:166-168 | returns two new key signatures, built with the given clef: the minor one on `tonic` and the major one on the note a minor third above it; the two hold the same four lists |

## Left out

- The note and interval types (constructor normalisation, `getLetterAccidental`, `equals`, `getNoteFromInterval`) are not part of this model. Notes are a datatype. Transposition, note equality and note labels are parameters.
- Accidental spelling is an assumption about the note type. The validity test compares a natural tonic's accidental with `''` (Harmony.php:78). The enumeration and the switch labels spell natural `'n'` (Harmony.php:180, 304). Both are `Natural` here. Every other accidental symbol is the single value `Other`, which no table lists. `EnumeratedKeysAreValid` and the "every returned key is valid" clause of `GetValidKeys` hold only under this assumption: if the note type kept `'n'`, `isValidKey` would reject the natural-tonic keys that `getValidKeys` builds (Harmony.php:180-185, 188, 197-199, 205-208).
- The accessors `getTonic` and `isMajor` of both classes are the datatype fields `tonic`/`major` and the class constants `tonic`/`isMaj`.
- `KeySignature.__toString` (Harmony.php:440-442): it joins the notes' string labels, which belong to the note type.
- KeySignatures.KeySignature.IsInKeySignature: models the documented behaviour (Harmony.php:375-385), not the code as written. As written, line 388 compares the loop index with `$this->KSTreble . length`, a string concatenation. Lines 389-392 index with a bare `i` and call `Note(...)` as a function. In PHP those lines never perform the described search.
- KeySignatures.KeySignature.HasSharps: models the documented behaviour (Harmony.php:399-403). As written, line 405 applies `strlen` to an array, which PHP does not accept.
- The octave table is transcribed as written, including tenor G#3 (Harmony.php:338) and tenor F#3 (Harmony.php:348). Whether it matches engraving practice is not modelled.
- The ladder notes are transcribed as written. For example:
  - Bb major in treble clef is [Bb4, Eb5] (Harmony.php:300, 305).
  - In alto clef two sharps sit at octave 3: B#3 on the C# rung (Harmony.php:317) and A#3 on the Bn rung (Harmony.php:327).
- The musical completeness of the two 15-key lists, and enharmonic reasoning beyond these literal tables, are not modelled.
