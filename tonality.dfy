/**
 * Tonalities: a key, given by its tonic and whether it is major.  A key can be
 * built from any tonic; whether it is one of the fifteen conventionally
 * written keys of its mode is a query, and the fifteen keys of a mode can be
 * enumerated in circle-of-fifths order.
 */
module Tonalities {
  import opened Notes
  import opened KeySignatures

  datatype Tonality = Tonality(tonic: Note, major: bool)

  /** The fifteen major keys, in the order they are enumerated: C, the keys
      with one to seven sharps, then the keys with one to seven flats. */
  function MajorKeys(): (r: seq<Spelling>)
    ensures |r| == 15
  {
    [Spelling(C, Natural), Spelling(G, Natural), Spelling(D, Natural), Spelling(A, Natural),
     Spelling(E, Natural), Spelling(B, Natural), Spelling(F, Sharp), Spelling(C, Sharp),
     Spelling(F, Natural), Spelling(B, Flat), Spelling(E, Flat), Spelling(A, Flat),
     Spelling(D, Flat), Spelling(G, Flat), Spelling(C, Flat)]
  }

  /** The fifteen minor keys, in the order they are enumerated: A, the keys
      with one to seven sharps, then the keys with one to seven flats. */
  function MinorKeys(): (r: seq<Spelling>)
    ensures |r| == 15
  {
    [Spelling(A, Natural), Spelling(E, Natural), Spelling(B, Natural), Spelling(F, Sharp),
     Spelling(C, Sharp), Spelling(G, Sharp), Spelling(D, Sharp), Spelling(A, Sharp),
     Spelling(D, Natural), Spelling(G, Natural), Spelling(C, Natural), Spelling(F, Natural),
     Spelling(B, Flat), Spelling(E, Flat), Spelling(A, Flat)]
  }

  function KeysOfMode(major: bool): (keys: seq<Spelling>) {
    if major then MajorKeys() else MinorKeys()
  }

  /** Whether the key is one of the conventionally written keys of its mode;
      a tonic with any accidental other than natural, sharp or flat never is. */
  function IsValidKey(t: Tonality): (valid: bool)
    ensures valid <==> t.tonic.Spelled() in KeysOfMode(t.major)
    ensures t.tonic.accidental == Other ==> !valid
  {
    var mode := if t.major then 'M' else 'm';
    var l, a := t.tonic.letter, t.tonic.accidental;
    (mode == 'M' &&
      ((l == C && a == Natural) ||
       (l == G && a == Natural) ||
       (l == D && a == Natural) ||
       (l == A && a == Natural) ||
       (l == E && a == Natural) ||
       (l == B && a == Natural) ||
       (l == F && a == Sharp) ||
       (l == C && a == Sharp) ||
       (l == F && a == Natural) ||
       (l == B && a == Flat) ||
       (l == E && a == Flat) ||
       (l == A && a == Flat) ||
       (l == D && a == Flat) ||
       (l == G && a == Flat) ||
       (l == C && a == Flat)))
    ||
    (mode == 'm' &&
      ((l == A && a == Natural) ||
       (l == E && a == Natural) ||
       (l == B && a == Natural) ||
       (l == F && a == Sharp) ||
       (l == C && a == Sharp) ||
       (l == G && a == Sharp) ||
       (l == D && a == Sharp) ||
       (l == A && a == Sharp) ||
       (l == D && a == Natural) ||
       (l == G && a == Natural) ||
       (l == C && a == Natural) ||
       (l == F && a == Natural) ||
       (l == B && a == Flat) ||
       (l == E && a == Flat) ||
       (l == A && a == Flat)))
  }

  /** The keys of the given mode on the given spellings, in order, each tonic
      at octave 4 as the enumeration builds it. */
  function KeysOn(spellings: seq<Spelling>, major: bool): (keys: seq<Tonality>)
    ensures |keys| == |spellings|
    ensures forall i :: 0 <= i < |keys| ==>
              keys[i].tonic == Note(spellings[i].letter, spellings[i].accidental, 4) &&
              keys[i].major == major
  {
    seq(|spellings|, i requires 0 <= i < |spellings| =>
      Tonality(Note(spellings[i].letter, spellings[i].accidental, 4), major))
  }

  /** Every enumerated key is valid. */
  lemma EnumeratedKeysAreValid(major: bool)
    ensures forall t :: t in KeysOn(KeysOfMode(major), major) ==> IsValidKey(t)
  {
  }

  /** All keys of mode "M" or "m", one pushed after another; any other mode
      string gives no keys. */
  method GetValidKeys(mode: string) returns (keys: seq<Tonality>)
    ensures mode == "M" ==> keys == KeysOn(MajorKeys(), true)
    ensures mode == "m" ==> keys == KeysOn(MinorKeys(), false)
    ensures mode != "M" && mode != "m" ==> keys == []
    ensures forall t :: t in keys ==> IsValidKey(t)
  {
    keys := [];
    if mode == "M" {
      keys := keys + [Tonality(Note(C, Natural, 4), true)];
      keys := keys + [Tonality(Note(G, Natural, 4), true)];
      keys := keys + [Tonality(Note(D, Natural, 4), true)];
      keys := keys + [Tonality(Note(A, Natural, 4), true)];
      keys := keys + [Tonality(Note(E, Natural, 4), true)];
      keys := keys + [Tonality(Note(B, Natural, 4), true)];
      keys := keys + [Tonality(Note(F, Sharp, 4), true)];
      keys := keys + [Tonality(Note(C, Sharp, 4), true)];
      keys := keys + [Tonality(Note(F, Natural, 4), true)];
      keys := keys + [Tonality(Note(B, Flat, 4), true)];
      keys := keys + [Tonality(Note(E, Flat, 4), true)];
      keys := keys + [Tonality(Note(A, Flat, 4), true)];
      keys := keys + [Tonality(Note(D, Flat, 4), true)];
      keys := keys + [Tonality(Note(G, Flat, 4), true)];
      keys := keys + [Tonality(Note(C, Flat, 4), true)];
      assert keys == KeysOn(MajorKeys(), true);
    } else if mode == "m" {
      keys := keys + [Tonality(Note(A, Natural, 4), false)];
      keys := keys + [Tonality(Note(E, Natural, 4), false)];
      keys := keys + [Tonality(Note(B, Natural, 4), false)];
      keys := keys + [Tonality(Note(F, Sharp, 4), false)];
      keys := keys + [Tonality(Note(C, Sharp, 4), false)];
      keys := keys + [Tonality(Note(G, Sharp, 4), false)];
      keys := keys + [Tonality(Note(D, Sharp, 4), false)];
      keys := keys + [Tonality(Note(A, Sharp, 4), false)];
      keys := keys + [Tonality(Note(D, Natural, 4), false)];
      keys := keys + [Tonality(Note(G, Natural, 4), false)];
      keys := keys + [Tonality(Note(C, Natural, 4), false)];
      keys := keys + [Tonality(Note(F, Natural, 4), false)];
      keys := keys + [Tonality(Note(B, Flat, 4), false)];
      keys := keys + [Tonality(Note(E, Flat, 4), false)];
      keys := keys + [Tonality(Note(A, Flat, 4), false)];
      assert keys == KeysOn(MinorKeys(), false);
    }
    EnumeratedKeysAreValid(true);
    EnumeratedKeysAreValid(false);
  }

  /** Two keys are equal when the other key's tonic equals this one's, by the
      note type's own equality, and their modes agree. */
  function Equals(t: Tonality, other: Tonality, noteEquals: (Note, Note) -> bool): (same: bool)
    ensures same ==> noteEquals(other.tonic, t.tonic) && t.major == other.major
  {
    noteEquals(other.tonic, t.tonic) && other.major == t.major
  }

  ghost predicate IsEquivalence(eq: (Note, Note) -> bool) {
    && (forall n :: eq(n, n))
    && (forall m, n :: eq(m, n) ==> eq(n, m))
    && (forall l, m, n :: eq(l, m) && eq(m, n) ==> eq(l, n))
  }

  /** When the note type's equality is an equivalence, so is key equality. */
  lemma EqualsIsEquivalence(noteEquals: (Note, Note) -> bool, r: Tonality, s: Tonality, t: Tonality)
    requires IsEquivalence(noteEquals)
    ensures Equals(t, t, noteEquals)
    ensures Equals(s, t, noteEquals) ==> Equals(t, s, noteEquals)
    ensures Equals(r, s, noteEquals) && Equals(s, t, noteEquals) ==> Equals(r, t, noteEquals)
  {
  }

  /** The key as a string: the tonic's label (rendered by the note type),
      a space, and "major" or "minor". */
  function ToString(t: Tonality, render: Note -> string): (s: string)
    ensures |s| == |render(t.tonic)| + 6
    ensures s[..|render(t.tonic)|] == render(t.tonic)
    ensures s[|render(t.tonic)|..] == if t.major then " major" else " minor"
  {
    render(t.tonic) + " " + (if t.major then "major" else "minor")
  }

  /** The key signature of this key in the given clef. */
  method GetKeySignature(t: Tonality, clef: string, upMinorThird: Note -> Note) returns (ks: KeySignature)
    ensures fresh(ks) && ks.BuiltWith(upMinorThird)
    ensures ks.tonic == t.tonic && ks.isMaj == t.major && ks.clef == clef
  {
    ks := new KeySignature(t.tonic, t.major, clef, upMinorThird);
  }

  // ---------------------------------------------------------------------
  // Properties relating validity, enumeration and signatures.
  // ---------------------------------------------------------------------

  /** The enumeration is in circle-of-fifths order: the natural key first,
      then the major keys with one to seven sharps, then with one to seven
      flats; the first major key is C and the last Cb, the first minor key A
      and the last Ab. */
  lemma MajorKeysCircleOrder(k: nat)
    requires 1 <= k <= 7
    ensures Count(Sharps, MajorKeys()[0]) == 0 && Count(Flats, MajorKeys()[0]) == 0
    ensures Count(Sharps, MajorKeys()[k]) == k && Count(Flats, MajorKeys()[k]) == 0
    ensures Count(Flats, MajorKeys()[7 + k]) == k && Count(Sharps, MajorKeys()[7 + k]) == 0
    ensures MajorKeys()[0] == Spelling(C, Natural) && MajorKeys()[14] == Spelling(C, Flat)
    ensures MinorKeys()[0] == Spelling(A, Natural) && MinorKeys()[14] == Spelling(A, Flat)
  {
  }

  /** A major key is valid exactly when it is C major or its tonic labels a
      rung of one of the two ladders, i.e. exactly when it is C major or has
      a non-empty signature. */
  lemma ValidMajorKeysAreLadderKeys(tonic: Note, c: Clef)
    ensures IsValidKey(Tonality(tonic, true)) <==>
            tonic.Spelled() == Spelling(C, Natural) || Signature(tonic.Spelled(), c) != []
  {
  }

  /** Note equality by letter and accidental, ignoring the octave. */
  function SameSpelling(m: Note, n: Note): (same: bool) {
    m.Spelled() == n.Spelled()
  }

  /** The minor-third transposition maps notes spelled alike to notes
      spelled alike. */
  ghost predicate RespectsSpelling(upMinorThird: Note -> Note) {
    forall m, n :: SameSpelling(m, n) ==> SameSpelling(upMinorThird(m), upMinorThird(n))
  }

  /** Asking two equal keys (tonics spelled alike, same mode) for their key
      signatures gives the same four lists; the tonic's octave never matters. */
  lemma EqualKeysGetEqualSignatures(s: Tonality, t: Tonality, upMinorThird: Note -> Note,
                                    ks: KeySignature, kt: KeySignature)
    requires Equals(s, t, SameSpelling) && RespectsSpelling(upMinorThird)
    requires ks.BuiltWith(upMinorThird) && ks.tonic == s.tonic && ks.isMaj == s.major
    requires kt.BuiltWith(upMinorThird) && kt.tonic == t.tonic && kt.isMaj == t.major
    ensures ks.trebleList == kt.trebleList && ks.bassList == kt.bassList
    ensures ks.altoList == kt.altoList && ks.tenorList == kt.tenorList
  {
    assert SameSpelling(t.tonic, s.tonic);
    if !s.major {
      assert SameSpelling(upMinorThird(t.tonic), upMinorThird(s.tonic));
    }
  }

  /** A minor key signature on tonic t holds the same four lists as the major
      key signature on the note a minor third above t; so A minor, whose
      relative major is C, has no accidentals in any clef. */
  lemma MinorKeyUsesRelativeMajor(minor: KeySignature, major: KeySignature, upMinorThird: Note -> Note)
    requires minor.BuiltWith(upMinorThird) && major.BuiltWith(upMinorThird)
    requires !minor.isMaj && major.isMaj
    requires major.tonic.Spelled() == upMinorThird(minor.tonic).Spelled()
    ensures minor.trebleList == major.trebleList && minor.bassList == major.bassList
    ensures minor.altoList == major.altoList && minor.tenorList == major.tenorList
    ensures minor.tonic.Spelled() == Spelling(A, Natural) && major.tonic.Spelled() == Spelling(C, Natural)
            ==> minor.trebleList == [] && minor.bassList == [] && minor.altoList == [] && minor.tenorList == []
  {
  }

  /** Building both key signatures: the minor one on `tonic` and the major
      one on its relative major. */
  method RelativeSignatures(tonic: Note, clef: string, upMinorThird: Note -> Note)
    returns (minor: KeySignature, major: KeySignature)
    ensures fresh(minor) && fresh(major)
    ensures minor.BuiltWith(upMinorThird) && major.BuiltWith(upMinorThird)
    ensures minor.tonic == tonic && !minor.isMaj && minor.clef == clef
    ensures major.tonic == upMinorThird(tonic) && major.isMaj && major.clef == clef
    ensures minor.trebleList == major.trebleList && minor.bassList == major.bassList
    ensures minor.altoList == major.altoList && minor.tenorList == major.tenorList
  {
    minor := GetKeySignature(Tonality(tonic, false), clef, upMinorThird);
    major := GetKeySignature(Tonality(upMinorThird(tonic), true), clef, upMinorThird);
    MinorKeyUsesRelativeMajor(minor, major, upMinorThird);
  }
}
