/**
 * Key signatures: the ordered sharps or flats that a key puts at the start of
 * a staff, in each of the four clefs.
 *
 * The class `KeySignature` builds its four lists the way the source does: two
 * fall-through ladders of rungs, each rung prepending one note to every list.
 * Beside it stands a declarative reference: the standard order of sharps and
 * of flats, a per-clef octave table, and the number of accidentals each major
 * key carries.  The constructor is proved to produce the first k entries of
 * the standard order, and the properties of signatures are lemmas about that
 * reference.
 */
module KeySignatures {
  import opened Notes

  datatype Clef = Treble | Bass | Alto | Tenor

  /** The clef a clef name selects; any unknown name falls back to treble. */
  function ClefOf(name: string): (c: Clef) {
    if name == "treble" then Treble
    else if name == "bass" then Bass
    else if name == "alto" then Alto
    else if name == "tenor" then Tenor
    else Treble
  }

  datatype Side = Sharps | Flats

  // ---------------------------------------------------------------------
  // The reference: standard order, octave placement, accidental counts.
  // ---------------------------------------------------------------------

  /** The standard order in which sharps (F# C# G# D# A# E# B#) or flats
      (Bb Eb Ab Db Gb Cb Fb) are written. */
  function Order(side: Side): (r: seq<Spelling>)
    ensures |r| == 7
    ensures forall i :: 0 <= i < 7 ==>
              r[i].accidental == (if side == Sharps then Sharp else Flat)
  {
    match side
    case Sharps =>
      [Spelling(F, Sharp), Spelling(C, Sharp), Spelling(G, Sharp), Spelling(D, Sharp),
       Spelling(A, Sharp), Spelling(E, Sharp), Spelling(B, Sharp)]
    case Flats =>
      [Spelling(B, Flat), Spelling(E, Flat), Spelling(A, Flat), Spelling(D, Flat),
       Spelling(G, Flat), Spelling(C, Flat), Spelling(F, Flat)]
  }

  /** The octave at which the i-th accidental of `Order(side)` is written in
      clef `c`, as the source's tables place it. */
  function Octaves(side: Side, c: Clef): (r: seq<int>)
    ensures |r| == 7
  {
    match (side, c)
    case (Sharps, Treble) => [5, 5, 5, 5, 4, 5, 4]
    case (Sharps, Bass)   => [3, 3, 3, 3, 2, 3, 2]
    case (Sharps, Alto)   => [4, 4, 4, 4, 3, 4, 3]
    case (Sharps, Tenor)  => [3, 4, 3, 4, 3, 4, 3]
    case (Flats, Treble)  => [4, 5, 4, 5, 4, 5, 4]
    case (Flats, Bass)    => [2, 3, 2, 3, 2, 3, 2]
    case (Flats, Alto)    => [3, 4, 3, 4, 3, 4, 3]
    case (Flats, Tenor)   => [3, 4, 3, 4, 3, 4, 3]
  }

  /** All seven accidentals of one side, placed in clef `c`. */
  function Canonical(side: Side, c: Clef): (r: seq<Note>)
    ensures |r| == 7
    ensures forall i :: 0 <= i < 7 ==> r[i].Spelled() == Order(side)[i]
    ensures forall i :: 0 <= i < 7 ==> r[i].octave == Octaves(side, c)[i]
  {
    var order, octaves := Order(side), Octaves(side, c);
    seq(7, i requires 0 <= i < 7 => Note(order[i].letter, order[i].accidental, octaves[i]))
  }

  /** How many accidentals of `side` the major key on `key` carries, by the
      circle of fifths: G D A E B F# C# carry 1 to 7 sharps, F Bb Eb Ab Db Gb
      Cb carry 1 to 7 flats, and every other spelling carries none. */
  function Count(side: Side, key: Spelling): (n: nat)
    ensures n <= 7
  {
    match (side, key.letter, key.accidental)
    case (Sharps, G, Natural) => 1
    case (Sharps, D, Natural) => 2
    case (Sharps, A, Natural) => 3
    case (Sharps, E, Natural) => 4
    case (Sharps, B, Natural) => 5
    case (Sharps, F, Sharp)   => 6
    case (Sharps, C, Sharp)   => 7
    case (Flats, F, Natural)  => 1
    case (Flats, B, Flat)     => 2
    case (Flats, E, Flat)     => 3
    case (Flats, A, Flat)     => 4
    case (Flats, D, Flat)     => 5
    case (Flats, G, Flat)     => 6
    case (Flats, C, Flat)     => 7
    case _ => 0
  }

  /** The key signature of the major key on `key`, in clef `c`: the first
      `Count` sharps followed by the first `Count` flats (at most one of the
      two is non-empty, see `SignatureShape`). */
  function Signature(key: Spelling, c: Clef): (sig: seq<Note>) {
    Canonical(Sharps, c)[..Count(Sharps, key)] + Canonical(Flats, c)[..Count(Flats, key)]
  }

  /** The tonic whose major key-signature a key uses: the tonic itself for a
      major key, the tonic a minor third up for a minor key.  The transposition
      belongs to the note type and is passed in. */
  function ReferenceTonic(tonic: Note, isMajor: bool, upMinorThird: Note -> Note): (reference: Note) {
    if isMajor then tonic else upMinorThird(tonic)
  }

  // ---------------------------------------------------------------------
  // The source's ladders.
  // ---------------------------------------------------------------------

  /** One `case` of a ladder: the label it matches and the note it prepends
      to each clef's list. */
  datatype Rung = Rung(key: Spelling, treble: Note, bass: Note, alto: Note, tenor: Note) {
    function NoteIn(c: Clef): (n: Note) {
      match c
      case Treble => treble
      case Bass => bass
      case Alto => alto
      case Tenor => tenor
    }
  }

  /** The two `switch` ladders, rung by rung, in the order the source lists
      their cases. */
  function Ladder(side: Side): (r: seq<Rung>)
    ensures |r| == 7
  {
    match side
    case Flats =>
      [Rung(Spelling(C, Flat),    Note(F, Flat, 4), Note(F, Flat, 2), Note(F, Flat, 3), Note(F, Flat, 3)),
       Rung(Spelling(G, Flat),    Note(C, Flat, 5), Note(C, Flat, 3), Note(C, Flat, 4), Note(C, Flat, 4)),
       Rung(Spelling(D, Flat),    Note(G, Flat, 4), Note(G, Flat, 2), Note(G, Flat, 3), Note(G, Flat, 3)),
       Rung(Spelling(A, Flat),    Note(D, Flat, 5), Note(D, Flat, 3), Note(D, Flat, 4), Note(D, Flat, 4)),
       Rung(Spelling(E, Flat),    Note(A, Flat, 4), Note(A, Flat, 2), Note(A, Flat, 3), Note(A, Flat, 3)),
       Rung(Spelling(B, Flat),    Note(E, Flat, 5), Note(E, Flat, 3), Note(E, Flat, 4), Note(E, Flat, 4)),
       Rung(Spelling(F, Natural), Note(B, Flat, 4), Note(B, Flat, 2), Note(B, Flat, 3), Note(B, Flat, 3))]
    case Sharps =>
      [Rung(Spelling(C, Sharp),   Note(B, Sharp, 4), Note(B, Sharp, 2), Note(B, Sharp, 3), Note(B, Sharp, 3)),
       Rung(Spelling(F, Sharp),   Note(E, Sharp, 5), Note(E, Sharp, 3), Note(E, Sharp, 4), Note(E, Sharp, 4)),
       Rung(Spelling(B, Natural), Note(A, Sharp, 4), Note(A, Sharp, 2), Note(A, Sharp, 3), Note(A, Sharp, 3)),
       Rung(Spelling(E, Natural), Note(D, Sharp, 5), Note(D, Sharp, 3), Note(D, Sharp, 4), Note(D, Sharp, 4)),
       Rung(Spelling(A, Natural), Note(G, Sharp, 5), Note(G, Sharp, 3), Note(G, Sharp, 4), Note(G, Sharp, 3)),
       Rung(Spelling(D, Natural), Note(C, Sharp, 5), Note(C, Sharp, 3), Note(C, Sharp, 4), Note(C, Sharp, 4)),
       Rung(Spelling(G, Natural), Note(F, Sharp, 5), Note(F, Sharp, 3), Note(F, Sharp, 4), Note(F, Sharp, 3))]
  }

  /** Where a `switch` on `key` enters the ladder: the first case whose label
      matches, or past the last case when none matches. */
  function Entry(ladder: seq<Rung>, key: Spelling): (e: nat)
    ensures e <= |ladder|
    ensures e < |ladder| ==> ladder[e].key == key
    ensures forall j :: 0 <= j < e ==> ladder[j].key != key
    decreases |ladder|
  {
    if ladder == [] then 0
    else if ladder[0].key == key then 0
    else 1 + Entry(ladder[1..], key)
  }

  /** What prepending the notes of rungs `lo` .. `hi - 1`, in that order,
      puts in front of a clef's list. */
  function Executed(ladder: seq<Rung>, lo: nat, hi: nat, c: Clef): (prepended: seq<Note>)
    requires lo <= hi <= |ladder|
    decreases hi
  {
    if hi == lo then [] else [ladder[hi - 1].NoteIn(c)] + Executed(ladder, lo, hi - 1, c)
  }

  // ---------------------------------------------------------------------
  // The ladders agree with the reference.
  // ---------------------------------------------------------------------

  /** Rung i of a ladder writes the (6 - i)-th accidental of the standard
      order, in every clef. */
  ghost predicate Mirrors(ladder: seq<Rung>, side: Side) {
    |ladder| == 7 &&
    forall i, c :: 0 <= i < 7 ==> ladder[i].NoteIn(c) == Canonical(side, c)[6 - i]
  }

  lemma LadderMirrorsOrder(side: Side)
    ensures Mirrors(Ladder(side), side)
  {
    var ladder := Ladder(side);
    forall i, c | 0 <= i < 7
      ensures ladder[i].NoteIn(c) == Canonical(side, c)[6 - i]
    {
      var order, octaves := Order(side), Octaves(side, c);
      assert Canonical(side, c)[6 - i] ==
        Note(order[6 - i].letter, order[6 - i].accidental, octaves[6 - i]);
    }
  }

  /** Running rungs `lo` .. `hi - 1` of a mirroring ladder yields a slice of
      the standard order, already in standard order. */
  lemma {:induction false} ExecutedIsSlice(ladder: seq<Rung>, side: Side, lo: nat, hi: nat, c: Clef)
    requires Mirrors(ladder, side)
    requires lo <= hi <= 7
    ensures Executed(ladder, lo, hi, c) == Canonical(side, c)[7 - hi .. 7 - lo]
  {
    if hi > lo {
      ExecutedIsSlice(ladder, side, lo, hi - 1, c);
      var canon := Canonical(side, c);
      assert ladder[hi - 1].NoteIn(c) == canon[7 - hi];
      assert canon[7 - hi .. 7 - lo] == [canon[7 - hi]] + canon[7 - (hi - 1) .. 7 - lo];
    }
  }

  /** Every label of a ladder is a key with `Count` accidentals equal to the
      number of rungs from it to the end, and every key with accidentals of
      that side labels the matching rung. */
  lemma LabelsCounted(side: Side, key: Spelling)
    ensures forall i :: 0 <= i < 7 ==> Count(side, Ladder(side)[i].key) == 7 - i
    ensures Count(side, key) > 0 ==> Ladder(side)[7 - Count(side, key)].key == key
  {
  }

  /** The switch enters the ladder exactly `Count` rungs before its end. */
  lemma EntryCount(side: Side, key: Spelling)
    ensures Entry(Ladder(side), key) == 7 - Count(side, key)
  {
    var ladder := Ladder(side);
    var e := Entry(ladder, key);
    LabelsCounted(side, key);
    if e < 7 {
      assert ladder[e].key == key;
    }
  }

  /** Running one ladder from where its switch enters gives the first `Count`
      accidentals of the standard order. */
  lemma LadderYieldsPrefix(side: Side, key: Spelling, c: Clef)
    ensures Entry(Ladder(side), key) <= 7
    ensures Executed(Ladder(side), Entry(Ladder(side), key), 7, c)
            == Canonical(side, c)[..Count(side, key)]
  {
    LadderMirrorsOrder(side);
    EntryCount(side, key);
    ExecutedIsSlice(Ladder(side), side, Entry(Ladder(side), key), 7, c);
  }

  /** Running the flat ladder and then the sharp ladder, each from where the
      switch enters it, gives the key's signature. */
  lemma LaddersYieldSignature(key: Spelling, c: Clef)
    ensures Entry(Ladder(Flats), key) <= 7 && Entry(Ladder(Sharps), key) <= 7
    ensures Executed(Ladder(Sharps), Entry(Ladder(Sharps), key), 7, c)
            + (Executed(Ladder(Flats), Entry(Ladder(Flats), key), 7, c) + [])
            == Signature(key, c)
  {
    LadderYieldsPrefix(Flats, key, c);
    LadderYieldsPrefix(Sharps, key, c);
    var flats := Executed(Ladder(Flats), Entry(Ladder(Flats), key), 7, c);
    assert flats + [] == flats;
  }

  // ---------------------------------------------------------------------
  // The class.
  // ---------------------------------------------------------------------

  class KeySignature {
    /** The four lists of accidentals, one per clef. */
    var trebleList: seq<Note>
    var bassList: seq<Note>
    var altoList: seq<Note>
    var tenorList: seq<Note>

    const tonic: Note
    const isMaj: bool
    const clef: string

    /** The spelling of the tonic whose major signature this one is. */
    ghost const reference: Spelling

    ghost predicate Valid()
      reads this
    {
      && trebleList == Signature(reference, Treble)
      && bassList == Signature(reference, Bass)
      && altoList == Signature(reference, Alto)
      && tenorList == Signature(reference, Tenor)
    }

    /** The signature was built from its own tonic and mode, with
        `upMinorThird` as the note type's minor-third transposition. */
    ghost predicate BuiltWith(upMinorThird: Note -> Note)
      reads this
    {
      Valid() && reference == ReferenceTonic(tonic, isMaj, upMinorThird).Spelled()
    }

    /** Builds all four lists: a minor key first moves to its relative major,
        then the flat ladder and the sharp ladder each run from the case that
        matches the tonic's spelling to their terminal rung. */
    constructor (tonic: Note, isMajor: bool, clef: string, upMinorThird: Note -> Note)
      ensures this.tonic == tonic && isMaj == isMajor && this.clef == clef
      ensures reference == ReferenceTonic(tonic, isMajor, upMinorThird).Spelled()
      ensures Valid() && BuiltWith(upMinorThird)
    {
      this.tonic := tonic;
      this.isMaj := isMajor;
      this.clef := clef;
      trebleList, bassList, altoList, tenorList := [], [], [], [];
      var t := tonic;
      if !isMajor {
        t := upMinorThird(t);
      }
      reference := t.Spelled();
      new;
      RunLadder(Ladder(Flats), Entry(Ladder(Flats), t.Spelled()));
      RunLadder(Ladder(Sharps), Entry(Ladder(Sharps), t.Spelled()));
      LaddersYieldSignature(reference, Treble);
      LaddersYieldSignature(reference, Bass);
      LaddersYieldSignature(reference, Alto);
      LaddersYieldSignature(reference, Tenor);
    }

    /** A step of the constructor, the only place the lists change: falls
        through the ladder from rung `entry` to its last rung, each rung
        prepending its note to every clef's list.  It does not keep `Valid()`
        by itself; the constructor re-establishes it after both ladders. */
    method RunLadder(ladder: seq<Rung>, entry: nat)
      requires entry <= |ladder|
      modifies this
      ensures trebleList == Executed(ladder, entry, |ladder|, Treble) + old(trebleList)
      ensures bassList == Executed(ladder, entry, |ladder|, Bass) + old(bassList)
      ensures altoList == Executed(ladder, entry, |ladder|, Alto) + old(altoList)
      ensures tenorList == Executed(ladder, entry, |ladder|, Tenor) + old(tenorList)
    {
      var i := entry;
      while i < |ladder|
        invariant entry <= i <= |ladder|
        invariant trebleList == Executed(ladder, entry, i, Treble) + old(trebleList)
        invariant bassList == Executed(ladder, entry, i, Bass) + old(bassList)
        invariant altoList == Executed(ladder, entry, i, Alto) + old(altoList)
        invariant tenorList == Executed(ladder, entry, i, Tenor) + old(tenorList)
      {
        var rung := ladder[i];
        trebleList := [rung.treble] + trebleList;
        bassList := [rung.bass] + bassList;
        altoList := [rung.alto] + altoList;
        tenorList := [rung.tenor] + tenorList;
        i := i + 1;
      }
    }

    /** The list of this signature's clef; an unknown clef gets treble's. */
    function GetAccidentals(): (r: seq<Note>)
      reads this
      requires Valid()
      ensures r == Signature(reference, ClefOf(clef))
      ensures clef != "bass" && clef != "alto" && clef != "tenor" ==> r == trebleList
    {
      if clef == "treble" then trebleList
      else if clef == "bass" then bassList
      else if clef == "alto" then altoList
      else if clef == "tenor" then tenorList
      else trebleList
    }

    /** Whether `note` is in the signature, judged on the treble list whatever
        this signature's clef: by letter alone, or by letter and accidental. */
    method IsInKeySignature(note: Note, considerLetterOnly: bool := true) returns (found: bool)
      ensures found == InList(trebleList, note, considerLetterOnly)
    {
      var i := 0;
      while i < |trebleList|
        invariant 0 <= i <= |trebleList|
        invariant forall j :: 0 <= j < i ==> !Matches(trebleList[j], note, considerLetterOnly)
      {
        if considerLetterOnly && trebleList[i].letter == note.letter {
          return true;
        } else if !considerLetterOnly && trebleList[i].letter == note.letter
                  && trebleList[i].accidental == note.accidental {
          return true;
        }
        i := i + 1;
      }
      return false;
    }

    /** Whether the signature is made of sharps: exactly when its reference
        tonic labels a rung of the sharp ladder. */
    function HasSharps(): (r: bool)
      reads this
      requires Valid()
      ensures r <==> Count(Sharps, reference) > 0
      ensures r <==> Entry(Ladder(Sharps), reference) < 7
    {
      EntryCount(Sharps, reference);
      SignatureShape(reference, Treble);
      |trebleList| > 0 && trebleList[0].accidental == Sharp
    }
  }

  // ---------------------------------------------------------------------
  // Membership.
  // ---------------------------------------------------------------------

  /** An accidental of a signature matches `note` by letter, and also by
      accidental unless only letters are considered. */
  predicate Matches(entry: Note, note: Note, letterOnly: bool) {
    entry.letter == note.letter && (letterOnly || entry.accidental == note.accidental)
  }

  /** Some entry of `list` matches `note`. */
  predicate InList(list: seq<Note>, note: Note, letterOnly: bool) {
    exists j :: 0 <= j < |list| && Matches(list[j], note, letterOnly)
  }

  // ---------------------------------------------------------------------
  // Properties of signatures.
  // ---------------------------------------------------------------------

  /** A signature has at most seven accidentals, all sharps or all flats, and
      has k of them exactly when its key carries k by the circle of fifths. */
  lemma SignatureShape(key: Spelling, c: Clef)
    ensures |Signature(key, c)| == Count(Sharps, key) + Count(Flats, key) <= 7
    ensures Count(Sharps, key) == 0 || Count(Flats, key) == 0
    ensures Count(Sharps, key) > 0 ==> Signature(key, c) == Canonical(Sharps, c)[..Count(Sharps, key)]
    ensures Count(Sharps, key) == 0 ==> Signature(key, c) == Canonical(Flats, c)[..Count(Flats, key)]
    ensures (forall i :: 0 <= i < |Signature(key, c)| ==> Signature(key, c)[i].accidental == Sharp)
         || (forall i :: 0 <= i < |Signature(key, c)| ==> Signature(key, c)[i].accidental == Flat)
  {
  }

  /** A key higher up a ladder (nearer its first case) has a signature that
      extends, as a prefix, the signature of every key lower down. */
  lemma LadderSignaturesNest(side: Side, i: nat, j: nat, c: Clef)
    requires i <= j < 7
    ensures Signature(Ladder(side)[j].key, c) <= Signature(Ladder(side)[i].key, c)
  {
    var hi, lo := Ladder(side)[i].key, Ladder(side)[j].key;
    LabelsCounted(side, hi);
    SignatureShape(hi, c);
    SignatureShape(lo, c);
    assert Count(side, hi) == 7 - i && Count(side, lo) == 7 - j;
    var other := if side == Sharps then Flats else Sharps;
    assert Count(other, hi) == 0 && Count(other, lo) == 0;
  }

  /** The four clefs hold the same letters and accidentals in the same order;
      only the octaves differ. */
  lemma ClefInvariance(key: Spelling, c1: Clef, c2: Clef)
    ensures |Signature(key, c1)| == |Signature(key, c2)|
    ensures forall i :: 0 <= i < |Signature(key, c1)| ==>
              Signature(key, c1)[i].Spelled() == Signature(key, c2)[i].Spelled()
  {
  }

  /** A spelling that labels no rung of either ladder gets no accidentals. */
  lemma UnlabelledKeyIsEmpty(key: Spelling, c: Clef)
    requires forall i :: 0 <= i < 7 ==> Ladder(Sharps)[i].key != key && Ladder(Flats)[i].key != key
    ensures Signature(key, c) == []
  {
    EntryCount(Sharps, key);
    EntryCount(Flats, key);
  }

  /** In treble clef, the sharp-ladder label on rung i gets the first 7 - i
      of F#5 C#5 G#5 D#5 A#4 E#5 B#4. */
  lemma SharpKeysInTreble(i: nat)
    requires i < 7
    ensures Signature(Ladder(Sharps)[i].key, Treble) ==
      [Note(F, Sharp, 5), Note(C, Sharp, 5), Note(G, Sharp, 5), Note(D, Sharp, 5),
       Note(A, Sharp, 4), Note(E, Sharp, 5), Note(B, Sharp, 4)][..7 - i]
  {
  }

  /** In treble clef, the flat-ladder label on rung i gets the first 7 - i
      of Bb4 Eb5 Ab4 Db5 Gb4 Cb5 Fb4. */
  lemma FlatKeysInTreble(i: nat)
    requires i < 7
    ensures Signature(Ladder(Flats)[i].key, Treble) ==
      [Note(B, Flat, 4), Note(E, Flat, 5), Note(A, Flat, 4), Note(D, Flat, 5),
       Note(G, Flat, 4), Note(C, Flat, 5), Note(F, Flat, 4)][..7 - i]
  {
  }

  /** G major gives [F#5], D major [F#5, C#5], F major [Bb4], Bb major
      [Bb4, Eb5] and C major nothing, in treble clef. */
  lemma TrebleExamples(c: Clef)
    ensures Signature(Spelling(G, Natural), Treble) == [Note(F, Sharp, 5)]
    ensures Signature(Spelling(D, Natural), Treble) == [Note(F, Sharp, 5), Note(C, Sharp, 5)]
    ensures Signature(Spelling(F, Natural), Treble) == [Note(B, Flat, 4)]
    ensures Signature(Spelling(B, Flat), Treble) == [Note(B, Flat, 4), Note(E, Flat, 5)]
    ensures Signature(Spelling(C, Natural), c) == []
  {
  }

  /** Whether a note is in a key's signature does not depend on the clef
      whose list is searched, which is why the treble list serves for all. */
  lemma MembershipClefIndependent(key: Spelling, note: Note, letterOnly: bool, c: Clef)
    ensures InList(Signature(key, c), note, letterOnly) == InList(Signature(key, Treble), note, letterOnly)
  {
    ClefInvariance(key, c, Treble);
    var here, treble := Signature(key, c), Signature(key, Treble);
    if InList(here, note, letterOnly) {
      var j :| 0 <= j < |here| && Matches(here[j], note, letterOnly);
      assert here[j].Spelled() == treble[j].Spelled();
      assert Matches(treble[j], note, letterOnly);
    }
    if InList(treble, note, letterOnly) {
      var j :| 0 <= j < |treble| && Matches(treble[j], note, letterOnly);
      assert here[j].Spelled() == treble[j].Spelled();
      assert Matches(here[j], note, letterOnly);
    }
  }

  /** In G major, F# is in the signature; Fb is in it when only letters are
      considered and out of it otherwise. */
  lemma GMajorMembership(octave: int)
    ensures InList(Signature(Spelling(G, Natural), Treble), Note(F, Sharp, octave), true)
    ensures InList(Signature(Spelling(G, Natural), Treble), Note(F, Sharp, octave), false)
    ensures InList(Signature(Spelling(G, Natural), Treble), Note(F, Flat, octave), true)
    ensures !InList(Signature(Spelling(G, Natural), Treble), Note(F, Flat, octave), false)
  {
    TrebleExamples(Treble);
    var sig := Signature(Spelling(G, Natural), Treble);
    assert Matches(sig[0], Note(F, Sharp, octave), false);
    assert Matches(sig[0], Note(F, Flat, octave), true);
  }
}
