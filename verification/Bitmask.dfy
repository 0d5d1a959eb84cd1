/** The uint64 words behind permission masks, and the sets of bit positions they encode. */
module Bitmask {
  import opened Paths
  import opened Tables
  import opened Permissions

  type Word = bv64

  predicate Test(w: Word, i: Bit) { (w >> i) & 1 == 1 }

  /** The word with the single bit `1 << i`, as every Perm constant is declared. */
  function Single(i: Bit): Word { 1 << i }

  function Has(w: Word, target: Word): bool { w & target == target }

  function Add(w: Word, target: Word): Word { w | target }

  function Remove(w: Word, target: Word): Word { w & !target }

  /** The break branch: clear everything, then put Admin back if it was set. */
  function KeepAdmin(w: Word, admin: Word): Word {
    if w & admin != 0 then 0 | admin else 0
  }

  ghost predicate Encodes(w: Word, m: Mask) { forall i: Bit :: Test(w, i) <==> i in m }

  lemma TestOr(a: Word, b: Word, i: Bit)
    ensures Test(a | b, i) <==> Test(a, i) || Test(b, i)
  {
  }

  lemma TestAndNot(a: Word, b: Word, i: Bit)
    ensures Test(a & !b, i) <==> Test(a, i) && !Test(b, i)
  {
  }

  lemma AddIsUnion(a: Word, b: Word, ma: Mask, mb: Mask)
    requires Encodes(a, ma) && Encodes(b, mb)
    ensures Encodes(Add(a, b), ma + mb)
  {
    forall i: Bit
      ensures Test(a | b, i) <==> i in ma + mb
    {
      TestOr(a, b, i);
    }
  }

  lemma RemoveIsDifference(a: Word, b: Word, ma: Mask, mb: Mask)
    requires Encodes(a, ma) && Encodes(b, mb)
    ensures Encodes(Remove(a, b), ma - mb)
  {
    forall i: Bit
      ensures Test(a & !b, i) <==> i in ma - mb
    {
      TestAndNot(a, b, i);
    }
  }

  lemma SomeBit(w: Word) returns (i: Bit)
    requires w != 0
    ensures Test(w, i)
  {
    i := if w & 0xFFFF_FFFF == 0 then 32 else 0;
    assert (w >> i) & 0xFFFF_FFFF != 0;
    i := if (w >> i) & 0xFFFF == 0 then i + 16 else i;
    assert (w >> i) & 0xFFFF != 0;
    i := if (w >> i) & 0xFF == 0 then i + 8 else i;
    assert (w >> i) & 0xFF != 0;
    i := if (w >> i) & 0xF == 0 then i + 4 else i;
    assert (w >> i) & 0xF != 0;
    i := if (w >> i) & 3 == 0 then i + 2 else i;
    assert (w >> i) & 3 != 0;
    i := if (w >> i) & 1 == 0 then i + 1 else i;
  }

  /** `Has` with any target word is inclusion of the bit sets. */
  lemma HasIsInclusion(w: Word, target: Word, m: Mask, t: Mask)
    requires Encodes(w, m) && Encodes(target, t)
    ensures Has(w, target) <==> t <= m
  {
    if target & !w == 0 {
      NothingLeft(w, target);
      forall i | i in t
        ensures i in m
      {
        TestAndNot(target, w, i);
        assert !Test(0, i);
      }
    } else {
      var i := SomeBit(target & !w);
      TestAndNot(target, w, i);
      SomethingLeft(w, target);
    }
  }

  lemma NothingLeft(w: Word, target: Word)
    requires target & !w == 0
    ensures Has(w, target)
  {
  }

  lemma SomethingLeft(w: Word, target: Word)
    requires target & !w != 0
    ensures !Has(w, target)
  {
  }

  /** Clearing at a break leaves exactly the part of the mask that is the Admin bit. */
  lemma KeepAdminIsIntersection(w: Word, m: Mask, i: Bit)
    requires Encodes(w, m)
    ensures Encodes(KeepAdmin(w, Single(i)), m * {i})
  {
  }

  const ADMIN_WORD: Word := 0x8000_0000

  lemma AdminWord()
    ensures ADMIN_WORD == Single(31)
  {
  }

  /** One round of the walk on words: the break branch, then the OR. */
  function WordStep(acc: Word, w: Word, inherits: bool): Word {
    Add(if inherits then acc else KeepAdmin(acc, ADMIN_WORD), w)
  }

  function WordFold(ws: seq<Word>, ls: seq<Link>): Word
    requires |ws| == |ls|
  {
    if ws == [] then 0 else WordStep(WordFold(Front(ws), Front(ls)), Last(ws), Last(ls).inherits)
  }

  lemma WordStepEncodes(acc: Word, w: Word, m: Mask, l: Link)
    requires Encodes(acc, m) && Encodes(w, l.mask)
    ensures Encodes(WordStep(acc, w, l.inherits), Step(m, l))
  {
    if l.inherits {
      AddIsUnion(acc, w, m, l.mask);
    } else {
      AdminWord();
      KeepAdminIsIntersection(acc, m, 31);
      AddIsUnion(KeepAdmin(acc, ADMIN_WORD), w, m * PERM_ADMIN, l.mask);
    }
  }

  lemma ZeroEncodes()
    ensures Encodes(0, {})
  {
  }

  /** The walk over uint64 words computes the word of the walk over bit sets. */
  lemma {:induction false} WordFoldEncodes(ws: seq<Word>, ls: seq<Link>)
    requires |ws| == |ls| && forall i | 0 <= i < |ws| :: Encodes(ws[i], ls[i].mask)
    ensures Encodes(WordFold(ws, ls), Fold(ls))
    decreases |ws|
  {
    if ws == [] {
      ZeroEncodes();
    } else {
      WordFoldEncodes(Front(ws), Front(ls));
      WordStepEncodes(WordFold(Front(ws), Front(ls)), Last(ws), Fold(Front(ls)), Last(ls));
    }
  }

  lemma EncodesSingle(i: Bit)
    ensures Encodes(Single(i), {i})
  {
    forall j: Bit
      ensures Test(Single(i), j) <==> j in {i}
    {
    }
  }

  /** The constants by their values. */
  lemma PermConstants()
    ensures Encodes(1, PERM_READ) && Encodes(2, PERM_WRITE) && Encodes(4, PERM_CREATE)
    ensures Encodes(8, PERM_DELETE) && Encodes(16, PERM_RENAME)
    ensures Encodes(0x1_0000, PERM_CREATE_FOLDER) && Encodes(0x2_0000, PERM_MOVE_FOLDER)
    ensures Encodes(0x4_0000, PERM_DELETE_FOLDER) && Encodes(0x400_0000, PERM_DEVICE_SETUP)
    ensures Encodes(0x8000_0000, PERM_ADMIN)
  {
    EncodesSingle(0);
    EncodesSingle(1);
    EncodesSingle(2);
    EncodesSingle(3);
    EncodesSingle(4);
    EncodesSingle(16);
    EncodesSingle(17);
    EncodesSingle(18);
    EncodesSingle(26);
    EncodesSingle(31);
    SingleWords();
  }

  lemma SingleWords()
    ensures Single(0) == 1 && Single(1) == 2 && Single(2) == 4 && Single(3) == 8 && Single(4) == 16
    ensures Single(16) == 0x1_0000 && Single(17) == 0x2_0000 && Single(18) == 0x4_0000
    ensures Single(26) == 0x400_0000 && Single(31) == 0x8000_0000
  {
  }
}
