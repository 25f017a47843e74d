/** Facts about the label table of the compiled grammar: every entry is well
    formed, and the table tells keywords from identifiers. */
module GramInitLabels {
  import opened Grammar
  import opened GramInit
  import opened GramInitKeywords

  // ---------------------------------------------------------------------
  // Well-formedness, block by block

  lemma LabelsWellFormedFrom0To19()
    ensures forall i :: 0 <= i < 20 ==> LabelWellFormed(LabelsFrom0To19(i), DfaCount)
  {
  }

  lemma LabelsWellFormedFrom20To39()
    ensures forall i :: 20 <= i < 40 ==> LabelWellFormed(LabelsFrom20To39(i), DfaCount)
  {
  }

  lemma LabelsWellFormedFrom40To59()
    ensures forall i :: 40 <= i < 60 ==> LabelWellFormed(LabelsFrom40To59(i), DfaCount)
  {
  }

  lemma LabelsWellFormedFrom60To79()
    ensures forall i :: 60 <= i < 80 ==> LabelWellFormed(LabelsFrom60To79(i), DfaCount)
  {
  }

  lemma LabelsWellFormedFrom80To99()
    ensures forall i :: 80 <= i < 100 ==> LabelWellFormed(LabelsFrom80To99(i), DfaCount)
  {
  }

  lemma LabelsWellFormedFrom100To119()
    ensures forall i :: 100 <= i < 120 ==> LabelWellFormed(LabelsFrom100To119(i), DfaCount)
  {
  }

  lemma LabelsWellFormedFrom120To139()
    ensures forall i :: 120 <= i < 140 ==> LabelWellFormed(LabelsFrom120To139(i), DfaCount)
  {
  }

  lemma LabelsWellFormedFrom140To159()
    ensures forall i :: 140 <= i < 160 ==> LabelWellFormed(LabelsFrom140To159(i), DfaCount)
  {
  }

  lemma LabelsWellFormedFrom160To166()
    ensures forall i :: 160 <= i < 167 ==> LabelWellFormed(LabelsFrom160To166(i), DfaCount)
  {
  }

  /** Every label is a token category below 256 or the number of one of the
      84 DFAs; only token labels carry a literal. */
  lemma LabelsWellFormed()
    ensures forall i :: 0 <= i < LabelCount ==> LabelWellFormed(Labels[i], DfaCount)
  {
    forall i | 0 <= i < LabelCount
      ensures LabelWellFormed(Labels[i], DfaCount)
    {
      if i < 20 {
        LabelsWellFormedFrom0To19();
      } else if i < 40 {
        LabelsWellFormedFrom20To39();
      } else if i < 60 {
        LabelsWellFormedFrom40To59();
      } else if i < 80 {
        LabelsWellFormedFrom60To79();
      } else if i < 100 {
        LabelsWellFormedFrom80To99();
      } else if i < 120 {
        LabelsWellFormedFrom100To119();
      } else if i < 140 {
        LabelsWellFormedFrom120To139();
      } else if i < 160 {
        LabelsWellFormedFrom140To159();
      } else {
        LabelsWellFormedFrom160To166();
      }
    }
  }

  // ---------------------------------------------------------------------
  // Keywords and identifiers

  lemma NameMatchesFrom0To19(w: string)
    ensures forall i :: 0 <= i < 20 ==> (Matches(LabelsFrom0To19(i), Token(NameToken, w)) <==> i in NameHits(w))
  {
  }

  lemma NameMatchesFrom20To39(w: string)
    ensures forall i :: 20 <= i < 40 ==> (Matches(LabelsFrom20To39(i), Token(NameToken, w)) <==> i in NameHits(w))
  {
  }

  lemma NameMatchesFrom40To59(w: string)
    ensures forall i :: 40 <= i < 60 ==> (Matches(LabelsFrom40To59(i), Token(NameToken, w)) <==> i in NameHits(w))
  {
  }

  lemma NameMatchesFrom60To79(w: string)
    ensures forall i :: 60 <= i < 80 ==> (Matches(LabelsFrom60To79(i), Token(NameToken, w)) <==> i in NameHits(w))
  {
  }

  lemma NameMatchesFrom80To99(w: string)
    ensures forall i :: 80 <= i < 100 ==> (Matches(LabelsFrom80To99(i), Token(NameToken, w)) <==> i in NameHits(w))
  {
  }

  lemma NameMatchesFrom100To119(w: string)
    ensures forall i :: 100 <= i < 120 ==> (Matches(LabelsFrom100To119(i), Token(NameToken, w)) <==> i in NameHits(w))
  {
  }

  lemma NameMatchesFrom120To139(w: string)
    ensures forall i :: 120 <= i < 140 ==> (Matches(LabelsFrom120To139(i), Token(NameToken, w)) <==> i in NameHits(w))
  {
  }

  lemma NameMatchesFrom140To159(w: string)
    ensures forall i :: 140 <= i < 160 ==> (Matches(LabelsFrom140To159(i), Token(NameToken, w)) <==> i in NameHits(w))
  {
  }

  lemma NameMatchesFrom160To166(w: string)
    ensures forall i :: 160 <= i < 167 ==> (Matches(LabelsFrom160To166(i), Token(NameToken, w)) <==> i in NameHits(w))
  {
  }

  /** Every NAME token satisfies the generic NAME label 19 and, when its
      text is a keyword, that keyword's label and no other. */
  lemma NameTokenResolution(w: string)
    ensures Resolve(Labels, Token(NameToken, w)) == NameHits(w)
  {
    forall i | 0 <= i < LabelCount
      ensures Matches(Labels[i], Token(NameToken, w)) <==> i in NameHits(w)
    {
      if i < 20 {
        NameMatchesFrom0To19(w);
      } else if i < 40 {
        NameMatchesFrom20To39(w);
      } else if i < 60 {
        NameMatchesFrom40To59(w);
      } else if i < 80 {
        NameMatchesFrom60To79(w);
      } else if i < 100 {
        NameMatchesFrom80To99(w);
      } else if i < 120 {
        NameMatchesFrom100To119(w);
      } else if i < 140 {
        NameMatchesFrom120To139(w);
      } else if i < 160 {
        NameMatchesFrom140To159(w);
      } else {
        NameMatchesFrom160To166(w);
      }
    }
    ResolveFromMatches(Labels, Token(NameToken, w), NameHits(w));
  }

  /** No keyword label is spelled "delete". */
  lemma DeleteIsNoKeyword()
    ensures NameHits("delete") == {19}
  {
    assert forall i :: KeywordAt(i) != Some("delete");
  }

  /** Exactly one keyword label, 58, is spelled "del". */
  lemma DelIsKeyword()
    ensures NameHits("del") == {19, 58}
  {
    assert forall i :: KeywordAt(i) == Some("del") ==> i == 58;
    assert KeywordAt(58) == Some("del");
  }

  /** "delete" is no keyword: it satisfies only the generic NAME label 19,
      never the keyword label 58 "del". */
  lemma IdentifierResolvesToName()
    ensures Resolve(Labels, Token(NameToken, "delete")) == {19}
  {
    NameTokenResolution("delete");
    DeleteIsNoKeyword();
  }

  /** "del" is a keyword: it satisfies both the generic NAME label 19 and
      its keyword label 58. */
  lemma KeywordResolvesTwice()
    ensures Resolve(Labels, Token(NameToken, "del")) == {19, 58}
  {
    NameTokenResolution("del");
    DelIsKeyword();
  }
}
