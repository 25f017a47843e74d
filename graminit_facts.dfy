/** Facts about the compiled grammar tables: the table as a whole is well
    formed, a few rules have the shape the language's grammar gives them,
    and the label table tells keywords from identifiers. */
module GramInitFacts {
  import opened Grammar
  import opened GramInit
  import opened GramInitLabels

  // ---------------------------------------------------------------------
  // The table as a whole

  /** The DFAs are numbered 256, 257, ... in array order. */
  lemma DfasNumbered()
    ensures NumberedFrom(Dfas, NtOffset)
  {
    DfasFrom256Numbered();
    DfasFrom268Numbered();
    DfasFrom280Numbered();
    DfasFrom292Numbered();
    DfasFrom304Numbered();
    DfasFrom316Numbered();
    DfasFrom328Numbered();
    NumberedConcat(DfasFrom256, DfasFrom268, 256);
    NumberedConcat(DfasFrom256 + DfasFrom268, DfasFrom280, 256);
    NumberedConcat(DfasFrom256 + DfasFrom268 + DfasFrom280, DfasFrom292, 256);
    NumberedConcat(DfasFrom256 + DfasFrom268 + DfasFrom280 + DfasFrom292, DfasFrom304, 256);
    NumberedConcat(DfasFrom256 + DfasFrom268 + DfasFrom280 + DfasFrom292 + DfasFrom304, DfasFrom316, 256);
    NumberedConcat(DfasFrom256 + DfasFrom268 + DfasFrom280 + DfasFrom292 + DfasFrom304 + DfasFrom316, DfasFrom328, 256);
  }


  /** The grammar record is well formed: 84 DFAs numbered from 256, 167
      labels with EMPTY first, every arc inside its own DFA, every EMPTY arc
      a self-loop, every nonterminal label naming one of the DFAs, and the
      start symbol `single_input` (256). */
  lemma ParserGrammarWellFormed()
    ensures WellFormed(ParserGrammar)
    ensures ParserGrammar.start == NtOffset && ParserGrammar.ndfas == 84 && ParserGrammar.nlabels == 167
  {
    DfasNumbered();
    LabelsWellFormed();
  }

  // ---------------------------------------------------------------------
  // Particular rules

  /** Looking up nonterminals by number finds the rules of those names:
      decorator (259) has 7 states, try_stmt (295) has 13, and comp_op is
      nonterminal 308. */
  lemma RuleLookups()
    ensures FindDfa(ParserGrammar, 259).Some? && FindDfa(ParserGrammar, 259).value == Decorator
    ensures FindDfa(ParserGrammar, 295).Some? && FindDfa(ParserGrammar, 295).value == TryStmt
    ensures FindDfa(ParserGrammar, 308).Some? && FindDfa(ParserGrammar, 308).value == CompOp
    ensures Decorator.name == "decorator" && |Decorator.states| == 7
    ensures TryStmt.name == "try_stmt" && |TryStmt.states| == 13
    ensures CompOp.name == "comp_op"
  {
  }

  /** The single-keyword statements del_stmt, pass_stmt and break_stmt are
      nonterminals 272, 273 and 275. */
  lemma KeywordRuleLookups()
    ensures FindDfa(ParserGrammar, 272).Some? && FindDfa(ParserGrammar, 272).value == DelStmt
    ensures FindDfa(ParserGrammar, 273).Some? && FindDfa(ParserGrammar, 273).value == PassStmt
    ensures FindDfa(ParserGrammar, 275).Some? && FindDfa(ParserGrammar, 275).value == BreakStmt
    ensures DelStmt.name == "del_stmt" && PassStmt.name == "pass_stmt" && BreakStmt.name == "break_stmt"
  {
  }

  /** pass_stmt is a single-keyword rule: from state 0 the only move is
      label 60, the keyword "pass", into state 1, which is accepting and has
      no other arc; state 0 is not accepting. */
  lemma PassStmtIsSingleKeyword()
    ensures PassStmt.nstates == 2
    ensures PassStmt.states[0].arcs == [Arc(60, 1)] && !IsAccepting(PassStmt.states[0])
    ensures PassStmt.states[1].arcs == [Arc(Empty, 1)] && IsAccepting(PassStmt.states[1])
    ensures Labels[60] == Label(NameToken, Some("pass"))
  {
    assert PassStmt.states[1].arcs[0].lbl == Empty;
  }

  /** The first set of pass_stmt is exactly label 60, "pass". */
  lemma PassStmtFirstSet()
    ensures forall l :: InFirst(PassStmt, l) <==> l == 60
  {
    SingleLabelFirstSet(PassStmt, 60);
  }

  /** The first set of del_stmt is exactly label 58, "del". */
  lemma DelStmtFirstSet()
    ensures forall l :: InFirst(DelStmt, l) <==> l == 58
  {
    SingleLabelFirstSet(DelStmt, 58);
  }

  /** The first set of break_stmt is exactly label 66, "break". */
  lemma BreakStmtFirstSet()
    ensures forall l :: InFirst(BreakStmt, l) <==> l == 66
  {
    SingleLabelFirstSet(BreakStmt, 66);
  }

  /** Labels 121 and 122 are the same entry, the NOTEQUAL token (kind 29):
      a NOTEQUAL token satisfies both, and comp_op leaves its state 0 on
      either of them into state 1. */
  lemma NotEqualListedTwice(text: string)
    ensures Labels[121] == Labels[122] == Label(29, None)
    ensures 121 in Resolve(Labels, Token(29, text)) && 122 in Resolve(Labels, Token(29, text))
    ensures Arc(121, 1) in CompOp.states[0].arcs && Arc(122, 1) in CompOp.states[0].arcs
  {
    assert Matches(Labels[121], Token(29, text)) && Matches(Labels[122], Token(29, text));
    assert CompOp.states[0].arcs[5] == Arc(121, 1);
    assert CompOp.states[0].arcs[6] == Arc(122, 1);
  }
}
