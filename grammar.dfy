/** The compiled LL(1) grammar tables of the parser, as immutable values.

    A grammar is a flat sequence of DFAs, one per nonterminal, plus a table
    of labels.  DFAs refer to each other only through label numbers and
    nonterminal numbers, never by ownership, so cyclic references between
    rules are plain integers.  The field names follow the C structures
    `arc`, `state`, `dfa`, `label` and `grammar` of the parser. */
module Grammar {

  datatype Option<T> = None | Some(value: T)

  /** Nonterminal numbers start here; smaller kinds are token categories. */
  const NtOffset: int := 256
  /** Label number 0 is EMPTY: an arc on it marks its state as accepting. */
  const Empty: int := 0
  /** Token category of identifiers and keywords. */
  const NameToken: int := 1
  /** Bits per byte of a first-set byte string. */
  const BitsPerByte: int := 8

  /** `(label, next-state)`: taking the arc consumes the label and moves to `arrow`. */
  datatype Arc = Arc(lbl: int, arrow: int)

  /** A state with its declared arc count and its arc array. */
  datatype State = State(narcs: int, arcs: seq<Arc>)

  /** One nonterminal's automaton: number, name, initial state, declared
      state count, the state array and the first-set byte string. */
  datatype Dfa = Dfa(dtype: int, name: string, initial: int, nstates: int,
                     states: seq<State>, first: seq<bv8>)

  /** A label: a token category or nonterminal number, and an optional
      literal that restricts a NAME label to one keyword. */
  datatype Label = Label(kind: int, str: Option<string>)

  /** The whole grammar: the DFAs, the labels and the start symbol. */
  datatype GrammarTable = GrammarTable(ndfas: int, dfas: seq<Dfa>, nlabels: int,
                                       labels: seq<Label>, start: int)

  /** A lexical token as the label resolver sees it. */
  datatype Token = Token(kind: int, text: string)

  /** Number of bytes of a first set over `nlabels` labels (one bit per label). */
  function FirstSetBytes(nlabels: nat): (n: nat)
    ensures n * BitsPerByte >= nlabels && (n == 0 || (n - 1) * BitsPerByte < nlabels)
  {
    (nlabels + BitsPerByte - 1) / BitsPerByte
  }

  // ---------------------------------------------------------------------
  // Well-formedness

  /** An arc of state `s` of a DFA with `nstates` states: its label is a
      label number, its target a state of the same DFA, and an EMPTY arc
      points back at its own state. */
  predicate ArcWellFormed(a: Arc, s: int, nstates: int, nlabels: int)
  {
    && 0 <= a.lbl < nlabels
    && 0 <= a.arrow < nstates
    && (a.lbl == Empty ==> a.arrow == s)
  }

  /** Every state's declared arc count is the length of its arc array, and every arc is well formed. */
  predicate StatesWellFormed(states: seq<State>, nlabels: int)
  {
    forall s :: 0 <= s < |states| ==>
      && states[s].narcs == |states[s].arcs|
      && forall k :: 0 <= k < |states[s].arcs| ==> ArcWellFormed(states[s].arcs[k], s, |states|, nlabels)
  }

  /** A DFA has its declared number of states, at least one, starts in
      state 0, and has one first-set bit per label. */
  predicate DfaWellFormed(d: Dfa, nlabels: nat)
  {
    && d.nstates == |d.states|
    && 0 < |d.states|
    && d.initial == 0
    && |d.first| == FirstSetBytes(nlabels)
    && StatesWellFormed(d.states, nlabels)
  }

  /** A label whose kind is a nonterminal number names one of the `ndfas` DFAs. */
  predicate LabelWellFormed(l: Label, ndfas: int)
  {
    l.kind >= NtOffset ==> l.kind < NtOffset + ndfas
  }

  /** DFA `i` of `ds` is the automaton of nonterminal `t + i`. */
  predicate NumberedFrom(ds: seq<Dfa>, t: int)
  {
    forall i :: 0 <= i < |ds| ==> ds[i].dtype == t + i
  }

  /** The grammar's sizes agree with its arrays, label 0 is EMPTY, DFA `i`
      belongs to nonterminal `256 + i`, every DFA and label is well formed
      and the start symbol is one of the nonterminals. */
  predicate WellFormed(g: GrammarTable)
  {
    && g.ndfas == |g.dfas|
    && g.nlabels == |g.labels|
    && 0 < |g.labels|
    && g.labels[Empty] == Label(0, Some("EMPTY"))
    && NumberedFrom(g.dfas, NtOffset)
    && (forall i :: 0 <= i < |g.dfas| ==> DfaWellFormed(g.dfas[i], g.nlabels))
    && (forall i :: 0 <= i < |g.labels| ==> LabelWellFormed(g.labels[i], g.ndfas))
    && NtOffset <= g.start < NtOffset + g.ndfas
  }

  // ---------------------------------------------------------------------
  // Accessors implied by the encoding

  /** The DFA of nonterminal `t`, found at index `t - NtOffset`. */
  function FindDfa(g: GrammarTable, t: int): (r: Option<Dfa>)
    ensures r.Some? <==> NtOffset <= t < NtOffset + |g.dfas|
    ensures WellFormed(g) && r.Some? ==> r.value.dtype == t && DfaWellFormed(r.value, g.nlabels)
  {
    if NtOffset <= t < NtOffset + |g.dfas| then Some(g.dfas[t - NtOffset]) else None
  }

  /** A state is accepting when one of its arcs carries the EMPTY label. */
  predicate IsAccepting(s: State)
  {
    exists k :: 0 <= k < |s.arcs| && s.arcs[k].lbl == Empty
  }

  /** The mask selecting bit `k` of a byte. */
  function BitMask(k: int): (m: bv8)
    requires 0 <= k < BitsPerByte
    ensures m != 0 && m & (m - 1) == 0
  {
    (1 as bv8) << k
  }

  /** Label `l` is in the first set of `d`: bit `l % 8` of byte `l / 8`. */
  predicate InFirst(d: Dfa, l: int)
  {
    0 <= l && l / BitsPerByte < |d.first| && d.first[l / BitsPerByte] & BitMask(l % BitsPerByte) != 0
  }

  /** A label matches a token of its own category; a label with a literal
      matches only a NAME token spelled exactly like the literal, and a
      label without one matches every token of the category. */
  predicate Matches(l: Label, t: Token)
  {
    && l.kind == t.kind
    && (l.str.None? || (l.kind == NameToken && l.str == Some(t.text)))
  }

  /** The label numbers a token satisfies. */
  function Resolve(labels: seq<Label>, t: Token): (r: set<int>)
    ensures forall i :: i in r ==> 0 <= i < |labels|
  {
    set i | 0 <= i < |labels| && Matches(labels[i], t)
  }

  // ---------------------------------------------------------------------
  // Properties that hold for every well-formed grammar

  /** Numbering carries over to the concatenation of two consecutive runs of DFAs. */
  lemma NumberedConcat(a: seq<Dfa>, b: seq<Dfa>, t: int)
    requires NumberedFrom(a, t) && NumberedFrom(b, t + |a|)
    ensures NumberedFrom(a + b, t)
  {
    forall i | 0 <= i < |a + b| ensures (a + b)[i].dtype == t + i {
      if i >= |a| {
        assert (a + b)[i] == b[i - |a|];
      }
    }
  }

  /** In a well-formed grammar an accepting state's EMPTY arcs lead back to
      the state itself, so EMPTY only marks acceptance and never moves. */
  lemma AcceptingArcIsSelfLoop(g: GrammarTable, t: int, s: int)
    requires WellFormed(g)
    requires FindDfa(g, t).Some?
    requires 0 <= s < |FindDfa(g, t).value.states|
    requires IsAccepting(FindDfa(g, t).value.states[s])
    ensures Arc(Empty, s) in FindDfa(g, t).value.states[s].arcs
  {
    var d := FindDfa(g, t).value;
    var k :| 0 <= k < |d.states[s].arcs| && d.states[s].arcs[k].lbl == Empty;
    assert ArcWellFormed(d.states[s].arcs[k], s, |d.states|, g.nlabels);
    assert d.states[s].arcs[k] == Arc(Empty, s);
  }

  /** Following any arc of a well-formed DFA stays inside that DFA. */
  lemma ArcTargetsInRange(g: GrammarTable, t: int, s: int, k: int)
    requires WellFormed(g)
    requires FindDfa(g, t).Some?
    requires 0 <= s < |FindDfa(g, t).value.states|
    requires 0 <= k < |FindDfa(g, t).value.states[s].arcs|
    ensures var a := FindDfa(g, t).value.states[s].arcs[k];
            0 <= a.arrow < FindDfa(g, t).value.nstates && 0 <= a.lbl < |g.labels|
  {
    var d := FindDfa(g, t).value;
    assert DfaWellFormed(d, g.nlabels);
    assert ArcWellFormed(d.states[s].arcs[k], s, |d.states|, g.nlabels);
  }

  /** Every label that names a nonterminal leads to that nonterminal's DFA. */
  lemma NonterminalLabelHasDfa(g: GrammarTable, i: int)
    requires WellFormed(g)
    requires 0 <= i < |g.labels| && g.labels[i].kind >= NtOffset
    ensures FindDfa(g, g.labels[i].kind).Some?
    ensures FindDfa(g, g.labels[i].kind).value.dtype == g.labels[i].kind
  {
    assert LabelWellFormed(g.labels[i], g.ndfas);
  }

  /** A first-set bit exists only for label numbers the byte string covers. */
  lemma InFirstBounded(g: GrammarTable, t: int, l: int)
    requires WellFormed(g)
    requires FindDfa(g, t).Some? && InFirst(FindDfa(g, t).value, l)
    ensures 0 <= l < FirstSetBytes(g.nlabels) * BitsPerByte
  {
    assert DfaWellFormed(FindDfa(g, t).value, g.nlabels);
  }

  /** A keyword label is satisfied only by a NAME token with exactly its text. */
  lemma KeywordNeedsExactText(labels: seq<Label>, t: Token, i: int, w: string)
    requires 0 <= i < |labels| && labels[i].str == Some(w)
    requires i in Resolve(labels, t)
    ensures t.kind == NameToken && t.text == w
  {
    assert Matches(labels[i], t);
  }

  /** The EMPTY label never matches a token, whatever its category or text. */
  lemma EmptyNeverResolves(g: GrammarTable, t: Token)
    requires WellFormed(g)
    ensures Empty !in Resolve(g.labels, t)
  {
    assert g.labels[Empty].kind != NameToken;
  }

  /** A token of a lexical category never satisfies a label naming a nonterminal. */
  lemma TokensResolveToTerminals(labels: seq<Label>, t: Token, i: int)
    requires t.kind < NtOffset
    requires i in Resolve(labels, t)
    ensures labels[i].kind < NtOffset
  {
  }

  /** Distinct bit positions select disjoint bits of a byte. */
  lemma BitMasksDisjoint(j: int, k: int)
    requires 0 <= j < BitsPerByte && 0 <= k < BitsPerByte
    ensures BitMask(j) & BitMask(k) != 0 <==> j == k
  {
  }

  /** A first set whose only nonzero byte is the single bit of label `l0`
      contains exactly that label. */
  lemma SingleLabelFirstSet(d: Dfa, l0: int)
    requires 0 <= l0 && l0 / BitsPerByte < |d.first|
    requires forall i :: 0 <= i < |d.first| && i != l0 / BitsPerByte ==> d.first[i] == 0
    requires d.first[l0 / BitsPerByte] == BitMask(l0 % BitsPerByte)
    ensures forall l :: InFirst(d, l) <==> l == l0
  {
    forall l | 0 <= l && l / BitsPerByte < |d.first|
      ensures InFirst(d, l) <==> l == l0
    {
      BitMasksDisjoint(l % BitsPerByte, l0 % BitsPerByte);
    }
  }

  /** Label `n + i` of a run `ls` of labels numbered from `n` matches `t`
      exactly when `n + i` is one of `hits`. */
  predicate MatchesExactly(ls: seq<Label>, t: Token, n: int, hits: set<int>)
  {
    forall i :: 0 <= i < |ls| ==> (Matches(ls[i], t) <==> n + i in hits)
  }

  /** A whole label table that matches exactly on `hits`, all of them label
      numbers, resolves the token to exactly `hits`. */
  lemma ResolveFromMatches(labels: seq<Label>, t: Token, hits: set<int>)
    requires MatchesExactly(labels, t, 0, hits)
    requires forall h :: h in hits ==> 0 <= h < |labels|
    ensures Resolve(labels, t) == hits
  {
    forall h | h in hits ensures h in Resolve(labels, t) {
      assert Matches(labels[h], t);
    }
  }
}
