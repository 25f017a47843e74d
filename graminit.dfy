/** The grammar tables of the parser as they are compiled into the
    interpreter: 84 DFAs for the nonterminals 256..339, 167 labels and the
    start symbol 256.  Every entry below is the value of the corresponding
    `states_N` array (with its `arcs_N_M` arrays inlined) and `dfas[N]`
    record of Python/graminit.c, in the same order.

    Each DFA constant has the subset type `TableDfa`, so the verifier checks
    each one against `DfaWellFormed` where it is declared.  The DFA
    sequence is written as a concatenation of runs of twelve and the label
    array as a function of the label number, which keeps lookups by index
    cheap to verify. */
module GramInit {
  import opened Grammar

  const LabelCount: nat := 167
  const DfaCount: nat := 84

  /** A DFA of this table, checked against the well-formedness rules where it is declared. */
  type TableDfa = d: Dfa | DfaWellFormed(d, LabelCount)
    witness Dfa(NtOffset, "", 0, 1, [State(0, [])], seq(21, _ => 0))

  // single_input: states_0, lines 3-18; dfas[0], lines 1787-1788
  const SingleInput: TableDfa := Dfa(256, "single_input", 0, 3,
    [State(3, [Arc(2, 1), Arc(3, 1), Arc(4, 2)]),
     State(1, [Arc(0, 1)]),
     State(1, [Arc(2, 1)])],
    [0x04, 0x28, 0x0c, 0x00, 0x00, 0x00, 0x00, 0x15, 0x3c, 0x85, 0x09, 0xe4, 0x04, 0x08, 0x02, 0x00, 0x60, 0x08, 0x49, 0x83, 0x40])

  // file_input: states_1, lines 19-30; dfas[1], lines 1789-1790
  const FileInput: TableDfa := Dfa(257, "file_input", 0, 2,
    [State(3, [Arc(2, 0), Arc(6, 0), Arc(7, 1)]),
     State(1, [Arc(0, 1)])],
    [0x84, 0x28, 0x0c, 0x00, 0x00, 0x00, 0x00, 0x15, 0x3c, 0x85, 0x09, 0xe4, 0x04, 0x08, 0x02, 0x00, 0x60, 0x08, 0x49, 0x83, 0x40])

  // eval_input: states_2, lines 31-45; dfas[2], lines 1791-1792
  const EvalInput: TableDfa := Dfa(258, "eval_input", 0, 3,
    [State(1, [Arc(9, 1)]),
     State(2, [Arc(2, 1), Arc(7, 2)]),
     State(1, [Arc(0, 2)])],
    [0x00, 0x20, 0x08, 0x00, 0x00, 0x00, 0x00, 0x00, 0x00, 0x00, 0x00, 0x00, 0x00, 0x08, 0x02, 0x00, 0x60, 0x08, 0x49, 0x03, 0x00])

  // decorator: states_3, lines 46-77; dfas[3], lines 1793-1794
  const Decorator: TableDfa := Dfa(259, "decorator", 0, 7,
    [State(1, [Arc(11, 1)]),
     State(1, [Arc(12, 2)]),
     State(2, [Arc(13, 3), Arc(2, 4)]),
     State(2, [Arc(14, 5), Arc(15, 6)]),
     State(1, [Arc(0, 4)]),
     State(1, [Arc(15, 6)]),
     State(1, [Arc(2, 4)])],
    [0x00, 0x08, 0x00, 0x00, 0x00, 0x00, 0x00, 0x00, 0x00, 0x00, 0x00, 0x00, 0x00, 0x00, 0x00, 0x00, 0x00, 0x00, 0x00, 0x00, 0x00])

  // decorators: states_4, lines 78-88; dfas[4], lines 1795-1796
  const Decorators: TableDfa := Dfa(260, "decorators", 0, 2,
    [State(1, [Arc(10, 1)]),
     State(2, [Arc(10, 1), Arc(0, 1)])],
    [0x00, 0x08, 0x00, 0x00, 0x00, 0x00, 0x00, 0x00, 0x00, 0x00, 0x00, 0x00, 0x00, 0x00, 0x00, 0x00, 0x00, 0x00, 0x00, 0x00, 0x00])

  // funcdef: states_5, lines 89-119; dfas[5], lines 1797-1798
  const Funcdef: TableDfa := Dfa(261, "funcdef", 0, 7,
    [State(2, [Arc(16, 1), Arc(18, 2)]),
     State(1, [Arc(18, 2)]),
     State(1, [Arc(19, 3)]),
     State(1, [Arc(20, 4)]),
     State(1, [Arc(21, 5)]),
     State(1, [Arc(22, 6)]),
     State(1, [Arc(0, 6)])],
    [0x00, 0x08, 0x04, 0x00, 0x00, 0x00, 0x00, 0x00, 0x00, 0x00, 0x00, 0x00, 0x00, 0x00, 0x00, 0x00, 0x00, 0x00, 0x00, 0x00, 0x00])

  // parameters: states_6, lines 120-138; dfas[6], lines 1799-1800
  const Parameters: TableDfa := Dfa(262, "parameters", 0, 4,
    [State(1, [Arc(13, 1)]),
     State(2, [Arc(23, 2), Arc(15, 3)]),
     State(1, [Arc(15, 3)]),
     State(1, [Arc(0, 3)])],
    [0x00, 0x20, 0x00, 0x00, 0x00, 0x00, 0x00, 0x00, 0x00, 0x00, 0x00, 0x00, 0x00, 0x00, 0x00, 0x00, 0x00, 0x00, 0x00, 0x00, 0x00])

  // varargslist: states_7, lines 139-189; dfas[7], lines 1801-1802
  const Varargslist: TableDfa := Dfa(263, "varargslist", 0, 10,
    [State(3, [Arc(24, 1), Arc(28, 2), Arc(29, 3)]),
     State(3, [Arc(25, 4), Arc(27, 5), Arc(0, 1)]),
     State(1, [Arc(19, 6)]),
     State(1, [Arc(19, 7)]),
     State(1, [Arc(26, 8)]),
     State(4, [Arc(24, 1), Arc(28, 2), Arc(29, 3), Arc(0, 5)]),
     State(2, [Arc(27, 9), Arc(0, 6)]),
     State(1, [Arc(0, 7)]),
     State(2, [Arc(27, 5), Arc(0, 8)]),
     State(1, [Arc(29, 3)])],
    [0x00, 0x20, 0x08, 0x30, 0x00, 0x00, 0x00, 0x00, 0x00, 0x00, 0x00, 0x00, 0x00, 0x00, 0x00, 0x00, 0x00, 0x00, 0x00, 0x00, 0x00])

  // fpdef: states_8, lines 190-208; dfas[8], lines 1803-1804
  const Fpdef: TableDfa := Dfa(264, "fpdef", 0, 4,
    [State(2, [Arc(19, 1), Arc(13, 2)]),
     State(1, [Arc(0, 1)]),
     State(1, [Arc(30, 3)]),
     State(1, [Arc(15, 1)])],
    [0x00, 0x20, 0x08, 0x00, 0x00, 0x00, 0x00, 0x00, 0x00, 0x00, 0x00, 0x00, 0x00, 0x00, 0x00, 0x00, 0x00, 0x00, 0x00, 0x00, 0x00])

  // fplist: states_9, lines 209-224; dfas[9], lines 1805-1806
  const Fplist: TableDfa := Dfa(265, "fplist", 0, 3,
    [State(1, [Arc(24, 1)]),
     State(2, [Arc(27, 2), Arc(0, 1)]),
     State(2, [Arc(24, 1), Arc(0, 2)])],
    [0x00, 0x20, 0x08, 0x00, 0x00, 0x00, 0x00, 0x00, 0x00, 0x00, 0x00, 0x00, 0x00, 0x00, 0x00, 0x00, 0x00, 0x00, 0x00, 0x00, 0x00])

  // stmt: states_10, lines 225-235; dfas[10], lines 1807-1808
  const Stmt: TableDfa := Dfa(266, "stmt", 0, 2,
    [State(2, [Arc(3, 1), Arc(4, 1)]),
     State(1, [Arc(0, 1)])],
    [0x00, 0x28, 0x0c, 0x00, 0x00, 0x00, 0x00, 0x15, 0x3c, 0x85, 0x09, 0xe4, 0x04, 0x08, 0x02, 0x00, 0x60, 0x08, 0x49, 0x83, 0x40])

  // simple_stmt: states_11, lines 236-255; dfas[11], lines 1809-1810
  const SimpleStmt: TableDfa := Dfa(267, "simple_stmt", 0, 4,
    [State(1, [Arc(31, 1)]),
     State(2, [Arc(32, 2), Arc(2, 3)]),
     State(2, [Arc(31, 1), Arc(2, 3)]),
     State(1, [Arc(0, 3)])],
    [0x00, 0x20, 0x08, 0x00, 0x00, 0x00, 0x00, 0x15, 0x3c, 0x85, 0x09, 0x00, 0x00, 0x08, 0x02, 0x00, 0x60, 0x08, 0x49, 0x03, 0x40])

  // small_stmt: states_12, lines 256-273; dfas[12], lines 1811-1812
  const SmallStmt: TableDfa := Dfa(268, "small_stmt", 0, 2,
    [State(9, [Arc(33, 1), Arc(34, 1), Arc(35, 1), Arc(36, 1), Arc(37, 1), Arc(38, 1), Arc(39, 1), Arc(40, 1), Arc(41, 1)]),
     State(1, [Arc(0, 1)])],
    [0x00, 0x20, 0x08, 0x00, 0x00, 0x00, 0x00, 0x15, 0x3c, 0x85, 0x09, 0x00, 0x00, 0x08, 0x02, 0x00, 0x60, 0x08, 0x49, 0x03, 0x40])

  // expr_stmt: states_13, lines 274-304; dfas[13], lines 1813-1814
  const ExprStmt: TableDfa := Dfa(269, "expr_stmt", 0, 6,
    [State(1, [Arc(9, 1)]),
     State(3, [Arc(42, 2), Arc(25, 3), Arc(0, 1)]),
     State(2, [Arc(43, 4), Arc(9, 4)]),
     State(2, [Arc(43, 5), Arc(9, 5)]),
     State(1, [Arc(0, 4)]),
     State(2, [Arc(25, 3), Arc(0, 5)])],
    [0x00, 0x20, 0x08, 0x00, 0x00, 0x00, 0x00, 0x00, 0x00, 0x00, 0x00, 0x00, 0x00, 0x08, 0x02, 0x00, 0x60, 0x08, 0x49, 0x03, 0x00])

  // augassign: states_14, lines 305-325; dfas[14], lines 1815-1816
  const Augassign: TableDfa := Dfa(270, "augassign", 0, 2,
    [State(12, [Arc(44, 1), Arc(45, 1), Arc(46, 1), Arc(47, 1), Arc(48, 1), Arc(49, 1), Arc(50, 1), Arc(51, 1), Arc(52, 1), Arc(53, 1), Arc(54, 1), Arc(55, 1)]),
     State(1, [Arc(0, 1)])],
    [0x00, 0x00, 0x00, 0x00, 0x00, 0xf0, 0xff, 0x00, 0x00, 0x00, 0x00, 0x00, 0x00, 0x00, 0x00, 0x00, 0x00, 0x00, 0x00, 0x00, 0x00])

  // print_stmt: states_15, lines 326-370; dfas[15], lines 1817-1818
  const PrintStmt: TableDfa := Dfa(271, "print_stmt", 0, 9,
    [State(1, [Arc(56, 1)]),
     State(3, [Arc(26, 2), Arc(57, 3), Arc(0, 1)]),
     State(2, [Arc(27, 4), Arc(0, 2)]),
     State(1, [Arc(26, 5)]),
     State(2, [Arc(26, 2), Arc(0, 4)]),
     State(2, [Arc(27, 6), Arc(0, 5)]),
     State(1, [Arc(26, 7)]),
     State(2, [Arc(27, 8), Arc(0, 7)]),
     State(2, [Arc(26, 7), Arc(0, 8)])],
    [0x00, 0x00, 0x00, 0x00, 0x00, 0x00, 0x00, 0x01, 0x00, 0x00, 0x00, 0x00, 0x00, 0x00, 0x00, 0x00, 0x00, 0x00, 0x00, 0x00, 0x00])

  // del_stmt: states_16, lines 371-384; dfas[16], lines 1819-1820
  const DelStmt: TableDfa := Dfa(272, "del_stmt", 0, 3,
    [State(1, [Arc(58, 1)]),
     State(1, [Arc(59, 2)]),
     State(1, [Arc(0, 2)])],
    [0x00, 0x00, 0x00, 0x00, 0x00, 0x00, 0x00, 0x04, 0x00, 0x00, 0x00, 0x00, 0x00, 0x00, 0x00, 0x00, 0x00, 0x00, 0x00, 0x00, 0x00])

  // pass_stmt: states_17, lines 385-394; dfas[17], lines 1821-1822
  const PassStmt: TableDfa := Dfa(273, "pass_stmt", 0, 2,
    [State(1, [Arc(60, 1)]),
     State(1, [Arc(0, 1)])],
    [0x00, 0x00, 0x00, 0x00, 0x00, 0x00, 0x00, 0x10, 0x00, 0x00, 0x00, 0x00, 0x00, 0x00, 0x00, 0x00, 0x00, 0x00, 0x00, 0x00, 0x00])

  // flow_stmt: states_18, lines 395-408; dfas[18], lines 1823-1824
  const FlowStmt: TableDfa := Dfa(274, "flow_stmt", 0, 2,
    [State(5, [Arc(61, 1), Arc(62, 1), Arc(63, 1), Arc(64, 1), Arc(65, 1)]),
     State(1, [Arc(0, 1)])],
    [0x00, 0x00, 0x00, 0x00, 0x00, 0x00, 0x00, 0x00, 0x3c, 0x00, 0x00, 0x00, 0x00, 0x00, 0x00, 0x00, 0x00, 0x00, 0x00, 0x00, 0x40])

  // break_stmt: states_19, lines 409-418; dfas[19], lines 1825-1826
  const BreakStmt: TableDfa := Dfa(275, "break_stmt", 0, 2,
    [State(1, [Arc(66, 1)]),
     State(1, [Arc(0, 1)])],
    [0x00, 0x00, 0x00, 0x00, 0x00, 0x00, 0x00, 0x00, 0x04, 0x00, 0x00, 0x00, 0x00, 0x00, 0x00, 0x00, 0x00, 0x00, 0x00, 0x00, 0x00])

  // continue_stmt: states_20, lines 419-428; dfas[20], lines 1827-1828
  const ContinueStmt: TableDfa := Dfa(276, "continue_stmt", 0, 2,
    [State(1, [Arc(67, 1)]),
     State(1, [Arc(0, 1)])],
    [0x00, 0x00, 0x00, 0x00, 0x00, 0x00, 0x00, 0x00, 0x08, 0x00, 0x00, 0x00, 0x00, 0x00, 0x00, 0x00, 0x00, 0x00, 0x00, 0x00, 0x00])

  // return_stmt: states_21, lines 429-443; dfas[21], lines 1829-1830
  const ReturnStmt: TableDfa := Dfa(277, "return_stmt", 0, 3,
    [State(1, [Arc(68, 1)]),
     State(2, [Arc(9, 2), Arc(0, 1)]),
     State(1, [Arc(0, 2)])],
    [0x00, 0x00, 0x00, 0x00, 0x00, 0x00, 0x00, 0x00, 0x10, 0x00, 0x00, 0x00, 0x00, 0x00, 0x00, 0x00, 0x00, 0x00, 0x00, 0x00, 0x00])

  // yield_stmt: states_22, lines 444-453; dfas[22], lines 1831-1832
  const YieldStmt: TableDfa := Dfa(278, "yield_stmt", 0, 2,
    [State(1, [Arc(43, 1)]),
     State(1, [Arc(0, 1)])],
    [0x00, 0x00, 0x00, 0x00, 0x00, 0x00, 0x00, 0x00, 0x00, 0x00, 0x00, 0x00, 0x00, 0x00, 0x00, 0x00, 0x00, 0x00, 0x00, 0x00, 0x40])

  // raise_stmt: states_23, lines 454-486; dfas[23], lines 1833-1834
  const RaiseStmt: TableDfa := Dfa(279, "raise_stmt", 0, 7,
    [State(1, [Arc(69, 1)]),
     State(2, [Arc(26, 2), Arc(0, 1)]),
     State(2, [Arc(27, 3), Arc(0, 2)]),
     State(1, [Arc(26, 4)]),
     State(2, [Arc(27, 5), Arc(0, 4)]),
     State(1, [Arc(26, 6)]),
     State(1, [Arc(0, 6)])],
    [0x00, 0x00, 0x00, 0x00, 0x00, 0x00, 0x00, 0x00, 0x20, 0x00, 0x00, 0x00, 0x00, 0x00, 0x00, 0x00, 0x00, 0x00, 0x00, 0x00, 0x00])

  // import_stmt: states_24, lines 487-497; dfas[24], lines 1835-1836
  const ImportStmt: TableDfa := Dfa(280, "import_stmt", 0, 2,
    [State(2, [Arc(70, 1), Arc(71, 1)]),
     State(1, [Arc(0, 1)])],
    [0x00, 0x00, 0x00, 0x00, 0x00, 0x00, 0x00, 0x00, 0x00, 0x05, 0x00, 0x00, 0x00, 0x00, 0x00, 0x00, 0x00, 0x00, 0x00, 0x00, 0x00])

  // import_name: states_25, lines 498-511; dfas[25], lines 1837-1838
  const ImportName: TableDfa := Dfa(281, "import_name", 0, 3,
    [State(1, [Arc(72, 1)]),
     State(1, [Arc(73, 2)]),
     State(1, [Arc(0, 2)])],
    [0x00, 0x00, 0x00, 0x00, 0x00, 0x00, 0x00, 0x00, 0x00, 0x01, 0x00, 0x00, 0x00, 0x00, 0x00, 0x00, 0x00, 0x00, 0x00, 0x00, 0x00])

  // import_from: states_26, lines 512-555; dfas[26], lines 1839-1840
  const ImportFrom: TableDfa := Dfa(282, "import_from", 0, 9,
    [State(1, [Arc(74, 1)]),
     State(2, [Arc(75, 2), Arc(12, 3)]),
     State(3, [Arc(75, 4), Arc(12, 3), Arc(72, 5)]),
     State(1, [Arc(72, 5)]),
     State(2, [Arc(75, 4), Arc(12, 3)]),
     State(3, [Arc(28, 6), Arc(13, 7), Arc(76, 6)]),
     State(1, [Arc(0, 6)]),
     State(1, [Arc(76, 8)]),
     State(1, [Arc(15, 6)])],
    [0x00, 0x00, 0x00, 0x00, 0x00, 0x00, 0x00, 0x00, 0x00, 0x04, 0x00, 0x00, 0x00, 0x00, 0x00, 0x00, 0x00, 0x00, 0x00, 0x00, 0x00])

  // import_as_name: states_27, lines 556-574; dfas[27], lines 1841-1842
  const ImportAsName: TableDfa := Dfa(283, "import_as_name", 0, 4,
    [State(1, [Arc(19, 1)]),
     State(2, [Arc(19, 2), Arc(0, 1)]),
     State(1, [Arc(19, 3)]),
     State(1, [Arc(0, 3)])],
    [0x00, 0x00, 0x08, 0x00, 0x00, 0x00, 0x00, 0x00, 0x00, 0x00, 0x00, 0x00, 0x00, 0x00, 0x00, 0x00, 0x00, 0x00, 0x00, 0x00, 0x00])

  // dotted_as_name: states_28, lines 575-593; dfas[28], lines 1843-1844
  const DottedAsName: TableDfa := Dfa(284, "dotted_as_name", 0, 4,
    [State(1, [Arc(12, 1)]),
     State(2, [Arc(19, 2), Arc(0, 1)]),
     State(1, [Arc(19, 3)]),
     State(1, [Arc(0, 3)])],
    [0x00, 0x00, 0x08, 0x00, 0x00, 0x00, 0x00, 0x00, 0x00, 0x00, 0x00, 0x00, 0x00, 0x00, 0x00, 0x00, 0x00, 0x00, 0x00, 0x00, 0x00])

  // import_as_names: states_29, lines 594-609; dfas[29], lines 1845-1846
  const ImportAsNames: TableDfa := Dfa(285, "import_as_names", 0, 3,
    [State(1, [Arc(77, 1)]),
     State(2, [Arc(27, 2), Arc(0, 1)]),
     State(2, [Arc(77, 1), Arc(0, 2)])],
    [0x00, 0x00, 0x08, 0x00, 0x00, 0x00, 0x00, 0x00, 0x00, 0x00, 0x00, 0x00, 0x00, 0x00, 0x00, 0x00, 0x00, 0x00, 0x00, 0x00, 0x00])

  // dotted_as_names: states_30, lines 610-620; dfas[30], lines 1847-1848
  const DottedAsNames: TableDfa := Dfa(286, "dotted_as_names", 0, 2,
    [State(1, [Arc(78, 1)]),
     State(2, [Arc(27, 0), Arc(0, 1)])],
    [0x00, 0x00, 0x08, 0x00, 0x00, 0x00, 0x00, 0x00, 0x00, 0x00, 0x00, 0x00, 0x00, 0x00, 0x00, 0x00, 0x00, 0x00, 0x00, 0x00, 0x00])

  // dotted_name: states_31, lines 621-631; dfas[31], lines 1849-1850
  const DottedName: TableDfa := Dfa(287, "dotted_name", 0, 2,
    [State(1, [Arc(19, 1)]),
     State(2, [Arc(75, 0), Arc(0, 1)])],
    [0x00, 0x00, 0x08, 0x00, 0x00, 0x00, 0x00, 0x00, 0x00, 0x00, 0x00, 0x00, 0x00, 0x00, 0x00, 0x00, 0x00, 0x00, 0x00, 0x00, 0x00])

  // global_stmt: states_32, lines 632-646; dfas[32], lines 1851-1852
  const GlobalStmt: TableDfa := Dfa(288, "global_stmt", 0, 3,
    [State(1, [Arc(79, 1)]),
     State(1, [Arc(19, 2)]),
     State(2, [Arc(27, 1), Arc(0, 2)])],
    [0x00, 0x00, 0x00, 0x00, 0x00, 0x00, 0x00, 0x00, 0x00, 0x80, 0x00, 0x00, 0x00, 0x00, 0x00, 0x00, 0x00, 0x00, 0x00, 0x00, 0x00])

  // exec_stmt: states_33, lines 647-678; dfas[33], lines 1853-1854
  const ExecStmt: TableDfa := Dfa(289, "exec_stmt", 0, 7,
    [State(1, [Arc(80, 1)]),
     State(1, [Arc(81, 2)]),
     State(2, [Arc(82, 3), Arc(0, 2)]),
     State(1, [Arc(26, 4)]),
     State(2, [Arc(27, 5), Arc(0, 4)]),
     State(1, [Arc(26, 6)]),
     State(1, [Arc(0, 6)])],
    [0x00, 0x00, 0x00, 0x00, 0x00, 0x00, 0x00, 0x00, 0x00, 0x00, 0x01, 0x00, 0x00, 0x00, 0x00, 0x00, 0x00, 0x00, 0x00, 0x00, 0x00])

  // assert_stmt: states_34, lines 679-701; dfas[34], lines 1855-1856
  const AssertStmt: TableDfa := Dfa(290, "assert_stmt", 0, 5,
    [State(1, [Arc(83, 1)]),
     State(1, [Arc(26, 2)]),
     State(2, [Arc(27, 3), Arc(0, 2)]),
     State(1, [Arc(26, 4)]),
     State(1, [Arc(0, 4)])],
    [0x00, 0x00, 0x00, 0x00, 0x00, 0x00, 0x00, 0x00, 0x00, 0x00, 0x08, 0x00, 0x00, 0x00, 0x00, 0x00, 0x00, 0x00, 0x00, 0x00, 0x00])

  // compound_stmt: states_35, lines 702-717; dfas[35], lines 1857-1858
  const CompoundStmt: TableDfa := Dfa(291, "compound_stmt", 0, 2,
    [State(7, [Arc(84, 1), Arc(85, 1), Arc(86, 1), Arc(87, 1), Arc(88, 1), Arc(17, 1), Arc(89, 1)]),
     State(1, [Arc(0, 1)])],
    [0x00, 0x08, 0x04, 0x00, 0x00, 0x00, 0x00, 0x00, 0x00, 0x00, 0x00, 0xe4, 0x04, 0x00, 0x00, 0x00, 0x00, 0x00, 0x00, 0x80, 0x00])

  // if_stmt: states_36, lines 718-753; dfas[36], lines 1859-1860
  const IfStmt: TableDfa := Dfa(292, "if_stmt", 0, 8,
    [State(1, [Arc(90, 1)]),
     State(1, [Arc(26, 2)]),
     State(1, [Arc(21, 3)]),
     State(1, [Arc(22, 4)]),
     State(3, [Arc(91, 1), Arc(92, 5), Arc(0, 4)]),
     State(1, [Arc(21, 6)]),
     State(1, [Arc(22, 7)]),
     State(1, [Arc(0, 7)])],
    [0x00, 0x00, 0x00, 0x00, 0x00, 0x00, 0x00, 0x00, 0x00, 0x00, 0x00, 0x04, 0x00, 0x00, 0x00, 0x00, 0x00, 0x00, 0x00, 0x00, 0x00])

  // while_stmt: states_37, lines 754-788; dfas[37], lines 1861-1862
  const WhileStmt: TableDfa := Dfa(293, "while_stmt", 0, 8,
    [State(1, [Arc(93, 1)]),
     State(1, [Arc(26, 2)]),
     State(1, [Arc(21, 3)]),
     State(1, [Arc(22, 4)]),
     State(2, [Arc(92, 5), Arc(0, 4)]),
     State(1, [Arc(21, 6)]),
     State(1, [Arc(22, 7)]),
     State(1, [Arc(0, 7)])],
    [0x00, 0x00, 0x00, 0x00, 0x00, 0x00, 0x00, 0x00, 0x00, 0x00, 0x00, 0x20, 0x00, 0x00, 0x00, 0x00, 0x00, 0x00, 0x00, 0x00, 0x00])

  // for_stmt: states_38, lines 789-831; dfas[38], lines 1863-1864
  const ForStmt: TableDfa := Dfa(294, "for_stmt", 0, 10,
    [State(1, [Arc(94, 1)]),
     State(1, [Arc(59, 2)]),
     State(1, [Arc(82, 3)]),
     State(1, [Arc(9, 4)]),
     State(1, [Arc(21, 5)]),
     State(1, [Arc(22, 6)]),
     State(2, [Arc(92, 7), Arc(0, 6)]),
     State(1, [Arc(21, 8)]),
     State(1, [Arc(22, 9)]),
     State(1, [Arc(0, 9)])],
    [0x00, 0x00, 0x00, 0x00, 0x00, 0x00, 0x00, 0x00, 0x00, 0x00, 0x00, 0x40, 0x00, 0x00, 0x00, 0x00, 0x00, 0x00, 0x00, 0x00, 0x00])

  // try_stmt: states_39, lines 832-890; dfas[39], lines 1865-1866
  const TryStmt: TableDfa := Dfa(295, "try_stmt", 0, 13,
    [State(1, [Arc(95, 1)]),
     State(1, [Arc(21, 2)]),
     State(1, [Arc(22, 3)]),
     State(2, [Arc(96, 4), Arc(97, 5)]),
     State(1, [Arc(21, 6)]),
     State(1, [Arc(21, 7)]),
     State(1, [Arc(22, 8)]),
     State(1, [Arc(22, 9)]),
     State(4, [Arc(96, 4), Arc(92, 10), Arc(97, 5), Arc(0, 8)]),
     State(1, [Arc(0, 9)]),
     State(1, [Arc(21, 11)]),
     State(1, [Arc(22, 12)]),
     State(2, [Arc(97, 5), Arc(0, 12)])],
    [0x00, 0x00, 0x00, 0x00, 0x00, 0x00, 0x00, 0x00, 0x00, 0x00, 0x00, 0x80, 0x00, 0x00, 0x00, 0x00, 0x00, 0x00, 0x00, 0x00, 0x00])

  // with_stmt: states_40, lines 891-917; dfas[40], lines 1867-1868
  const WithStmt: TableDfa := Dfa(296, "with_stmt", 0, 6,
    [State(1, [Arc(98, 1)]),
     State(1, [Arc(26, 2)]),
     State(2, [Arc(99, 3), Arc(21, 4)]),
     State(1, [Arc(21, 4)]),
     State(1, [Arc(22, 5)]),
     State(1, [Arc(0, 5)])],
    [0x00, 0x00, 0x00, 0x00, 0x00, 0x00, 0x00, 0x00, 0x00, 0x00, 0x00, 0x00, 0x04, 0x00, 0x00, 0x00, 0x00, 0x00, 0x00, 0x00, 0x00])

  // with_var: states_41, lines 918-931; dfas[41], lines 1869-1870
  const WithVar: TableDfa := Dfa(297, "with_var", 0, 3,
    [State(1, [Arc(19, 1)]),
     State(1, [Arc(81, 2)]),
     State(1, [Arc(0, 2)])],
    [0x00, 0x00, 0x08, 0x00, 0x00, 0x00, 0x00, 0x00, 0x00, 0x00, 0x00, 0x00, 0x00, 0x00, 0x00, 0x00, 0x00, 0x00, 0x00, 0x00, 0x00])

  // except_clause: states_42, lines 932-955; dfas[42], lines 1871-1872
  const ExceptClause: TableDfa := Dfa(298, "except_clause", 0, 5,
    [State(1, [Arc(100, 1)]),
     State(2, [Arc(26, 2), Arc(0, 1)]),
     State(2, [Arc(27, 3), Arc(0, 2)]),
     State(1, [Arc(26, 4)]),
     State(1, [Arc(0, 4)])],
    [0x00, 0x00, 0x00, 0x00, 0x00, 0x00, 0x00, 0x00, 0x00, 0x00, 0x00, 0x00, 0x10, 0x00, 0x00, 0x00, 0x00, 0x00, 0x00, 0x00, 0x00])

  // suite: states_43, lines 956-979; dfas[43], lines 1873-1874
  const Suite: TableDfa := Dfa(299, "suite", 0, 5,
    [State(2, [Arc(3, 1), Arc(2, 2)]),
     State(1, [Arc(0, 1)]),
     State(1, [Arc(101, 3)]),
     State(1, [Arc(6, 4)]),
     State(2, [Arc(6, 4), Arc(102, 1)])],
    [0x04, 0x20, 0x08, 0x00, 0x00, 0x00, 0x00, 0x15, 0x3c, 0x85, 0x09, 0x00, 0x00, 0x08, 0x02, 0x00, 0x60, 0x08, 0x49, 0x03, 0x40])

  // testlist_safe: states_44, lines 980-1004; dfas[44], lines 1875-1876
  const TestlistSafe: TableDfa := Dfa(300, "testlist_safe", 0, 5,
    [State(1, [Arc(104, 1)]),
     State(2, [Arc(27, 2), Arc(0, 1)]),
     State(1, [Arc(104, 3)]),
     State(2, [Arc(27, 4), Arc(0, 3)]),
     State(2, [Arc(104, 3), Arc(0, 4)])],
    [0x00, 0x20, 0x08, 0x00, 0x00, 0x00, 0x00, 0x00, 0x00, 0x00, 0x00, 0x00, 0x00, 0x08, 0x02, 0x00, 0x60, 0x08, 0x49, 0x03, 0x00])

  // old_test: states_45, lines 1005-1015; dfas[45], lines 1877-1878
  const OldTest: TableDfa := Dfa(301, "old_test", 0, 2,
    [State(2, [Arc(105, 1), Arc(106, 1)]),
     State(1, [Arc(0, 1)])],
    [0x00, 0x20, 0x08, 0x00, 0x00, 0x00, 0x00, 0x00, 0x00, 0x00, 0x00, 0x00, 0x00, 0x08, 0x02, 0x00, 0x60, 0x08, 0x49, 0x03, 0x00])

  // old_lambdef: states_46, lines 1016-1038; dfas[46], lines 1879-1880
  const OldLambdef: TableDfa := Dfa(302, "old_lambdef", 0, 5,
    [State(1, [Arc(107, 1)]),
     State(2, [Arc(23, 2), Arc(21, 3)]),
     State(1, [Arc(21, 3)]),
     State(1, [Arc(104, 4)]),
     State(1, [Arc(0, 4)])],
    [0x00, 0x00, 0x00, 0x00, 0x00, 0x00, 0x00, 0x00, 0x00, 0x00, 0x00, 0x00, 0x00, 0x08, 0x00, 0x00, 0x00, 0x00, 0x00, 0x00, 0x00])

  // test: states_47, lines 1039-1066; dfas[47], lines 1881-1882
  const Test: TableDfa := Dfa(303, "test", 0, 6,
    [State(2, [Arc(105, 1), Arc(108, 2)]),
     State(2, [Arc(90, 3), Arc(0, 1)]),
     State(1, [Arc(0, 2)]),
     State(1, [Arc(105, 4)]),
     State(1, [Arc(92, 5)]),
     State(1, [Arc(26, 2)])],
    [0x00, 0x20, 0x08, 0x00, 0x00, 0x00, 0x00, 0x00, 0x00, 0x00, 0x00, 0x00, 0x00, 0x08, 0x02, 0x00, 0x60, 0x08, 0x49, 0x03, 0x00])

  // or_test: states_48, lines 1067-1077; dfas[48], lines 1883-1884
  const OrTest: TableDfa := Dfa(304, "or_test", 0, 2,
    [State(1, [Arc(109, 1)]),
     State(2, [Arc(110, 0), Arc(0, 1)])],
    [0x00, 0x20, 0x08, 0x00, 0x00, 0x00, 0x00, 0x00, 0x00, 0x00, 0x00, 0x00, 0x00, 0x00, 0x02, 0x00, 0x60, 0x08, 0x49, 0x03, 0x00])

  // and_test: states_49, lines 1078-1088; dfas[49], lines 1885-1886
  const AndTest: TableDfa := Dfa(305, "and_test", 0, 2,
    [State(1, [Arc(111, 1)]),
     State(2, [Arc(112, 0), Arc(0, 1)])],
    [0x00, 0x20, 0x08, 0x00, 0x00, 0x00, 0x00, 0x00, 0x00, 0x00, 0x00, 0x00, 0x00, 0x00, 0x02, 0x00, 0x60, 0x08, 0x49, 0x03, 0x00])

  // not_test: states_50, lines 1089-1103; dfas[50], lines 1887-1888
  const NotTest: TableDfa := Dfa(306, "not_test", 0, 3,
    [State(2, [Arc(113, 1), Arc(114, 2)]),
     State(1, [Arc(111, 2)]),
     State(1, [Arc(0, 2)])],
    [0x00, 0x20, 0x08, 0x00, 0x00, 0x00, 0x00, 0x00, 0x00, 0x00, 0x00, 0x00, 0x00, 0x00, 0x02, 0x00, 0x60, 0x08, 0x49, 0x03, 0x00])

  // comparison: states_51, lines 1104-1114; dfas[51], lines 1889-1890
  const Comparison: TableDfa := Dfa(307, "comparison", 0, 2,
    [State(1, [Arc(81, 1)]),
     State(2, [Arc(115, 0), Arc(0, 1)])],
    [0x00, 0x20, 0x08, 0x00, 0x00, 0x00, 0x00, 0x00, 0x00, 0x00, 0x00, 0x00, 0x00, 0x00, 0x00, 0x00, 0x60, 0x08, 0x49, 0x03, 0x00])

  // comp_op: states_52, lines 1115-1142; dfas[52], lines 1891-1892
  const CompOp: TableDfa := Dfa(308, "comp_op", 0, 4,
    [State(10, [Arc(116, 1), Arc(117, 1), Arc(118, 1), Arc(119, 1), Arc(120, 1), Arc(121, 1), Arc(122, 1), Arc(82, 1), Arc(113, 2), Arc(123, 3)]),
     State(1, [Arc(0, 1)]),
     State(1, [Arc(82, 1)]),
     State(2, [Arc(113, 1), Arc(0, 3)])],
    [0x00, 0x00, 0x00, 0x00, 0x00, 0x00, 0x00, 0x00, 0x00, 0x00, 0x04, 0x00, 0x00, 0x00, 0xf2, 0x0f, 0x00, 0x00, 0x00, 0x00, 0x00])

  // expr: states_53, lines 1143-1153; dfas[53], lines 1893-1894
  const Expr: TableDfa := Dfa(309, "expr", 0, 2,
    [State(1, [Arc(124, 1)]),
     State(2, [Arc(125, 0), Arc(0, 1)])],
    [0x00, 0x20, 0x08, 0x00, 0x00, 0x00, 0x00, 0x00, 0x00, 0x00, 0x00, 0x00, 0x00, 0x00, 0x00, 0x00, 0x60, 0x08, 0x49, 0x03, 0x00])

  // xor_expr: states_54, lines 1154-1164; dfas[54], lines 1895-1896
  const XorExpr: TableDfa := Dfa(310, "xor_expr", 0, 2,
    [State(1, [Arc(126, 1)]),
     State(2, [Arc(127, 0), Arc(0, 1)])],
    [0x00, 0x20, 0x08, 0x00, 0x00, 0x00, 0x00, 0x00, 0x00, 0x00, 0x00, 0x00, 0x00, 0x00, 0x00, 0x00, 0x60, 0x08, 0x49, 0x03, 0x00])

  // and_expr: states_55, lines 1165-1175; dfas[55], lines 1897-1898
  const AndExpr: TableDfa := Dfa(311, "and_expr", 0, 2,
    [State(1, [Arc(128, 1)]),
     State(2, [Arc(129, 0), Arc(0, 1)])],
    [0x00, 0x20, 0x08, 0x00, 0x00, 0x00, 0x00, 0x00, 0x00, 0x00, 0x00, 0x00, 0x00, 0x00, 0x00, 0x00, 0x60, 0x08, 0x49, 0x03, 0x00])

  // shift_expr: states_56, lines 1176-1187; dfas[56], lines 1899-1900
  const ShiftExpr: TableDfa := Dfa(312, "shift_expr", 0, 2,
    [State(1, [Arc(130, 1)]),
     State(3, [Arc(131, 0), Arc(57, 0), Arc(0, 1)])],
    [0x00, 0x20, 0x08, 0x00, 0x00, 0x00, 0x00, 0x00, 0x00, 0x00, 0x00, 0x00, 0x00, 0x00, 0x00, 0x00, 0x60, 0x08, 0x49, 0x03, 0x00])

  // arith_expr: states_57, lines 1188-1199; dfas[57], lines 1901-1902
  const ArithExpr: TableDfa := Dfa(313, "arith_expr", 0, 2,
    [State(1, [Arc(132, 1)]),
     State(3, [Arc(133, 0), Arc(134, 0), Arc(0, 1)])],
    [0x00, 0x20, 0x08, 0x00, 0x00, 0x00, 0x00, 0x00, 0x00, 0x00, 0x00, 0x00, 0x00, 0x00, 0x00, 0x00, 0x60, 0x08, 0x49, 0x03, 0x00])

  // term: states_58, lines 1200-1213; dfas[58], lines 1903-1904
  const Term: TableDfa := Dfa(314, "term", 0, 2,
    [State(1, [Arc(135, 1)]),
     State(5, [Arc(28, 0), Arc(136, 0), Arc(137, 0), Arc(138, 0), Arc(0, 1)])],
    [0x00, 0x20, 0x08, 0x00, 0x00, 0x00, 0x00, 0x00, 0x00, 0x00, 0x00, 0x00, 0x00, 0x00, 0x00, 0x00, 0x60, 0x08, 0x49, 0x03, 0x00])

  // factor: states_59, lines 1214-1230; dfas[59], lines 1905-1906
  const Factor: TableDfa := Dfa(315, "factor", 0, 3,
    [State(4, [Arc(133, 1), Arc(134, 1), Arc(139, 1), Arc(140, 2)]),
     State(1, [Arc(135, 2)]),
     State(1, [Arc(0, 2)])],
    [0x00, 0x20, 0x08, 0x00, 0x00, 0x00, 0x00, 0x00, 0x00, 0x00, 0x00, 0x00, 0x00, 0x00, 0x00, 0x00, 0x60, 0x08, 0x49, 0x03, 0x00])

  // power: states_60, lines 1231-1250; dfas[60], lines 1907-1908
  const Power: TableDfa := Dfa(316, "power", 0, 4,
    [State(1, [Arc(141, 1)]),
     State(3, [Arc(142, 1), Arc(29, 2), Arc(0, 1)]),
     State(1, [Arc(135, 3)]),
     State(1, [Arc(0, 3)])],
    [0x00, 0x20, 0x08, 0x00, 0x00, 0x00, 0x00, 0x00, 0x00, 0x00, 0x00, 0x00, 0x00, 0x00, 0x00, 0x00, 0x00, 0x00, 0x49, 0x03, 0x00])

  // atom: states_61, lines 1251-1307; dfas[61], lines 1909-1910
  const Atom: TableDfa := Dfa(317, "atom", 0, 11,
    [State(7, [Arc(13, 1), Arc(144, 2), Arc(147, 3), Arc(150, 4), Arc(19, 5), Arc(152, 5), Arc(153, 6)]),
     State(3, [Arc(43, 7), Arc(143, 7), Arc(15, 5)]),
     State(2, [Arc(145, 8), Arc(146, 5)]),
     State(2, [Arc(148, 9), Arc(149, 5)]),
     State(1, [Arc(151, 10)]),
     State(1, [Arc(0, 5)]),
     State(2, [Arc(153, 6), Arc(0, 6)]),
     State(1, [Arc(15, 5)]),
     State(1, [Arc(146, 5)]),
     State(1, [Arc(149, 5)]),
     State(1, [Arc(150, 5)])],
    [0x00, 0x20, 0x08, 0x00, 0x00, 0x00, 0x00, 0x00, 0x00, 0x00, 0x00, 0x00, 0x00, 0x00, 0x00, 0x00, 0x00, 0x00, 0x49, 0x03, 0x00])

  // listmaker: states_62, lines 1308-1333; dfas[62], lines 1911-1912
  const Listmaker: TableDfa := Dfa(318, "listmaker", 0, 5,
    [State(1, [Arc(26, 1)]),
     State(3, [Arc(154, 2), Arc(27, 3), Arc(0, 1)]),
     State(1, [Arc(0, 2)]),
     State(2, [Arc(26, 4), Arc(0, 3)]),
     State(2, [Arc(27, 3), Arc(0, 4)])],
    [0x00, 0x20, 0x08, 0x00, 0x00, 0x00, 0x00, 0x00, 0x00, 0x00, 0x00, 0x00, 0x00, 0x08, 0x02, 0x00, 0x60, 0x08, 0x49, 0x03, 0x00])

  // testlist_gexp: states_63, lines 1334-1359; dfas[63], lines 1913-1914
  const TestlistGexp: TableDfa := Dfa(319, "testlist_gexp", 0, 5,
    [State(1, [Arc(26, 1)]),
     State(3, [Arc(155, 2), Arc(27, 3), Arc(0, 1)]),
     State(1, [Arc(0, 2)]),
     State(2, [Arc(26, 4), Arc(0, 3)]),
     State(2, [Arc(27, 3), Arc(0, 4)])],
    [0x00, 0x20, 0x08, 0x00, 0x00, 0x00, 0x00, 0x00, 0x00, 0x00, 0x00, 0x00, 0x00, 0x08, 0x02, 0x00, 0x60, 0x08, 0x49, 0x03, 0x00])

  // lambdef: states_64, lines 1360-1382; dfas[64], lines 1915-1916
  const Lambdef: TableDfa := Dfa(320, "lambdef", 0, 5,
    [State(1, [Arc(107, 1)]),
     State(2, [Arc(23, 2), Arc(21, 3)]),
     State(1, [Arc(21, 3)]),
     State(1, [Arc(26, 4)]),
     State(1, [Arc(0, 4)])],
    [0x00, 0x00, 0x00, 0x00, 0x00, 0x00, 0x00, 0x00, 0x00, 0x00, 0x00, 0x00, 0x00, 0x08, 0x00, 0x00, 0x00, 0x00, 0x00, 0x00, 0x00])

  // trailer: states_65, lines 1383-1415; dfas[65], lines 1917-1918
  const Trailer: TableDfa := Dfa(321, "trailer", 0, 7,
    [State(3, [Arc(13, 1), Arc(144, 2), Arc(75, 3)]),
     State(2, [Arc(14, 4), Arc(15, 5)]),
     State(1, [Arc(156, 6)]),
     State(1, [Arc(19, 5)]),
     State(1, [Arc(15, 5)]),
     State(1, [Arc(0, 5)]),
     State(1, [Arc(146, 5)])],
    [0x00, 0x20, 0x00, 0x00, 0x00, 0x00, 0x00, 0x00, 0x00, 0x08, 0x00, 0x00, 0x00, 0x00, 0x00, 0x00, 0x00, 0x00, 0x01, 0x00, 0x00])

  // subscriptlist: states_66, lines 1416-1431; dfas[66], lines 1919-1920
  const Subscriptlist: TableDfa := Dfa(322, "subscriptlist", 0, 3,
    [State(1, [Arc(157, 1)]),
     State(2, [Arc(27, 2), Arc(0, 1)]),
     State(2, [Arc(157, 1), Arc(0, 2)])],
    [0x00, 0x20, 0x28, 0x00, 0x00, 0x00, 0x00, 0x00, 0x00, 0x08, 0x00, 0x00, 0x00, 0x08, 0x02, 0x00, 0x60, 0x08, 0x49, 0x03, 0x00])

  // subscript: states_67, lines 1432-1467; dfas[67], lines 1921-1922
  const Subscript: TableDfa := Dfa(323, "subscript", 0, 7,
    [State(3, [Arc(75, 1), Arc(26, 2), Arc(21, 3)]),
     State(1, [Arc(75, 4)]),
     State(2, [Arc(21, 3), Arc(0, 2)]),
     State(3, [Arc(26, 5), Arc(158, 6), Arc(0, 3)]),
     State(1, [Arc(75, 6)]),
     State(2, [Arc(158, 6), Arc(0, 5)]),
     State(1, [Arc(0, 6)])],
    [0x00, 0x20, 0x28, 0x00, 0x00, 0x00, 0x00, 0x00, 0x00, 0x08, 0x00, 0x00, 0x00, 0x08, 0x02, 0x00, 0x60, 0x08, 0x49, 0x03, 0x00])

  // sliceop: states_68, lines 1468-1482; dfas[68], lines 1923-1924
  const Sliceop: TableDfa := Dfa(324, "sliceop", 0, 3,
    [State(1, [Arc(21, 1)]),
     State(2, [Arc(26, 2), Arc(0, 1)]),
     State(1, [Arc(0, 2)])],
    [0x00, 0x00, 0x20, 0x00, 0x00, 0x00, 0x00, 0x00, 0x00, 0x00, 0x00, 0x00, 0x00, 0x00, 0x00, 0x00, 0x00, 0x00, 0x00, 0x00, 0x00])

  // exprlist: states_69, lines 1483-1498; dfas[69], lines 1925-1926
  const Exprlist: TableDfa := Dfa(325, "exprlist", 0, 3,
    [State(1, [Arc(81, 1)]),
     State(2, [Arc(27, 2), Arc(0, 1)]),
     State(2, [Arc(81, 1), Arc(0, 2)])],
    [0x00, 0x20, 0x08, 0x00, 0x00, 0x00, 0x00, 0x00, 0x00, 0x00, 0x00, 0x00, 0x00, 0x00, 0x00, 0x00, 0x60, 0x08, 0x49, 0x03, 0x00])

  // testlist: states_70, lines 1499-1514; dfas[70], lines 1927-1928
  const Testlist: TableDfa := Dfa(326, "testlist", 0, 3,
    [State(1, [Arc(26, 1)]),
     State(2, [Arc(27, 2), Arc(0, 1)]),
     State(2, [Arc(26, 1), Arc(0, 2)])],
    [0x00, 0x20, 0x08, 0x00, 0x00, 0x00, 0x00, 0x00, 0x00, 0x00, 0x00, 0x00, 0x00, 0x08, 0x02, 0x00, 0x60, 0x08, 0x49, 0x03, 0x00])

  // dictmaker: states_71, lines 1515-1538; dfas[71], lines 1929-1930
  const Dictmaker: TableDfa := Dfa(327, "dictmaker", 0, 5,
    [State(1, [Arc(26, 1)]),
     State(1, [Arc(21, 2)]),
     State(1, [Arc(26, 3)]),
     State(2, [Arc(27, 4), Arc(0, 3)]),
     State(2, [Arc(26, 1), Arc(0, 4)])],
    [0x00, 0x20, 0x08, 0x00, 0x00, 0x00, 0x00, 0x00, 0x00, 0x00, 0x00, 0x00, 0x00, 0x08, 0x02, 0x00, 0x60, 0x08, 0x49, 0x03, 0x00])

  // classdef: states_72, lines 1539-1574; dfas[72], lines 1931-1932
  const Classdef: TableDfa := Dfa(328, "classdef", 0, 8,
    [State(1, [Arc(159, 1)]),
     State(1, [Arc(19, 2)]),
     State(2, [Arc(13, 3), Arc(21, 4)]),
     State(2, [Arc(9, 5), Arc(15, 6)]),
     State(1, [Arc(22, 7)]),
     State(1, [Arc(15, 6)]),
     State(1, [Arc(21, 4)]),
     State(1, [Arc(0, 7)])],
    [0x00, 0x00, 0x00, 0x00, 0x00, 0x00, 0x00, 0x00, 0x00, 0x00, 0x00, 0x00, 0x00, 0x00, 0x00, 0x00, 0x00, 0x00, 0x00, 0x80, 0x00])

  // arglist: states_73, lines 1575-1615; dfas[73], lines 1933-1934
  const Arglist: TableDfa := Dfa(329, "arglist", 0, 8,
    [State(3, [Arc(160, 1), Arc(28, 2), Arc(29, 3)]),
     State(2, [Arc(27, 4), Arc(0, 1)]),
     State(1, [Arc(26, 5)]),
     State(1, [Arc(26, 6)]),
     State(4, [Arc(160, 1), Arc(28, 2), Arc(29, 3), Arc(0, 4)]),
     State(2, [Arc(27, 7), Arc(0, 5)]),
     State(1, [Arc(0, 6)]),
     State(1, [Arc(29, 3)])],
    [0x00, 0x20, 0x08, 0x30, 0x00, 0x00, 0x00, 0x00, 0x00, 0x00, 0x00, 0x00, 0x00, 0x08, 0x02, 0x00, 0x60, 0x08, 0x49, 0x03, 0x00])

  // argument: states_74, lines 1616-1635; dfas[74], lines 1935-1936
  const Argument: TableDfa := Dfa(330, "argument", 0, 4,
    [State(1, [Arc(26, 1)]),
     State(3, [Arc(155, 2), Arc(25, 3), Arc(0, 1)]),
     State(1, [Arc(0, 2)]),
     State(1, [Arc(26, 2)])],
    [0x00, 0x20, 0x08, 0x00, 0x00, 0x00, 0x00, 0x00, 0x00, 0x00, 0x00, 0x00, 0x00, 0x08, 0x02, 0x00, 0x60, 0x08, 0x49, 0x03, 0x00])

  // list_iter: states_75, lines 1636-1646; dfas[75], lines 1937-1938
  const ListIter: TableDfa := Dfa(331, "list_iter", 0, 2,
    [State(2, [Arc(154, 1), Arc(162, 1)]),
     State(1, [Arc(0, 1)])],
    [0x00, 0x00, 0x00, 0x00, 0x00, 0x00, 0x00, 0x00, 0x00, 0x00, 0x00, 0x44, 0x00, 0x00, 0x00, 0x00, 0x00, 0x00, 0x00, 0x00, 0x00])

  // list_for: states_76, lines 1647-1673; dfas[76], lines 1939-1940
  const ListFor: TableDfa := Dfa(332, "list_for", 0, 6,
    [State(1, [Arc(94, 1)]),
     State(1, [Arc(59, 2)]),
     State(1, [Arc(82, 3)]),
     State(1, [Arc(103, 4)]),
     State(2, [Arc(161, 5), Arc(0, 4)]),
     State(1, [Arc(0, 5)])],
    [0x00, 0x00, 0x00, 0x00, 0x00, 0x00, 0x00, 0x00, 0x00, 0x00, 0x00, 0x40, 0x00, 0x00, 0x00, 0x00, 0x00, 0x00, 0x00, 0x00, 0x00])

  // list_if: states_77, lines 1674-1692; dfas[77], lines 1941-1942
  const ListIf: TableDfa := Dfa(333, "list_if", 0, 4,
    [State(1, [Arc(90, 1)]),
     State(1, [Arc(26, 2)]),
     State(2, [Arc(161, 3), Arc(0, 2)]),
     State(1, [Arc(0, 3)])],
    [0x00, 0x00, 0x00, 0x00, 0x00, 0x00, 0x00, 0x00, 0x00, 0x00, 0x00, 0x04, 0x00, 0x00, 0x00, 0x00, 0x00, 0x00, 0x00, 0x00, 0x00])

  // gen_iter: states_78, lines 1693-1703; dfas[78], lines 1943-1944
  const GenIter: TableDfa := Dfa(334, "gen_iter", 0, 2,
    [State(2, [Arc(155, 1), Arc(164, 1)]),
     State(1, [Arc(0, 1)])],
    [0x00, 0x00, 0x00, 0x00, 0x00, 0x00, 0x00, 0x00, 0x00, 0x00, 0x00, 0x44, 0x00, 0x00, 0x00, 0x00, 0x00, 0x00, 0x00, 0x00, 0x00])

  // gen_for: states_79, lines 1704-1730; dfas[79], lines 1945-1946
  const GenFor: TableDfa := Dfa(335, "gen_for", 0, 6,
    [State(1, [Arc(94, 1)]),
     State(1, [Arc(59, 2)]),
     State(1, [Arc(82, 3)]),
     State(1, [Arc(105, 4)]),
     State(2, [Arc(163, 5), Arc(0, 4)]),
     State(1, [Arc(0, 5)])],
    [0x00, 0x00, 0x00, 0x00, 0x00, 0x00, 0x00, 0x00, 0x00, 0x00, 0x00, 0x40, 0x00, 0x00, 0x00, 0x00, 0x00, 0x00, 0x00, 0x00, 0x00])

  // gen_if: states_80, lines 1731-1749; dfas[80], lines 1947-1948
  const GenIf: TableDfa := Dfa(336, "gen_if", 0, 4,
    [State(1, [Arc(90, 1)]),
     State(1, [Arc(26, 2)]),
     State(2, [Arc(163, 3), Arc(0, 2)]),
     State(1, [Arc(0, 3)])],
    [0x00, 0x00, 0x00, 0x00, 0x00, 0x00, 0x00, 0x00, 0x00, 0x00, 0x00, 0x04, 0x00, 0x00, 0x00, 0x00, 0x00, 0x00, 0x00, 0x00, 0x00])

  // testlist1: states_81, lines 1750-1760; dfas[81], lines 1949-1950
  const Testlist1: TableDfa := Dfa(337, "testlist1", 0, 2,
    [State(1, [Arc(26, 1)]),
     State(2, [Arc(27, 0), Arc(0, 1)])],
    [0x00, 0x20, 0x08, 0x00, 0x00, 0x00, 0x00, 0x00, 0x00, 0x00, 0x00, 0x00, 0x00, 0x08, 0x02, 0x00, 0x60, 0x08, 0x49, 0x03, 0x00])

  // encoding_decl: states_82, lines 1761-1770; dfas[82], lines 1951-1952
  const EncodingDecl: TableDfa := Dfa(338, "encoding_decl", 0, 2,
    [State(1, [Arc(19, 1)]),
     State(1, [Arc(0, 1)])],
    [0x00, 0x00, 0x08, 0x00, 0x00, 0x00, 0x00, 0x00, 0x00, 0x00, 0x00, 0x00, 0x00, 0x00, 0x00, 0x00, 0x00, 0x00, 0x00, 0x00, 0x00])

  // yield_expr: states_83, lines 1771-1785; dfas[83], lines 1953-1954
  const YieldExpr: TableDfa := Dfa(339, "yield_expr", 0, 3,
    [State(1, [Arc(166, 1)]),
     State(2, [Arc(9, 2), Arc(0, 1)]),
     State(1, [Arc(0, 2)])],
    [0x00, 0x00, 0x00, 0x00, 0x00, 0x00, 0x00, 0x00, 0x00, 0x00, 0x00, 0x00, 0x00, 0x00, 0x00, 0x00, 0x00, 0x00, 0x00, 0x00, 0x40])

  const DfasFrom256: seq<TableDfa> := [SingleInput, FileInput, EvalInput, Decorator, Decorators, Funcdef, Parameters, Varargslist, Fpdef, Fplist, Stmt, SimpleStmt]
  const DfasFrom268: seq<TableDfa> := [SmallStmt, ExprStmt, Augassign, PrintStmt, DelStmt, PassStmt, FlowStmt, BreakStmt, ContinueStmt, ReturnStmt, YieldStmt, RaiseStmt]
  const DfasFrom280: seq<TableDfa> := [ImportStmt, ImportName, ImportFrom, ImportAsName, DottedAsName, ImportAsNames, DottedAsNames, DottedName, GlobalStmt, ExecStmt, AssertStmt, CompoundStmt]
  const DfasFrom292: seq<TableDfa> := [IfStmt, WhileStmt, ForStmt, TryStmt, WithStmt, WithVar, ExceptClause, Suite, TestlistSafe, OldTest, OldLambdef, Test]
  const DfasFrom304: seq<TableDfa> := [OrTest, AndTest, NotTest, Comparison, CompOp, Expr, XorExpr, AndExpr, ShiftExpr, ArithExpr, Term, Factor]
  const DfasFrom316: seq<TableDfa> := [Power, Atom, Listmaker, TestlistGexp, Lambdef, Trailer, Subscriptlist, Subscript, Sliceop, Exprlist, Testlist, Dictmaker]
  const DfasFrom328: seq<TableDfa> := [Classdef, Arglist, Argument, ListIter, ListFor, ListIf, GenIter, GenFor, GenIf, Testlist1, EncodingDecl, YieldExpr]

  lemma DfasFrom256Numbered() ensures NumberedFrom(DfasFrom256, 256) {}
  lemma DfasFrom268Numbered() ensures NumberedFrom(DfasFrom268, 268) {}
  lemma DfasFrom280Numbered() ensures NumberedFrom(DfasFrom280, 280) {}
  lemma DfasFrom292Numbered() ensures NumberedFrom(DfasFrom292, 292) {}
  lemma DfasFrom304Numbered() ensures NumberedFrom(DfasFrom304, 304) {}
  lemma DfasFrom316Numbered() ensures NumberedFrom(DfasFrom316, 316) {}
  lemma DfasFrom328Numbered() ensures NumberedFrom(DfasFrom328, 328) {}

  /** The `dfas` array, in nonterminal order. */
  const Dfas: seq<TableDfa> :=
    DfasFrom256 + DfasFrom268 + DfasFrom280 + DfasFrom292 + DfasFrom304 + DfasFrom316 + DfasFrom328

  /** Entry `i` of the `labels` array (lines 1956-2124, entry `i` on line
      1957 + i): a token category or nonterminal number and its literal. */
  function LabelEntry(i: int): Label
    requires 0 <= i < LabelCount
  {
    if i < 20 then LabelsFrom0To19(i)
    else if i < 40 then LabelsFrom20To39(i)
    else if i < 60 then LabelsFrom40To59(i)
    else if i < 80 then LabelsFrom60To79(i)
    else if i < 100 then LabelsFrom80To99(i)
    else if i < 120 then LabelsFrom100To119(i)
    else if i < 140 then LabelsFrom120To139(i)
    else if i < 160 then LabelsFrom140To159(i)
    else LabelsFrom160To166(i)
  }

  function LabelsFrom0To19(i: int): Label
    requires 0 <= i < 20
  {
    match i
    case 0 => Label(0, Some("EMPTY"))
    case 1 => Label(256, None)
    case 2 => Label(4, None)
    case 3 => Label(267, None)
    case 4 => Label(291, None)
    case 5 => Label(257, None)
    case 6 => Label(266, None)
    case 7 => Label(0, None)
    case 8 => Label(258, None)
    case 9 => Label(326, None)
    case 10 => Label(259, None)
    case 11 => Label(50, None)
    case 12 => Label(287, None)
    case 13 => Label(7, None)
    case 14 => Label(329, None)
    case 15 => Label(8, None)
    case 16 => Label(260, None)
    case 17 => Label(261, None)
    case 18 => Label(1, Some("def"))
    case 19 => Label(1, None)
    case _ => assert false; Label(0, None)
  }

  function LabelsFrom20To39(i: int): Label
    requires 20 <= i < 40
  {
    match i
    case 20 => Label(262, None)
    case 21 => Label(11, None)
    case 22 => Label(299, None)
    case 23 => Label(263, None)
    case 24 => Label(264, None)
    case 25 => Label(22, None)
    case 26 => Label(303, None)
    case 27 => Label(12, None)
    case 28 => Label(16, None)
    case 29 => Label(36, None)
    case 30 => Label(265, None)
    case 31 => Label(268, None)
    case 32 => Label(13, None)
    case 33 => Label(269, None)
    case 34 => Label(271, None)
    case 35 => Label(272, None)
    case 36 => Label(273, None)
    case 37 => Label(274, None)
    case 38 => Label(280, None)
    case 39 => Label(288, None)
    case _ => assert false; Label(0, None)
  }

  function LabelsFrom40To59(i: int): Label
    requires 40 <= i < 60
  {
    match i
    case 40 => Label(289, None)
    case 41 => Label(290, None)
    case 42 => Label(270, None)
    case 43 => Label(339, None)
    case 44 => Label(37, None)
    case 45 => Label(38, None)
    case 46 => Label(39, None)
    case 47 => Label(40, None)
    case 48 => Label(41, None)
    case 49 => Label(42, None)
    case 50 => Label(43, None)
    case 51 => Label(44, None)
    case 52 => Label(45, None)
    case 53 => Label(46, None)
    case 54 => Label(47, None)
    case 55 => Label(49, None)
    case 56 => Label(1, Some("print"))
    case 57 => Label(35, None)
    case 58 => Label(1, Some("del"))
    case 59 => Label(325, None)
    case _ => assert false; Label(0, None)
  }

  function LabelsFrom60To79(i: int): Label
    requires 60 <= i < 80
  {
    match i
    case 60 => Label(1, Some("pass"))
    case 61 => Label(275, None)
    case 62 => Label(276, None)
    case 63 => Label(277, None)
    case 64 => Label(279, None)
    case 65 => Label(278, None)
    case 66 => Label(1, Some("break"))
    case 67 => Label(1, Some("continue"))
    case 68 => Label(1, Some("return"))
    case 69 => Label(1, Some("raise"))
    case 70 => Label(281, None)
    case 71 => Label(282, None)
    case 72 => Label(1, Some("import"))
    case 73 => Label(286, None)
    case 74 => Label(1, Some("from"))
    case 75 => Label(23, None)
    case 76 => Label(285, None)
    case 77 => Label(283, None)
    case 78 => Label(284, None)
    case 79 => Label(1, Some("global"))
    case _ => assert false; Label(0, None)
  }

  function LabelsFrom80To99(i: int): Label
    requires 80 <= i < 100
  {
    match i
    case 80 => Label(1, Some("exec"))
    case 81 => Label(309, None)
    case 82 => Label(1, Some("in"))
    case 83 => Label(1, Some("assert"))
    case 84 => Label(292, None)
    case 85 => Label(293, None)
    case 86 => Label(294, None)
    case 87 => Label(295, None)
    case 88 => Label(296, None)
    case 89 => Label(328, None)
    case 90 => Label(1, Some("if"))
    case 91 => Label(1, Some("elif"))
    case 92 => Label(1, Some("else"))
    case 93 => Label(1, Some("while"))
    case 94 => Label(1, Some("for"))
    case 95 => Label(1, Some("try"))
    case 96 => Label(298, None)
    case 97 => Label(1, Some("finally"))
    case 98 => Label(1, Some("with"))
    case 99 => Label(297, None)
    case _ => assert false; Label(0, None)
  }

  function LabelsFrom100To119(i: int): Label
    requires 100 <= i < 120
  {
    match i
    case 100 => Label(1, Some("except"))
    case 101 => Label(5, None)
    case 102 => Label(6, None)
    case 103 => Label(300, None)
    case 104 => Label(301, None)
    case 105 => Label(304, None)
    case 106 => Label(302, None)
    case 107 => Label(1, Some("lambda"))
    case 108 => Label(320, None)
    case 109 => Label(305, None)
    case 110 => Label(1, Some("or"))
    case 111 => Label(306, None)
    case 112 => Label(1, Some("and"))
    case 113 => Label(1, Some("not"))
    case 114 => Label(307, None)
    case 115 => Label(308, None)
    case 116 => Label(20, None)
    case 117 => Label(21, None)
    case 118 => Label(28, None)
    case 119 => Label(31, None)
    case _ => assert false; Label(0, None)
  }

  function LabelsFrom120To139(i: int): Label
    requires 120 <= i < 140
  {
    match i
    case 120 => Label(30, None)
    case 121 => Label(29, None)
    case 122 => Label(29, None)
    case 123 => Label(1, Some("is"))
    case 124 => Label(310, None)
    case 125 => Label(18, None)
    case 126 => Label(311, None)
    case 127 => Label(33, None)
    case 128 => Label(312, None)
    case 129 => Label(19, None)
    case 130 => Label(313, None)
    case 131 => Label(34, None)
    case 132 => Label(314, None)
    case 133 => Label(14, None)
    case 134 => Label(15, None)
    case 135 => Label(315, None)
    case 136 => Label(17, None)
    case 137 => Label(24, None)
    case 138 => Label(48, None)
    case 139 => Label(32, None)
    case _ => assert false; Label(0, None)
  }

  function LabelsFrom140To159(i: int): Label
    requires 140 <= i < 160
  {
    match i
    case 140 => Label(316, None)
    case 141 => Label(317, None)
    case 142 => Label(321, None)
    case 143 => Label(319, None)
    case 144 => Label(9, None)
    case 145 => Label(318, None)
    case 146 => Label(10, None)
    case 147 => Label(26, None)
    case 148 => Label(327, None)
    case 149 => Label(27, None)
    case 150 => Label(25, None)
    case 151 => Label(337, None)
    case 152 => Label(2, None)
    case 153 => Label(3, None)
    case 154 => Label(332, None)
    case 155 => Label(335, None)
    case 156 => Label(322, None)
    case 157 => Label(323, None)
    case 158 => Label(324, None)
    case 159 => Label(1, Some("class"))
    case _ => assert false; Label(0, None)
  }

  function LabelsFrom160To166(i: int): Label
    requires 160 <= i < 167
  {
    match i
    case 160 => Label(330, None)
    case 161 => Label(331, None)
    case 162 => Label(333, None)
    case 163 => Label(334, None)
    case 164 => Label(336, None)
    case 165 => Label(338, None)
    case 166 => Label(1, Some("yield"))
    case _ => assert false; Label(0, None)
  }

  /** The `labels` array: entry `i` is label number `i`. */
  const Labels: seq<Label> := seq(LabelCount, LabelEntry)

  /** The `_PyParser_Grammar` record (lines 2125-2130). */
  const ParserGrammar: GrammarTable := GrammarTable(84, Dfas, 167, Labels, 256)
}