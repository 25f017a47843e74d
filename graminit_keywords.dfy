/** The keywords of the grammar by label number, written out independently of
    the label table so that the table can be checked against them. */
module GramInitKeywords {
  import opened Grammar
  import opened GramInit

  /** The keyword labels of the table: the literal of each NAME label that
      carries one, by label number. */
  function KeywordAt(i: int): Option<string>
  {
    match i
    case 18 => Some("def")
    case 56 => Some("print")
    case 58 => Some("del")
    case 60 => Some("pass")
    case 66 => Some("break")
    case 67 => Some("continue")
    case 68 => Some("return")
    case 69 => Some("raise")
    case 72 => Some("import")
    case 74 => Some("from")
    case 79 => Some("global")
    case 80 => Some("exec")
    case 82 => Some("in")
    case 83 => Some("assert")
    case 90 => Some("if")
    case 91 => Some("elif")
    case 92 => Some("else")
    case 93 => Some("while")
    case 94 => Some("for")
    case 95 => Some("try")
    case 97 => Some("finally")
    case 98 => Some("with")
    case 100 => Some("except")
    case 107 => Some("lambda")
    case 110 => Some("or")
    case 112 => Some("and")
    case 113 => Some("not")
    case 123 => Some("is")
    case 159 => Some("class")
    case 166 => Some("yield")
    case _ => None
  }

  /** The labels a NAME token spelled `w` should satisfy: the generic NAME
      label 19 always, and the keyword label spelled `w`, if there is one. */
  function NameHits(w: string): (r: set<int>)
    ensures 19 in r && forall h :: h in r ==> 0 <= h < LabelCount
  {
    {19} + set i | 0 <= i < LabelCount && KeywordAt(i) == Some(w)
  }
}
