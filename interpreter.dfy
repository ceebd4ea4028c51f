/**
 * DesignPatterns/interpreter: son and daughter expressions that accept a
 * context exactly when it contains both of the expression's names
 * somewhere, in any order, as substrings.
 */
module Interpreter {
  import opened JavaLang

  /** The two relation expressions; the names are fixed when the expression is built. */
  datatype Expression =
    | SonExpression(parentName: string, sonName: string)
    | DaughterExpression(parentName: string, daughterName: string)

  /** The name of the child the expression mentions. */
  function ChildName(e: Expression): string
  {
    match e
    case SonExpression(_, son) => son
    case DaughterExpression(_, daughter) => daughter
  }

  /** interpret: both names occur in the context, so neither is longer than it. */
  predicate Interpret(e: Expression, context: string)
    ensures Interpret(e, context) ==> |e.parentName| <= |context| && |ChildName(e)| <= |context|
  {
    match e
    case SonExpression(parent, son) => Contains(context, parent) && Contains(context, son)
    case DaughterExpression(parent, daughter) => Contains(context, parent) && Contains(context, daughter)
  }

  /**
   * An expression holds exactly when each name occurs at some index of the
   * context; which name is the parent, and whether the child is a son or a
   * daughter, makes no difference.
   */
  lemma InterpretSpec(e: Expression, context: string)
    ensures Interpret(e, context) <==>
      (exists i :: OccursAt(context, e.parentName, i)) && (exists j :: OccursAt(context, ChildName(e), j))
    ensures Interpret(e, context) == Interpret(SonExpression(ChildName(e), e.parentName), context)
    ensures Interpret(e, context) == Interpret(DaughterExpression(e.parentName, ChildName(e)), context)
  {
    ContainsAt(context, e.parentName);
    ContainsAt(context, ChildName(e));
  }

  /** An empty name matches every context, so only the other name is tested. */
  lemma EmptyNameMatches(e: Expression, context: string)
    requires e.parentName == ""
    ensures Interpret(e, context) <==> Contains(context, ChildName(e))
  {
    ContainsEmpty(context);
  }

  /** A context that contains a phrase contains everything the phrase contains. */
  lemma ContainsTransitive(context: string, phrase: string, name: string)
    requires Contains(context, phrase) && Contains(phrase, name)
    ensures Contains(context, name)
  {
    ContainsAt(context, phrase);
    ContainsAt(phrase, name);
    var i :| OccursAt(context, phrase, i);
    var j :| OccursAt(phrase, name, j);
    forall k | 0 <= k < |name|
      ensures context[i + j + k] == name[k]
    {
      assert phrase[j + k] == phrase[j..j + |name|][k];
      assert context[i + (j + k)] == context[i..i + |phrase|][j + k];
    }
    assert context[i + j..i + j + |name|] == name;
    assert OccursAt(context, name, i + j);
    ContainsAt(context, name);
  }

  /** A name that occurs at some index is contained. */
  lemma OccursContains(context: string, name: string, i: int)
    requires OccursAt(context, name, i)
    ensures Contains(context, name)
  {
    ContainsAt(context, name);
  }

  /**
   * The demo's son rule, SonExpression("Robert", "Stuart"), holds on
   * "Stuart is a son of Robert".
   */
  lemma SonExample()
    ensures Interpret(SonExpression("Robert", "Stuart"), "Stuart is a son of Robert")
  {
    var c := "Stuart is a son of Robert";
    assert c == "Stuart is a son of " + "Robert";
    assert c[0..6] == "Stuart";
    assert c[19..25] == "Robert";
    OccursContains(c, "Stuart", 0);
    OccursContains(c, "Robert", 19);
  }

  /**
   * The demo's daughter rule, DaughterExpression("Julie", "Samantha"),
   * holds on "Samantha is a daughter of Julie".
   */
  lemma DaughterExample()
    ensures Interpret(DaughterExpression("Julie", "Samantha"), "Samantha is a daughter of Julie")
  {
    var c := "Samantha is a daughter of Julie";
    assert c[0..8] == "Samantha";
    assert c[26..31] == "Julie";
    OccursContains(c, "Samantha", 0);
    OccursContains(c, "Julie", 26);
  }

  /** The order of the names in the context does not matter. */
  lemma SonExampleSwapped()
    ensures Interpret(SonExpression("Stuart", "Robert"), "Stuart is the father of Robert")
  {
    var c := "Stuart is the father of Robert";
    assert c[0..6] == "Stuart";
    assert c[24..30] == "Robert";
    OccursContains(c, "Stuart", 0);
    OccursContains(c, "Robert", 24);
  }

  /** A context missing one of the names is rejected. */
  lemma SonExampleMissingParent()
    ensures !Interpret(SonExpression("Stuart", "Robert"), "Robert is a son")
  {
    NotContainsWithoutFirstChar("Robert is a son", "Stuart");
  }
}
