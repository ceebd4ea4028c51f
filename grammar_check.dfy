/**
 * The two lazily created grammar-check singletons:
 * DesignPatterns/Singleton/with/GrammarCheck.java accepts a sentence that
 * contains a space; DesignPatterns/src/Singleton/with/GrammerCheck.java
 * accepts a text that matches ^[A-Z].*[.]$ as a whole. Each class's static
 * instance field is held by one holder object.
 */
module GrammarChecks {
  import opened JavaLang

  // ---------------------------------------------------------------------------
  // GrammarCheck.java

  /** check: the sentence contains a space. */
  predicate HasSpace(sentence: string)
  {
    Contains(sentence, " ")
  }

  /** A sentence has a space exactly when some character of it is one. */
  lemma HasSpaceSpec(sentence: string)
    ensures HasSpace(sentence) <==> exists i :: 0 <= i < |sentence| && sentence[i] == ' '
  {
    ContainsAt(sentence, " ");
    if exists i :: 0 <= i < |sentence| && sentence[i] == ' ' {
      var i :| 0 <= i < |sentence| && sentence[i] == ' ';
      assert OccursAt(sentence, " ", i);
    }
    if exists i :: OccursAt(sentence, " ", i) {
      var i :| OccursAt(sentence, " ", i);
      assert sentence[i..i + 1][0] == sentence[i];
    }
  }

  class GrammarCheck {
    constructor ()
    {
    }

    method Check(sentence: string) returns (b: bool)
      ensures b <==> HasSpace(sentence)
    {
      b := Contains(sentence, " ");
    }
  }

  /** The class's static instance field. */
  class GrammarCheckInstance {
    var instance: GrammarCheck?

    constructor ()
      ensures instance == null
    {
      instance := null;
    }

    /** getInstance: created on the first call, the same object on every call after. */
    method GetInstance() returns (g: GrammarCheck)
      modifies this
      ensures old(instance) == null ==> fresh(g)
      ensures old(instance) != null ==> g == old(instance)
      ensures instance == g
    {
      if instance == null {
        instance := new GrammarCheck();
      }
      g := instance;
    }
  }

  // ---------------------------------------------------------------------------
  // GrammerCheck.java

  /** The characters the regex `.` does not match without DOTALL. */
  predicate LineTerminator(c: char)
  {
    c == '\n' || c == '\r' || c == '\U{0085}' || c == '\U{2028}' || c == '\U{2029}'
  }

  /**
   * The text as a whole matches ^[A-Z].*[.]$: an ASCII capital first, a
   * period last, no line terminator in between, so at least two characters.
   */
  predicate MatchesSentencePattern(text: string)
  {
    |text| >= 2 && 'A' <= text[0] <= 'Z' && text[|text| - 1] == '.'
    && forall i :: 0 < i < |text| - 1 ==> !LineTerminator(text[i])
  }

  /** A matcher for the same pattern, one character at a time. */
  datatype MatchState = Start | Body(lastIsPeriod: bool) | Dead

  function Step(s: MatchState, c: char): MatchState
  {
    match s
    case Start => if 'A' <= c <= 'Z' then Body(false) else Dead
    case Body(_) => if LineTerminator(c) then Dead else Body(c == '.')
    case Dead => Dead
  }

  function RunFrom(s: MatchState, text: string): MatchState
    decreases |text|
  {
    if text == [] then s else RunFrom(Step(s, text[0]), text[1..])
  }

  predicate Accepts(text: string)
  {
    RunFrom(Start, text) == Body(true)
  }

  /** From inside the body, the rest must be free of line terminators and, if any, end in a period. */
  lemma {:induction false} RunFromBody(b: bool, rest: string)
    ensures RunFrom(Body(b), rest) == Body(true) <==>
      (forall i :: 0 <= i < |rest| ==> !LineTerminator(rest[i]))
      && (if rest == [] then b else rest[|rest| - 1] == '.')
    decreases |rest|
  {
    if rest != [] {
      if LineTerminator(rest[0]) {
        RunFromDead(rest[1..]);
      } else {
        RunFromBody(rest[0] == '.', rest[1..]);
        assert forall i :: 1 <= i < |rest| ==> rest[i] == rest[1..][i - 1];
      }
    }
  }

  lemma {:induction false} RunFromDead(rest: string)
    ensures RunFrom(Dead, rest) == Dead
    decreases |rest|
  {
    if rest != [] {
      RunFromDead(rest[1..]);
    }
  }

  /** The matcher accepts exactly the texts that match the pattern. */
  lemma AcceptsIffMatches(text: string)
    ensures Accepts(text) <==> MatchesSentencePattern(text)
  {
    if text != [] {
      if 'A' <= text[0] <= 'Z' {
        var rest := text[1..];
        RunFromBody(false, rest);
        assert forall i :: 0 < i < |text| ==> text[i] == rest[i - 1];
        if MatchesSentencePattern(text) {
          assert forall i :: 0 <= i < |rest| ==> !LineTerminator(rest[i]) by {
            forall i | 0 <= i < |rest|
              ensures !LineTerminator(rest[i])
            {
              if i == |rest| - 1 {
                assert rest[i] == '.';
              } else {
                assert rest[i] == text[i + 1];
              }
            }
          }
        }
      } else {
        RunFromDead(text[1..]);
      }
    }
  }

  /** Two characters suffice; a lowercase start, a missing period or a line break fails. */
  lemma PatternExamples()
    ensures MatchesSentencePattern("A.")
    ensures !MatchesSentencePattern("A") && !MatchesSentencePattern("a.")
    ensures MatchesSentencePattern("Hello world.") && !MatchesSentencePattern("Hello world")
    ensures !MatchesSentencePattern("Hello\nworld.")
  {
    assert "Hello\nworld."[5] == '\n';
  }

  class GrammerCheck {
    constructor ()
    {
    }

    method Check(text: string) returns (b: bool)
      ensures b <==> MatchesSentencePattern(text)
    {
      b := MatchesSentencePattern(text);
    }
  }

  /** The class's static instance field. */
  class GrammerCheckInstance {
    var instance: GrammerCheck?

    constructor ()
      ensures instance == null
    {
      instance := null;
    }

    method GetInstance() returns (g: GrammerCheck)
      modifies this
      ensures old(instance) == null ==> fresh(g)
      ensures old(instance) != null ==> g == old(instance)
      ensures instance == g
    {
      if instance == null {
        instance := new GrammerCheck();
      }
      g := instance;
    }
  }

  /** Two calls give the same object, whose checks depend on the text alone. */
  method SingletonShared() returns (g1: GrammerCheck, g2: GrammerCheck, ok: bool)
    ensures g1 == g2 && ok
  {
    var holder := new GrammerCheckInstance();
    g1 := holder.GetInstance();
    g2 := holder.GetInstance();
    PatternExamples();
    ok := g2.Check("A.");
  }
}
