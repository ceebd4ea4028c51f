/**
 * Practice/ChainOfResponsibility.java: support handlers linked through
 * nextHandler. Each level handles exactly its own request string; any other
 * request goes to the next handler, and past the end of the chain the
 * request "cannot be handled". BaseSupportHandler itself handles nothing.
 */
module SupportChain {
  import opened JavaLang

  datatype SupportLevel = Base | LevelOne | LevelTwo | LevelThree

  /** The one request string a level handles; Base handles none. */
  function HandledRequest(level: SupportLevel): Option<string>
  {
    match level
    case Base => None
    case LevelOne => Some("Level One Request")
    case LevelTwo => Some("Level Two Request")
    case LevelThree => Some("Level Three Request")
  }

  /** The line a handler prints when it handles the request. */
  function HandledLine(level: SupportLevel, request: string): string
  {
    match level
    case Base => "Request cannot be handled."
    case LevelOne => "Level One Support handles the request: " + request
    case LevelTwo => "Level Two Support handles the request: " + request
    case LevelThree => "Level Three Support handles the request: " + request
  }

  const CannotBeHandled := "Request cannot be handled."

  predicate Handles(level: SupportLevel, request: string)
  {
    HandledRequest(level) == Some(request)
  }

  class SupportHandler {
    const level: SupportLevel
    var nextHandler: SupportHandler?

    constructor (level: SupportLevel)
      ensures this.level == level && nextHandler == null
    {
      this.level := level;
      nextHandler := null;
    }

    method SetNextHandler(next: SupportHandler?)
      modifies this
      ensures nextHandler == next
    {
      nextHandler := next;
    }

    /** handleRequest: the line printed, by whichever handler of the chain prints it. */
    method HandleRequest(request: string, ghost nodes: seq<SupportHandler>) returns (line: string)
      requires IsChain(nodes) && nodes[0] == this
      ensures line == Outcome(nodes, request)
      decreases |nodes|
    {
      if level != Base && HandledRequest(level) == Some(request) {
        line := HandledLine(level, request);
      } else if nextHandler != null {
        line := nextHandler.HandleRequest(request, nodes[1..]);
      } else {
        line := CannotBeHandled;
      }
    }
  }

  /** `nodes` is a null-terminated chain linked through nextHandler. */
  ghost predicate IsChain(nodes: seq<SupportHandler>)
    reads set i | 0 <= i < |nodes| :: nodes[i]
  {
    |nodes| > 0
    && (forall i :: 0 <= i < |nodes| - 1 ==> nodes[i].nextHandler == nodes[i + 1])
    && nodes[|nodes| - 1].nextHandler == null
  }

  /** What the chain prints: the first handler that handles the request prints its line. */
  function Outcome(nodes: seq<SupportHandler>, request: string): string
  {
    if nodes == [] then CannotBeHandled
    else if Handles(nodes[0].level, request) then HandledLine(nodes[0].level, request)
    else Outcome(nodes[1..], request)
  }

  /** Handler `i` is the first of the chain that handles the request. */
  predicate FirstHandler(nodes: seq<SupportHandler>, request: string, i: int)
  {
    0 <= i < |nodes| && Handles(nodes[i].level, request)
    && forall j :: 0 <= j < i ==> !Handles(nodes[j].level, request)
  }

  /**
   * The request is handled exactly when some handler of the chain handles
   * it, and then by the first such handler; otherwise the chain prints
   * "Request cannot be handled.".
   */
  lemma {:induction false} OutcomeSpec(nodes: seq<SupportHandler>, request: string)
    ensures (forall i :: 0 <= i < |nodes| ==> !Handles(nodes[i].level, request))
      ==> Outcome(nodes, request) == CannotBeHandled
    ensures forall i :: FirstHandler(nodes, request, i) ==> Outcome(nodes, request) == HandledLine(nodes[i].level, request)
  {
    if nodes != [] {
      OutcomeSpec(nodes[1..], request);
      forall i | FirstHandler(nodes, request, i)
        ensures Outcome(nodes, request) == HandledLine(nodes[i].level, request)
      {
        if i > 0 {
          assert !Handles(nodes[0].level, request);
          assert nodes[1..][i - 1] == nodes[i];
          forall j | 0 <= j < i - 1
            ensures !Handles(nodes[1..][j].level, request)
          {
            assert nodes[1..][j] == nodes[j + 1];
          }
          assert FirstHandler(nodes[1..], request, i - 1);
        }
      }
      if forall i :: 0 <= i < |nodes| ==> !Handles(nodes[i].level, request) {
        forall k | 0 <= k < |nodes[1..]|
          ensures !Handles(nodes[1..][k].level, request)
        {
          assert nodes[1..][k] == nodes[k + 1];
        }
      }
    }
  }

  /** A handled line always names the request it handled; a handler never prints the refusal for its own request. */
  lemma HandledLineEndsWithRequest(level: SupportLevel, request: string)
    requires Handles(level, request)
    ensures EndsWith(HandledLine(level, request), request)
    ensures HandledLine(level, request) != CannotBeHandled
  {
    var line := HandledLine(level, request);
    assert line[|line| - |request|..] == request;
    assert |line| > |CannotBeHandled|;
  }

  /** The chain of main: LevelOne -> LevelTwo -> LevelThree. */
  method BuildSupportChain() returns (head: SupportHandler, ghost nodes: seq<SupportHandler>)
    ensures IsChain(nodes) && head == nodes[0] && |nodes| == 3
    ensures nodes[0].level == LevelOne && nodes[1].level == LevelTwo && nodes[2].level == LevelThree
  {
    var levelOne := new SupportHandler(LevelOne);
    var levelTwo := new SupportHandler(LevelTwo);
    var levelThree := new SupportHandler(LevelThree);
    levelOne.SetNextHandler(levelTwo);
    levelTwo.SetNextHandler(levelThree);
    head := levelOne;
    nodes := [levelOne, levelTwo, levelThree];
  }

  /** Each known request reaches its own level. */
  lemma SupportChainRouting(nodes: seq<SupportHandler>)
    requires |nodes| == 3
    requires nodes[0].level == LevelOne && nodes[1].level == LevelTwo && nodes[2].level == LevelThree
    ensures Outcome(nodes, "Level One Request") == HandledLine(LevelOne, "Level One Request")
    ensures Outcome(nodes, "Level Two Request") == HandledLine(LevelTwo, "Level Two Request")
    ensures Outcome(nodes, "Level Three Request") == HandledLine(LevelThree, "Level Three Request")
  {
    assert "Level One Request"[6] == 'O' && "Level Two Request"[6] == 'T' && "Level Three Request"[6] == 'T';
    assert "Level Two Request"[7] == 'w' && "Level Three Request"[7] == 'h';
    assert FirstHandler(nodes, "Level One Request", 0);
    assert FirstHandler(nodes, "Level Two Request", 1);
    assert FirstHandler(nodes, "Level Three Request", 2);
    OutcomeSpec(nodes, "Level One Request");
    OutcomeSpec(nodes, "Level Two Request");
    OutcomeSpec(nodes, "Level Three Request");
  }

  /** A request no level knows falls off the end of the chain. */
  lemma UnknownRequestFallsOff(nodes: seq<SupportHandler>)
    ensures Outcome(nodes, "Unknown Request") == CannotBeHandled
  {
    assert "Unknown Request"[0] == 'U';
    assert forall level :: !Handles(level, "Unknown Request");
    OutcomeSpec(nodes, "Unknown Request");
  }
}
