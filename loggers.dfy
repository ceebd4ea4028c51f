/**
 * DesignPatterns/ChainOfResponsibility/Loggers: a singly linked chain of
 * loggers, each with a threshold level. logMessage lets every logger whose
 * threshold is at most the message level write, in chain order;
 * activeLogger lets only the first such logger write, and reports that the
 * feature is not available when none qualifies.
 *
 * A chain is given by a ghost witness `nodes`: nodes[0] is the logger called,
 * each node's nextLogger is the following node and the last one's is null.
 * What a logger writes is the message itself, so the models return the
 * loggers that write, in order.
 */
module Loggers {
  import opened JavaLang

  const INFO: int32 := 1
  const DEBUG: int32 := 2
  const ERROR: int32 := 3
  const WARNING: int32 := 4

  /** The four concrete subclasses; they differ only in the prefix they print. */
  datatype LoggerKind = ErrorLogger | FileLogger | ConsoleLogger | DatabaseLogger

  /** The prefix each subclass's write puts before the message. */
  function Prefix(kind: LoggerKind): string
  {
    match kind
    case ErrorLogger => "Error Console::Logger: "
    case FileLogger => "File::Logger: "
    case ConsoleLogger => "Standard Console::Logger: "
    case DatabaseLogger => "Database::Logger: "
  }

  class Logger {
    const kind: LoggerKind
    const level: int32
    var nextLogger: Logger?

    constructor (kind: LoggerKind, level: int32)
      ensures this.kind == kind && this.level == level && nextLogger == null
    {
      this.kind := kind;
      this.level := level;
      nextLogger := null;
    }

    method SetNextLogger(next: Logger?)
      modifies this
      ensures nextLogger == next
    {
      nextLogger := next;
    }

    /** logMessage: write here if this.level <= level, then pass the message on. */
    method LogMessage(level: int32, message: string, ghost nodes: seq<Logger>) returns (writers: seq<Logger>)
      requires IsChain(nodes) && nodes[0] == this
      ensures writers == Writers(nodes, level)
      decreases |nodes|
    {
      writers := [];
      if this.level <= level {
        writers := [this];
      }
      if nextLogger != null {
        var rest := nextLogger.LogMessage(level, message, nodes[1..]);
        writers := writers + rest;
      }
    }

    /**
     * activeLogger: write here if this.level <= level, else pass the message
     * on; None stands for "This feature is not available" at the chain's end.
     */
    method ActiveLogger(level: int32, message: string, ghost nodes: seq<Logger>) returns (writer: Option<Logger>)
      requires IsChain(nodes) && nodes[0] == this
      ensures writer == ActiveWriter(nodes, level)
      decreases |nodes|
    {
      if this.level <= level {
        writer := Some(this);
      } else if nextLogger != null {
        writer := nextLogger.ActiveLogger(level, message, nodes[1..]);
      } else {
        writer := None;
      }
    }
  }

  /** `nodes` is a null-terminated chain linked through nextLogger. */
  ghost predicate IsChain(nodes: seq<Logger>)
    reads set i | 0 <= i < |nodes| :: nodes[i]
  {
    |nodes| > 0
    && (forall i :: 0 <= i < |nodes| - 1 ==> nodes[i].nextLogger == nodes[i + 1])
    && nodes[|nodes| - 1].nextLogger == null
  }

  /** The loggers of the chain whose threshold admits `level`, in chain order. */
  function Writers(nodes: seq<Logger>, level: int): seq<Logger>
  {
    if nodes == [] then []
    else (if nodes[0].level <= level then [nodes[0]] else []) + Writers(nodes[1..], level)
  }

  /** The first logger of the chain whose threshold admits `level`. */
  function ActiveWriter(nodes: seq<Logger>, level: int): Option<Logger>
  {
    if nodes == [] then None
    else if nodes[0].level <= level then Some(nodes[0])
    else ActiveWriter(nodes[1..], level)
  }

  /**
   * Writers keeps exactly the loggers whose threshold is at most the level,
   * and never more loggers than the chain has.
   */
  lemma {:induction false} WritersSpec(nodes: seq<Logger>, level: int)
    ensures |Writers(nodes, level)| <= |nodes|
    ensures forall l :: l in Writers(nodes, level) <==> l in nodes && l.level <= level
  {
    if nodes != [] {
      WritersSpec(nodes[1..], level);
      assert nodes == [nodes[0]] + nodes[1..];
    }
  }

  /**
   * activeLogger writes at exactly the first logger logMessage would write
   * at, and reports "not available" exactly when logMessage writes nowhere.
   */
  lemma {:induction false} ActiveIsFirstWriter(nodes: seq<Logger>, level: int)
    ensures ActiveWriter(nodes, level).None? <==> Writers(nodes, level) == []
    ensures ActiveWriter(nodes, level).Some? ==> ActiveWriter(nodes, level).value == Writers(nodes, level)[0]
  {
    if nodes != [] {
      var rest := Writers(nodes[1..], level);
      if nodes[0].level <= level {
        assert Writers(nodes, level) == [nodes[0]] + rest;
        assert Writers(nodes, level)[0] == nodes[0];
      } else {
        assert Writers(nodes, level) == [] + rest;
        assert [] + rest == rest;
        ActiveIsFirstWriter(nodes[1..], level);
      }
    }
  }

  /** The active writer is a logger of the chain whose threshold admits the level, and no earlier one does. */
  lemma {:induction false} ActiveWriterSpec(nodes: seq<Logger>, level: int)
    ensures ActiveWriter(nodes, level).None? <==> forall i :: 0 <= i < |nodes| ==> nodes[i].level > level
    ensures ActiveWriter(nodes, level).Some? ==>
      exists i :: 0 <= i < |nodes| && nodes[i] == ActiveWriter(nodes, level).value && nodes[i].level <= level
        && forall j :: 0 <= j < i ==> nodes[j].level > level
  {
    if nodes != [] {
      ActiveWriterSpec(nodes[1..], level);
      if nodes[0].level <= level {
        assert nodes[0] == ActiveWriter(nodes, level).value;
      } else if ActiveWriter(nodes, level).Some? {
        var i :| 0 <= i < |nodes[1..]| && nodes[1..][i] == ActiveWriter(nodes, level).value && nodes[1..][i].level <= level
          && forall j :: 0 <= j < i ==> nodes[1..][j].level > level;
        assert nodes[i + 1] == ActiveWriter(nodes, level).value;
        assert forall j :: 0 <= j < i + 1 ==> nodes[j].level > level by {
          forall j | 0 <= j < i + 1
            ensures nodes[j].level > level
          {
            if j > 0 {
              assert nodes[j] == nodes[1..][j - 1];
            }
          }
        }
      } else {
        forall i | 0 <= i < |nodes|
          ensures nodes[i].level > level
        {
          if i > 0 {
            assert nodes[i] == nodes[1..][i - 1];
          }
        }
      }
    }
  }

  /** getChainOfLoggers: Error(ERROR) -> File(DEBUG) -> Console(INFO) -> Database(WARNING). */
  method GetChainOfLoggers() returns (head: Logger, ghost nodes: seq<Logger>)
    ensures IsChain(nodes) && head == nodes[0] && |nodes| == 4
    ensures nodes[0].kind == ErrorLogger && nodes[0].level == ERROR
    ensures nodes[1].kind == FileLogger && nodes[1].level == DEBUG
    ensures nodes[2].kind == ConsoleLogger && nodes[2].level == INFO
    ensures nodes[3].kind == DatabaseLogger && nodes[3].level == WARNING
  {
    var errorLogger := new Logger(ErrorLogger, ERROR);
    var fileLogger := new Logger(FileLogger, DEBUG);
    var consoleLogger := new Logger(ConsoleLogger, INFO);
    var databaseLogger := new Logger(DatabaseLogger, WARNING);
    errorLogger.SetNextLogger(fileLogger);
    fileLogger.SetNextLogger(consoleLogger);
    consoleLogger.SetNextLogger(databaseLogger);
    head := errorLogger;
    nodes := [errorLogger, fileLogger, consoleLogger, databaseLogger];
  }

  /** getActiveChainLogger: Error(ERROR) -> File(DEBUG) -> Console(INFO). */
  method GetActiveChainLogger() returns (head: Logger, ghost nodes: seq<Logger>)
    ensures IsChain(nodes) && head == nodes[0] && |nodes| == 3
    ensures nodes[0].kind == ErrorLogger && nodes[0].level == ERROR
    ensures nodes[1].kind == FileLogger && nodes[1].level == DEBUG
    ensures nodes[2].kind == ConsoleLogger && nodes[2].level == INFO
  {
    var errorLogger := new Logger(ErrorLogger, ERROR);
    var fileLogger := new Logger(FileLogger, DEBUG);
    var consoleLogger := new Logger(ConsoleLogger, INFO);
    errorLogger.SetNextLogger(fileLogger);
    fileLogger.SetNextLogger(consoleLogger);
    head := errorLogger;
    nodes := [errorLogger, fileLogger, consoleLogger];
  }

  /**
   * On the Error -> File -> Console chain, activeLogger sends INFO to the
   * console, DEBUG to the file and both ERROR and WARNING to the error logger.
   */
  lemma ActiveChainRouting(nodes: seq<Logger>)
    requires |nodes| == 3 && nodes[0].level == ERROR && nodes[1].level == DEBUG && nodes[2].level == INFO
    ensures ActiveWriter(nodes, INFO) == Some(nodes[2])
    ensures ActiveWriter(nodes, DEBUG) == Some(nodes[1])
    ensures ActiveWriter(nodes, ERROR) == Some(nodes[0])
    ensures ActiveWriter(nodes, WARNING) == Some(nodes[0])
  {
    var tail := nodes[1..];
    assert tail[1..] == [nodes[2]];
    assert ActiveWriter(tail[1..], INFO) == Some(nodes[2]);
    assert ActiveWriter(tail, INFO) == Some(nodes[2]);
  }

  /**
   * On the four-logger chain, logMessage writes a WARNING at every logger,
   * an ERROR at all but the database logger, and an INFO only at the console.
   */
  lemma FullChainBroadcast(nodes: seq<Logger>)
    requires |nodes| == 4 && nodes[0].level == ERROR && nodes[1].level == DEBUG
    requires nodes[2].level == INFO && nodes[3].level == WARNING
    ensures Writers(nodes, WARNING) == nodes
    ensures Writers(nodes, ERROR) == nodes[..3]
    ensures Writers(nodes, INFO) == [nodes[2]]
  {
    var t1 := nodes[1..];
    var t2 := t1[1..];
    var t3 := t2[1..];
    assert t3 == [nodes[3]] && t3[1..] == [];
    assert Writers(t3, WARNING) == [nodes[3]];
    assert Writers(t2, WARNING) == [nodes[2], nodes[3]];
    assert Writers(t1, WARNING) == [nodes[1], nodes[2], nodes[3]];
    assert nodes == [nodes[0]] + t1;
    assert Writers(t3, ERROR) == [];
    assert Writers(t2, ERROR) == [nodes[2]];
    assert Writers(t1, ERROR) == [nodes[1], nodes[2]];
    assert nodes[..3] == [nodes[0], nodes[1], nodes[2]];
    assert Writers(t3, INFO) == [];
    assert Writers(t2, INFO) == [nodes[2]];
    assert Writers(t1, INFO) == [nodes[2]];
  }
}
