# Design-pattern catalogue: a verified Dafny model

This project models the parts of a Java teaching catalogue of design
patterns that carry exact logic, and proves what that logic promises. Each
Java file (or small group of files) becomes one Dafny module:

| module | Java source | what is modelled |
|---|---|---|
| `LabAllocation` | `src/Midterm_Exam/source_code/*` | odd/even registration numbers matched to the first Linux/Windows computer; the growing `allocatedDetails` list and cursors over it |
| `Admission` | `src/FinalExam/UniversityAdmissionSystem.java` | the lazily created admission system and its observers, department strategies, the facade, departments and their cursor, the eligibility chain |
| `StudentIteration` | `src/Practice/IteratorClient.java` | a growing student list and cursors over the live list |
| `NameRepository` | `src/DesignPatterns/Iterator/classes/NameRepository.java` | the bidirectional name cursor, as written and corrected |
| `Loggers` | `src/DesignPatterns/ChainOfResponsibility/Loggers/*` | the logger chain: `logMessage` (every qualifying logger) and `activeLogger` (the first one) |
| `SupportChain` | `src/Practice/ChainOfResponsibility.java` | support levels that each handle exactly their own request |
| `StrategyChain` | `src/DesignPatterns/Strategy/*` | add, subtract and multiply on Java ints, and the band-selected chain behind `computeInRange` |
| `CompositeBox` | `src/Practice/composite/CompositeBox.java` | leaf and composite boxes, add/remove and the price sum |
| `Employees` | `src/DesignPatterns/Composite/Main.java` | salaries, bonuses and subordinate lists |
| `MementoStructure` | `src/Practice/MementoStructure.java` | originator, mementos and caretaker |
| `SubjectObserver` | `src/DesignPatterns/Observer/subjectClasses/Subject.java` | state changes notifying the attached observers in order |
| `RestaurantObserver` | `src/Practice/ObserverPattern.java` | the restaurant's observer list and the complaint template |
| `PracticeFlyweight`, `TreeFlyweight` | `src/Practice/flyweight/*`, `src/DesignPatterns/Flyweight/*` | flyweight caches that create an object once per key and return that same object afterwards |
| `ServiceLocation` | `src/DesignPatterns/ServiceLocator/source/*` | the naming context, the service cache, both locators and the notification decorators |
| `VehiclePrototype` | `src/Practice/Exam.java` | car and bus clones and the registry that hands out clones |
| `Zombies` | `src/Practice/Main.java` | zombie health, `die()` after fatal hits, and attack strategies |
| `BookControl` | `src/Controller/with/BookController.java` | validated setters and the getters of the book controller |
| `ProxyPattern` | `src/DesignPatterns/Proxy/*` | the lazy image proxy and the exam whose result list only grows |
| `BuilderPattern` | `src/Practice/Builder.java` | the concrete builder, its product and the director |
| `MessagingVisitor` | `src/Practice/visitor/MessagingVisitorApp.java` | insurance and loan visitors over the four kinds of client |
| `TcpState` | `src/Practice/state/TCPConnectionClient.java` | a connection delegating to its current state |
| `Interpreter` | `src/DesignPatterns/interpreter/*` | son and daughter expressions |
| `GrammarChecks` | both `GrammarCheck.java` and `GrammerCheck.java` | the two lazily created checkers: one looks for a space, the other matches `^[A-Z].*[.]$` |
| `MediaAdapterPattern` | `src/DesignPatterns/Adapter/adapterClasses/*` | format dispatch in the audio player and the media adapter |
| `AbstractFactories` | `src/DesignPatterns/abstractFactory/*`, `src/Practice/abstractFactory/AbstractFactory.java` | the factory producers and the shape and theme factories |
| `BookTax` | `src/DesignPrinciples/SingleResponsibility/without/Book.java` | the integer tax computation |
| `MealDecorator` | `src/Practice/DecoratorMealOrder.java` | meal descriptions built up by decorators |
| `JavaLang` | (the Java platform) | `null` as `Option`, exceptions as `Result`, 32-bit `int` wrap-around, truncating `/` and `%`, the `String` predicates, and `ArrayList` where lists are shared |

Objects whose fields the Java code updates are Dafny classes whose methods
state the new state; value-like code is datatypes and functions. A Java
`int` is the subset type `int32`, and an arithmetic result is passed
through `Wrap32` wherever Java would wrap it. Static fields belong to one
holder object each. What a program prints is returned as a value (a line,
an event, a response) where a property depends on it.

## Model

| member | source | states |
|---|---|---|
| LabAllocation.FirstWithOs | src/Midterm_Exam/source_code/OddRegAllocationStrategy.java:20-27 | an index it finds is an index of the registry (the first match is stated by FirstWithOsSpec) |
| LabAllocation.FirstWithOsSpec | src/Midterm_Exam/source_code/OddRegAllocationStrategy.java:20-27 | the search returns a computer whose OS equals the wanted name ignoring case, with no earlier computer matching; it finds none exactly when no computer of the registry matches |
| LabAllocation.FirstWithOsAt | src/Midterm_Exam/source_code/OddRegAllocationStrategy.java:21-24 | an index that matches, with no match before it, is the one the search returns: the first in iteration order |
| LabAllocation.HandlesOdd | src/Midterm_Exam/source_code/OddRegAllocationStrategy.java:13 | `regNo % 2 != 0`, with Java's truncating remainder, holds exactly for odd numbers, negative ones included; `== 0` for even ones |
| LabAllocation.SelectedSpec | src/Midterm_Exam/source_code/OddRegAllocationStrategy.java:12-13 | the students a strategy handles are exactly the listed ones that pass its parity test, and no student is added |
| LabAllocation.OddEvenPartition | src/Midterm_Exam/source_code/EvenRegAllocationStrategy.java:13 | the odd and the even test split the student list: the two selections together are the list as a multiset |
| LabAllocation.SelectedEmpty | src/Midterm_Exam/source_code/OddRegAllocationStrategy.java:12-14 | nothing is selected exactly when no student passes the test, which is when the lookup never runs |
| LabAllocation.EntriesAt | src/Midterm_Exam/source_code/OddRegAllocationStrategy.java:15 | line k of the appended lines names the k-th handled student and the same computer |
| LabAllocation.AllocationSpec | src/Midterm_Exam/source_code/OddRegAllocationStrategy.java:11-26 | allocateComputers throws IllegalStateException exactly when some student is handled and no computer has the OS; otherwise it gives one line per handled student, in input order, all naming one computer with the wanted OS |
| LabAllocation.FindComputer | src/Midterm_Exam/source_code/OddRegAllocationStrategy.java:20-27 | the loop over the registry returns the first computer with the wanted OS, or the IllegalStateException with the strategy's message |
| LabAllocation.AllocateInto | src/Midterm_Exam/source_code/OddRegAllocationStrategy.java:11-18 | the loop over the students appends exactly the lines AllocationSpec describes to the existing list, or throws before appending anything |
| LabAllocation.AllocateStudent | src/Midterm_Exam/source_code/OddRegAllocationStrategy.java:13-15 | one student: nothing for an unhandled one; otherwise one line naming the first matching computer, or the exception |
| LabAllocation.AllocationStep | src/Midterm_Exam/source_code/OddRegAllocationStrategy.java:12-17 | one more student extends the allocation of the prefix by that student's lines; a student whose lookup throws makes the whole call throw, and nothing was appended before it |
| LabAllocation.OddRegAllocationStrategy.constructor | src/Midterm_Exam/source_code/OddRegAllocationStrategy.java:8 | the strategy starts with a new, empty details list |
| LabAllocation.OddRegAllocationStrategy.FindLinuxComputer | src/Midterm_Exam/source_code/OddRegAllocationStrategy.java:20-27 | succeeds exactly when some computer's OS equals "Linux" ignoring case, and returns the first such computer in iteration order (the one FirstWithOs finds); otherwise throws "No Linux computers available" |
| LabAllocation.OddRegAllocationStrategy.AllocateComputers | src/Midterm_Exam/source_code/OddRegAllocationStrategy.java:11-18 | appends the odd students' lines to what the list already holds, or throws with the list unchanged; the list is never cleared |
| LabAllocation.OddRegAllocationStrategy.CreateIterator | src/Midterm_Exam/source_code/OddRegAllocationStrategy.java:29-31 | a new cursor at position 0 over the strategy's own live list |
| LabAllocation.EvenRegAllocationStrategy.constructor | src/Midterm_Exam/source_code/EvenRegAllocationStrategy.java:8 | the strategy starts with a new, empty details list |
| LabAllocation.EvenRegAllocationStrategy.FindWindowsComputer | src/Midterm_Exam/source_code/EvenRegAllocationStrategy.java:20-27 | succeeds exactly when some computer's OS equals "Windows" ignoring case, and returns the first such computer in iteration order (the one FirstWithOs finds); otherwise throws "No Windows computers available" |
| LabAllocation.EvenRegAllocationStrategy.AllocateComputers | src/Midterm_Exam/source_code/EvenRegAllocationStrategy.java:11-18 | appends the even students' lines to what the list already holds, or throws with the list unchanged |
| LabAllocation.EvenRegAllocationStrategy.CreateIterator | src/Midterm_Exam/source_code/EvenRegAllocationStrategy.java:29-31 | a new cursor at position 0 over the strategy's own live list |
| LabAllocation.ListDetailsIterator.constructor | src/Midterm_Exam/source_code/ListDetailsIterator.java:7-12 | the cursor keeps the list itself, not a copy, and starts at position 0 |
| LabAllocation.ListDetailsIterator.HasNext | src/Midterm_Exam/source_code/ListDetailsIterator.java:15-17 | true exactly when the position is below the list's current size |
| LabAllocation.ListDetailsIterator.Next | src/Midterm_Exam/source_code/ListDetailsIterator.java:20-25 | returns the element at the position and advances by one; when exhausted throws NoSuchElementException and stays put; the list is not changed |
| LabAllocation.PrintDetails | src/Midterm_Exam/source_code/Main.java:41-45 | draining a cursor yields exactly the rest of the list from its position, in order, and leaves it at the end |
| LabAllocation.DemoOddAllocation | src/Midterm_Exam/source_code/Main.java:10-27 | in the demo, Alice and Charlie (odd) both get computer 1, in that order |
| LabAllocation.DemoEvenAllocation | src/Midterm_Exam/source_code/Main.java:10-28 | in the demo, Bob and Diana (even) both get computer 2, in that order |
| Admission.Student.constructor | src/FinalExam/UniversityAdmissionSystem.java:90-93 | a new student has its name and strategy and every String field still null |
| Admission.Student.SetRegistrationDetails | src/FinalExam/UniversityAdmissionSystem.java:95-97 | sets the registration details and no other field |
| Admission.Student.SelectDepartment | src/FinalExam/UniversityAdmissionSystem.java:99-101 | sets the selected department and no other field |
| Admission.Student.SetCurrentDepartment | src/FinalExam/UniversityAdmissionSystem.java:116-118 | sets the current department and no other field |
| Admission.Student.SetCurrentMarks | src/FinalExam/UniversityAdmissionSystem.java:120-122 | sets the marks and no other field |
| Admission.Student.ApplyForAdmission | src/FinalExam/UniversityAdmissionSystem.java:103-106 | the strategy sets the current department first, then every registered observer gets one update, in registration order, carrying the updated details; a null strategy or system throws NullPointerException |
| Admission.ApplyStrategy | src/FinalExam/UniversityAdmissionSystem.java:65-79 | the CS strategy sets the current department to "Computer Science", the Mathematics one to "Mathematics"; nothing else changes |
| Admission.CloneComputerScienceStudent | src/FinalExam/UniversityAdmissionSystem.java:264-269 | a new student "CS Clone" with the CS strategy and no details, no selected department and no current department |
| Admission.CloneMathematicsStudent | src/FinalExam/UniversityAdmissionSystem.java:272-277 | a new student "Math Clone" with the Mathematics strategy and no details, no selected department and no current department |
| Admission.AdmissionSystem.constructor | src/FinalExam/UniversityAdmissionSystem.java:11-17 | a new system has no observers |
| Admission.AdmissionSystem.AddObserver | src/FinalExam/UniversityAdmissionSystem.java:26-28 | appends the observer; duplicates are kept |
| Admission.AdmissionSystem.NotifyObservers | src/FinalExam/UniversityAdmissionSystem.java:30-34 | exactly one update per registered observer, in registration order, each with the student's name and details |
| Admission.AdmissionSystemInstance.constructor | src/FinalExam/UniversityAdmissionSystem.java:13 | the static instance starts out null |
| Admission.AdmissionSystemInstance.GetInstance | src/FinalExam/UniversityAdmissionSystem.java:19-24 | the first call creates a new system with no observers; every later call returns that same object |
| Admission.GetInstanceTwice | src/FinalExam/UniversityAdmissionSystem.java:19-24 | two calls of getInstance return the same object |
| Admission.AdmissionFacade.constructor | src/FinalExam/UniversityAdmissionSystem.java:142-144 | the facade keeps the system it is given |
| Admission.AdmissionFacade.PerformAdmission | src/FinalExam/UniversityAdmissionSystem.java:146-148 | the same effect as the student's applyForAdmission on the facade's system: a null strategy throws with nothing changed; otherwise the department is set, then a null system throws, else every observer is notified in order; the selected department, details and marks are unchanged |
| Admission.Department.constructor | src/FinalExam/UniversityAdmissionSystem.java:158-160 | a new department with its name and an empty student list |
| Admission.Department.AddStudent | src/FinalExam/UniversityAdmissionSystem.java:162-164 | appends the student; a student may be in several departments |
| Admission.Department.Iterator | src/FinalExam/UniversityAdmissionSystem.java:167-169 | a new cursor at index 0 over the department's live list |
| Admission.DepartmentIterator.constructor | src/FinalExam/UniversityAdmissionSystem.java:177-179 | the cursor keeps the list itself and starts at 0 |
| Admission.DepartmentIterator.HasNext | src/FinalExam/UniversityAdmissionSystem.java:181-183 | true exactly when the index is below the list's size |
| Admission.DepartmentIterator.Next | src/FinalExam/UniversityAdmissionSystem.java:185-187 | returns the student at the index; the index always moves on by one, also past the end, where get throws IndexOutOfBoundsException |
| Admission.VisitDepartment | src/FinalExam/UniversityAdmissionSystem.java:343-347 | the demo's loop visits exactly the department's students in addStudent order |
| Admission.HandleAdmission | src/FinalExam/UniversityAdmissionSystem.java:240-254 | a test throws NullPointerException exactly when the marks are unset |
| Admission.HandleRequest | src/FinalExam/UniversityAdmissionSystem.java:198-231 | the only exception is NullPointerException: from unset registration details at the general check, or from an unset test or marks at a department handler |
| Admission.HandleRequestScans | src/FinalExam/UniversityAdmissionSystem.java:206-231 | a chain runs its checks left to right and stops at the first that passes or throws, which is the short-circuit order of both handlers |
| Admission.ScanIsDisjunction | src/FinalExam/UniversityAdmissionSystem.java:230 | when no check throws, the scan's verdict is the disjunction of the checks |
| Admission.TestsSetChecks | src/FinalExam/UniversityAdmissionSystem.java:228-231 | when every department handler has a test, every check of the chain is the general check or a set test |
| Admission.EligibleIffSomeCheckPasses | src/FinalExam/UniversityAdmissionSystem.java:206-231 | with details and marks set, a chain accepts a student exactly when some handler of it accepts: "Excellent" in the details, marks starting with "A" (CS), or containing "A+" (Mathematics) |
| Admission.DemoStudent1Eligible | src/FinalExam/UniversityAdmissionSystem.java:315-326 | the general handler finds student1 ("...Excellent") eligible |
| Admission.DemoStudent2NotEligible | src/FinalExam/UniversityAdmissionSystem.java:320-332 | the general handler finds student2 ("...Good") not eligible |
| Admission.DemoDepartmentEligibility | src/FinalExam/UniversityAdmissionSystem.java:302-304 | the CS handler accepts student1's "A+" marks, the Mathematics handler rejects student2's "B" with "Good" details |
| StudentIteration.StudentList.constructor | src/Practice/IteratorClient.java:64-66 | a new list is empty |
| StudentIteration.StudentList.AddStudent | src/Practice/IteratorClient.java:68-70 | appends the student at the end |
| StudentIteration.StudentList.GetStudents | src/Practice/IteratorClient.java:72-74 | hands out the list object itself |
| StudentIteration.StudentList.CreateIterator | src/Practice/IteratorClient.java:77-79 | a new cursor at position 0 over the live list |
| StudentIteration.StudentIterator.constructor | src/Practice/IteratorClient.java:89-92 | the cursor keeps the list and starts at 0 |
| StudentIteration.StudentIterator.HasNext | src/Practice/IteratorClient.java:95-97 | true exactly when the position is below the list's size |
| StudentIteration.StudentIterator.Next | src/Practice/IteratorClient.java:100-107 | the student at the position and one step on while there is one; null without moving once exhausted |
| StudentIteration.Traverse | src/Practice/IteratorClient.java:119-123 | the loop of main visits every student from the cursor on, in list order, and ends at the end |
| StudentIteration.LateAdditionIsVisited | src/Practice/IteratorClient.java:77-92 | a cursor created before an addStudent still visits the added student, because it reads the live list |
| StudentIteration.IndependentCursors | src/Practice/IteratorClient.java:77-107 | two cursors over one list move independently |
| NameRepository.NextStep | src/DesignPatterns/Iterator/classes/NameRepository.java:37-42 | next never throws; it returns the element at the cursor and advances exactly when the cursor is inside the array, and otherwise returns null and stays |
| NameRepository.PreviousStep | src/DesignPatterns/Iterator/classes/NameRepository.java:44-49 | previous as written throws exactly when the cursor is past the last element (and not at 0); it steps back whenever the cursor is above 0, even when it throws; inside the array it returns the element at the cursor, and at 0 null |
| NameRepository.NameRepository.GetIterator | src/DesignPatterns/Iterator/classes/NameRepository.java:7-25 | every call returns a fresh cursor at index 0 over its own copy of the four students |
| NameRepository.NameIterator.constructor | src/DesignPatterns/Iterator/classes/NameRepository.java:14-25 | the cursor starts at 0 over the four students, in declaration order |
| NameRepository.NameIterator.HasNext | src/DesignPatterns/Iterator/classes/NameRepository.java:29-34 | true exactly when the index is below the array's length |
| NameRepository.NameIterator.HasPrevious | src/DesignPatterns/Iterator/classes/NameRepository.java:52-57 | true exactly when the index is above 0 |
| NameRepository.NameIterator.Next | src/DesignPatterns/Iterator/classes/NameRepository.java:37-42 | the student at the index and one step on while one is left; null, without moving, at the end |
| NameRepository.NameIterator.Previous | src/DesignPatterns/Iterator/classes/NameRepository.java:44-49 | as written: the student at the index itself (not the one before it), then one step back; at index 4 the array access throws ArrayIndexOutOfBoundsException after the index has moved to 3; null without moving at 0 |
| NameRepository.NameIterator.PreviousCorrected | src/DesignPatterns/Iterator/classes/NameRepository.java:44-49 | the evidently intended previous(): one step back, then the student there; null without moving at 0 |
| NameRepository.NameIterator.MoveToLast | src/DesignPatterns/Iterator/classes/NameRepository.java:60-62 | the index becomes length - 1 |
| NameRepository.NameIterator.MoveToFirst | src/DesignPatterns/Iterator/classes/NameRepository.java:65-67 | the index becomes 0 |
| NameRepository.NextThenPreviousAsWritten | src/DesignPatterns/Iterator/classes/NameRepository.java:39-46 | next() then previous() returns names[i+1] (not names[i]) and restores the index, and throws once i is the last index |
| NameRepository.PreviousAtEndThrows | src/DesignPatterns/Iterator/classes/NameRepository.java:44-49 | previous() after a full forward traversal (index 4) throws |
| NameRepository.NextThenPreviousCorrected | src/DesignPatterns/Iterator/classes/NameRepository.java:39-46 | with the corrected previous(), next() then previous() returns the same student and restores the index |
| NameRepository.PreviousCorrectedThenNext | src/DesignPatterns/Iterator/classes/NameRepository.java:39-46 | with the corrected previous(), previous() then next() returns the same student and restores the index |
| NameRepository.PreviousCorrectedInBounds | src/DesignPatterns/Iterator/classes/NameRepository.java:44-49 | the corrected previous() never throws and keeps the index within 0 and the length |
| NameRepository.TraverseForward | src/DesignPatterns/Iterator/main/IteratorPatternDemo.java:35-45 | the loop of printAllStudents visits the four students in order and leaves the index at 4 |
| Loggers.Logger.constructor | src/DesignPatterns/ChainOfResponsibility/Loggers/classes/ConsoleLogger.java:7-9 | a new logger has its kind and threshold level and no successor |
| Loggers.Logger.SetNextLogger | src/DesignPatterns/ChainOfResponsibility/Loggers/abstractClasses/AbstractLogger.java:15-17 | replaces the successor |
| Loggers.Logger.LogMessage | src/DesignPatterns/ChainOfResponsibility/Loggers/abstractClasses/AbstractLogger.java:19-26 | the loggers that write are exactly Writers of the chain: every logger whose level is at most the message level, in chain order, the whole chain being visited |
| Loggers.Logger.ActiveLogger | src/DesignPatterns/ChainOfResponsibility/Loggers/abstractClasses/AbstractLogger.java:32-43 | the logger that writes is ActiveWriter of the chain: the first whose level is at most the message level; none ("This feature is not available") when no logger qualifies |
| Loggers.WritersSpec | src/DesignPatterns/ChainOfResponsibility/Loggers/abstractClasses/AbstractLogger.java:19-26 | a logger writes under logMessage exactly when it is in the chain and its level is at most the message level |
| Loggers.ActiveIsFirstWriter | src/DesignPatterns/ChainOfResponsibility/Loggers/abstractClasses/AbstractLogger.java:19-43 | activeLogger writes at the first logger logMessage writes at, and reports "not available" exactly when logMessage writes nowhere |
| Loggers.ActiveWriterSpec | src/DesignPatterns/ChainOfResponsibility/Loggers/abstractClasses/AbstractLogger.java:32-43 | activeLogger's writer is in the chain, qualifies, and every logger before it does not; none exactly when no logger qualifies |
| Loggers.GetChainOfLoggers | src/DesignPatterns/ChainOfResponsibility/Loggers/mainClass/ChainPatternDemo.java:11-21 | builds the null-terminated chain Error(ERROR=3), File(DEBUG=2), Console(INFO=1), Database(WARNING=4) |
| Loggers.GetActiveChainLogger | src/DesignPatterns/ChainOfResponsibility/Loggers/mainClass/ChainPatternDemo.java:23-32 | builds the null-terminated chain Error(ERROR), File(DEBUG), Console(INFO) |
| Loggers.ActiveChainRouting | src/DesignPatterns/ChainOfResponsibility/Loggers/mainClass/ChainPatternDemo.java:51-55 | on the three-logger chain, activeLogger sends INFO to the console, DEBUG to the file, ERROR and WARNING to the error logger |
| Loggers.FullChainBroadcast | src/DesignPatterns/ChainOfResponsibility/Loggers/mainClass/ChainPatternDemo.java:11-21 | on the four-logger chain, logMessage writes WARNING at every logger, ERROR at all but the database logger, INFO only at the console |
| SupportChain.SupportHandler.constructor | src/Practice/ChainOfResponsibility.java:9-64 | a new handler of the given level has no successor |
| SupportChain.SupportHandler.SetNextHandler | src/Practice/ChainOfResponsibility.java:21-24 | replaces the successor |
| SupportChain.SupportHandler.HandleRequest | src/Practice/ChainOfResponsibility.java:12-58 | the line printed is the chain's Outcome: the first handler that handles the request prints its line, and past the end of the chain "Request cannot be handled." |
| SupportChain.OutcomeSpec | src/Practice/ChainOfResponsibility.java:12-58 | a request no handler of the chain handles prints "Request cannot be handled."; otherwise the first handler that handles it prints its own line |
| SupportChain.HandledLineEndsWithRequest | src/Practice/ChainOfResponsibility.java:30-53 | a handled line ends with the request it handled and is never the refusal |
| SupportChain.BuildSupportChain | src/Practice/ChainOfResponsibility.java:62-67 | builds the null-terminated chain LevelOne, LevelTwo, LevelThree |
| SupportChain.SupportChainRouting | src/Practice/ChainOfResponsibility.java:69-71 | on the chain of main each known request is handled by its own level |
| SupportChain.UnknownRequestFallsOff | src/Practice/ChainOfResponsibility.java:72 | "Unknown Request" falls off the end of any chain and is refused |
| StrategyChain.DoOperation | src/DesignPatterns/Strategy/classes/OperationAdd.java:11-13 | the Java int result: the exact sum, difference or product when it fits in 32 bits, and always congruent to it modulo 2^32 |
| StrategyChain.InBandExact | src/DesignPatterns/Strategy/classes/OperationMultiply.java:13-15 | inside its band no operation overflows; a product in the multiply band lies between 1,000,000 and 25,000,000 |
| StrategyChain.ProductInBand | src/DesignPatterns/Strategy/classes/OperationMultiply.java:14-15 | two factors in [1000, 5000] have a product in [1,000,000, 25,000,000] |
| StrategyChain.ComputeInRangeSpec | src/DesignPatterns/Strategy/classes/OperationAdd.java:17-24 | computeInRange gives the exact result of the first node of the chain whose band holds both arguments, and 0 when no node's band does |
| StrategyChain.ComputeInRangeFirst | src/DesignPatterns/Strategy/classes/OperationSubtract.java:20-27 | when node i is the first whose band holds the pair, the chain returns node i's exact result |
| StrategyChain.ComputeInRangeNone | src/DesignPatterns/Strategy/classes/OperationMultiply.java:13-20 | when no node's band holds the pair, the chain returns 0 |
| StrategyChain.StandaloneOutsideBand | src/DesignPatterns/Strategy/classes/OperationSubtract.java:8-27 | a node with no successor (the no-argument Subtract, or Multiply) gives 0 outside its band |
| StrategyChain.ExecuteStrategy | src/DesignPatterns/Strategy/Context/Context.java:16-18 | runs the configured operation; the exact result whenever it fits in a Java int |
| StrategyChain.ContextBands | src/DesignPatterns/Strategy/Context/Context.java:19-22 | a + b when both are in [0,100], else a - b when both are in [100,1000], else a * b when both are in [1000,5000], else 0; the configured strategy plays no part |
| StrategyChain.ContextExamples | src/DesignPatterns/Strategy/Context/Context.java:19-22 | band edges go to the earlier node and split pairs fall through: (100,100) gives 200, (1000,1000) gives 0, (10,500) gives 0, (10,5) gives 15, (10000,20000) gives 0 |
| CompositeBox.Box.Leaf | src/Practice/composite/CompositeBox.java:22-25 | a leaf box with its kind, name and price and no children |
| CompositeBox.Box.Composite | src/Practice/composite/CompositeBox.java:143-173 | a SmallBox or BigBox starts with an empty list of boxes |
| CompositeBox.Box.Add | src/Practice/composite/CompositeBox.java:28-193 | a composite appends the box to its list; a leaf ignores the call |
| CompositeBox.Box.Remove | src/Practice/composite/CompositeBox.java:33-197 | a composite removes the first occurrence of the box, if any; a leaf ignores the call |
| CompositeBox.Box.CalculatePrice | src/Practice/composite/CompositeBox.java:38-182 | a leaf's own price; a composite's is the Java-int (wrapped) sum of its children's prices, for any acyclic structure |
| CompositeBox.SumPricesAppend | src/Practice/composite/CompositeBox.java:146-152 | the price of two concatenated lists of boxes is the sum of their prices |
| CompositeBox.SumPricesStep | src/Practice/composite/CompositeBox.java:148-150 | one pass of the loop adds exactly the next child's price |
| CompositeBox.SumPricesAdd | src/Practice/composite/CompositeBox.java:161-163 | adding a box to a composite raises its price by that box's price |
| CompositeBox.SumPricesRemove | src/Practice/composite/CompositeBox.java:166-168 | removing a present box lowers a composite's price by that box's price; removing an absent one changes nothing |
| CompositeBox.SumPricesSplice | src/Practice/composite/CompositeBox.java:166-168 | taking one box out of the middle of a list lowers its sum by that box's price |
| CompositeBox.RankedBelowSlice | src/Practice/composite/CompositeBox.java:146-152 | every slice of a list of lower-ranked boxes is itself lower-ranked |
| CompositeBox.BuildDemo | src/Practice/composite/CompositeBox.java:203-222 | builds the four leaves with prices 1000, 500, 50 and 10, the small box [product, game] and the big box [toy, book, small] |
| CompositeBox.BuildSmallBox | src/Practice/composite/CompositeBox.java:203-214 | the small box of the demo holds exactly the laptop (1000) and the PS5 (500), in that order |
| CompositeBox.DemoRanked | src/Practice/composite/CompositeBox.java:210-222 | the demo structure is acyclic: leaves rank 0, the small box 1, the big box 2 |
| CompositeBox.DemoPrices | src/Practice/composite/CompositeBox.java:231-232 | the small box costs 1500 and the big box 1560 |
| CompositeBox.SmallBoxPrice | src/Practice/composite/CompositeBox.java:214-231 | a composite holding the 1000 and 500 leaves costs 1500 |
| CompositeBox.BigBoxPrice | src/Practice/composite/CompositeBox.java:218-232 | a composite holding the 50 and 10 leaves and a 1500 box costs 1560 |
| CompositeBox.SumPricesThree | src/Practice/composite/CompositeBox.java:146-152 | a three-box list costs the sum of the three prices |
| CompositeBox.Demo | src/Practice/composite/CompositeBox.java:201-233 | the program's run computes 1500 for the small box and 1560 for the big box |
| Employees.Employee.constructor | src/DesignPatterns/Composite/Main.java:16-109 | the employee keeps its role, name and salary; a Director or Hod (and only they) gets a new, empty subordinate list |
| Employees.Employee.GiveBonus | src/DesignPatterns/Composite/Main.java:21-23 | the salary rises by the bonus, wrapping around as a Java int |
| Employees.Employee.Add | src/DesignPatterns/Composite/Main.java:39-70 | appends the employee to the subordinate list |
| Employees.Employee.Remove | src/DesignPatterns/Composite/Main.java:43-74 | removes the first occurrence of the employee from the subordinate list, if any |
| Employees.Employee.GetSubordinates | src/DesignPatterns/Composite/Main.java:47-78 | hands out the list object itself |
| Employees.BonusesAccumulate | src/DesignPatterns/Composite/Main.java:21-23 | two bonuses in a row leave the same salary as their sum paid at once, wrap-around included; within the int range the salary rises by exactly that sum |
| Employees.DirectorBonusStaysLocal | src/DesignPatterns/Composite/Main.java:21-37 | a bonus to a director changes only the director's salary: subordinates and the subordinate list stay as they were |
| MementoStructure.Originator.constructor | src/Practice/MementoStructure.java:26-27 | a new originator's state is null |
| MementoStructure.Originator.SetState | src/Practice/MementoStructure.java:29-31 | the state becomes the given one |
| MementoStructure.Originator.GetState | src/Practice/MementoStructure.java:33-35 | returns the current state |
| MementoStructure.Originator.SaveStateToMemento | src/Practice/MementoStructure.java:37-51 | a memento holding the current state; the originator is unchanged |
| MementoStructure.Originator.GetStateFromMemento | src/Practice/MementoStructure.java:41-55 | the state becomes the memento's |
| MementoStructure.CareTaker.constructor | src/Practice/MementoStructure.java:59 | a new caretaker holds no mementos |
| MementoStructure.CareTaker.Add | src/Practice/MementoStructure.java:61-63 | appends the memento |
| MementoStructure.CareTaker.Get | src/Practice/MementoStructure.java:65-67 | the index-th memento added; IndexOutOfBoundsException outside 0 to size - 1 |
| MementoStructure.SaveChangeRestore | src/Practice/MementoStructure.java:37-43 | save, any number of setState calls, then restore from the saved memento gives back the state at the time of saving; just before the restore the state is the last change made (the saved state when none was made) |
| MementoStructure.Demo | src/Practice/MementoStructure.java:70-88 | the program's current state is "State #4", the first saved "State #2", the second "State #3" |
| SubjectObserver.Observer.constructor | src/DesignPatterns/Observer/abstractClasses/Observer.java:5-7 | a new observer has received no update calls |
| SubjectObserver.Observer.Update | src/DesignPatterns/Observer/abstractClasses/Observer.java:7 | each update call is counted once, and its console line is written after all earlier ones |
| SubjectObserver.Subject.constructor | src/DesignPatterns/Observer/subjectClasses/Subject.java:9-10 | a new subject has no observers and state 0 |
| SubjectObserver.Subject.GetState | src/DesignPatterns/Observer/subjectClasses/Subject.java:12-14 | returns the last state set |
| SubjectObserver.Subject.SetState | src/DesignPatterns/Observer/subjectClasses/Subject.java:16-19 | stores the state, then every observer gets one update per entry of the list, in list order (the console receives exactly the list, appended); the list is unchanged |
| SubjectObserver.Subject.Attach | src/DesignPatterns/Observer/subjectClasses/Subject.java:21-23 | appends the observer, duplicates included; the state is unchanged |
| SubjectObserver.Subject.NotifyAllObservers | src/DesignPatterns/Observer/subjectClasses/Subject.java:25-29 | every observer gets exactly as many update calls as it has entries in the list, and the updates happen in list order: the console receives exactly the list, appended |
| SubjectObserver.Subject.Detach | src/DesignPatterns/Observer/subjectClasses/Subject.java:31-43 | removes only the first occurrence (none for an absent observer); the state is unchanged |
| SubjectObserver.AttachDetachCounts | src/DesignPatterns/Observer/subjectClasses/Subject.java:21-37 | each attach adds one update per notification; detaching right after attaching a new observer restores the list exactly |
| RestaurantObserver.Observer.constructor | src/Practice/ObserverPattern.java:95-109 | a new observer has received no update calls |
| RestaurantObserver.Observer.Update | src/Practice/ObserverPattern.java:91-93 | each update call is counted once, and its console line is written after all earlier ones |
| RestaurantObserver.Restaurant.constructor | src/Practice/ObserverPattern.java:72 | a new restaurant has no observers |
| RestaurantObserver.Restaurant.RegisterObserver | src/Practice/ObserverPattern.java:74-76 | appends the observer, duplicates included |
| RestaurantObserver.Restaurant.RemoveObserver | src/Practice/ObserverPattern.java:78-80 | removes the first occurrence; an absent observer changes nothing |
| RestaurantObserver.Restaurant.NotifyObservers | src/Practice/ObserverPattern.java:82-86 | every observer gets exactly as many update calls as it has entries in the list, in list order (the console receives exactly the list, appended); none with an empty list |
| RestaurantObserver.Demo | src/Practice/ObserverPattern.java:114-126 | main registers owner, cook and waiter in that order and never notifies, so none of them is updated |
| RestaurantObserver.SubmittedIffCook | src/Practice/ObserverPattern.java:38-51 | a complaint is submitted exactly when it is about the cook, once, as the last step |
| RestaurantObserver.Complaint | src/Practice/ObserverPattern.java:58-62 | a customer's complaint is always about the cook and is submitted |
| PracticeFlyweight.Flyweight.constructor | src/Practice/flyweight/FlyWeightStructure.java:49-65 | the flyweight keeps its kind and intrinsic state |
| PracticeFlyweight.FlyweightFactory.constructor | src/Practice/flyweight/FlyWeightStructure.java:75 | the cache starts empty |
| PracticeFlyweight.FlyweightFactory.GetFlyweight | src/Practice/flyweight/FlyWeightStructure.java:77-86 | a cached key returns the stored object and adds nothing; a missing key creates one new object (shared "Shared" for exactly "shared", unshared "Unshared" otherwise), stores it and changes no other entry |
| PracticeFlyweight.RepeatedRequestsShare | src/Practice/flyweight/FlyWeightStructure.java:78 | two requests for one key return the identical object, and at most one entry is added, none replaced |
| PracticeFlyweight.FontFlyweight.constructor | src/Practice/flyweight/TextEditorFlyWeight.java:16-20 | the font keeps its name, size and colour |
| PracticeFlyweight.FontKey | src/Practice/flyweight/TextEditorFlyWeight.java:34 | the key starts with the given key and an underscore and ends with the colour |
| PracticeFlyweight.FontKeyCollision | src/Practice/flyweight/TextEditorFlyWeight.java:34 | the joined key makes different tuples collide: ("a_b", "c") and ("a", "b_c") give the same key |
| PracticeFlyweight.FontFlyweightFactory.constructor | src/Practice/flyweight/TextEditorFlyWeight.java:31 | the cache starts empty, with distinct keys holding distinct fonts |
| PracticeFlyweight.FontFlyweightFactory.GetFont | src/Practice/flyweight/TextEditorFlyWeight.java:33-36 | the font cached under key_name_size_colour, or a new one made from these arguments and stored under it; distinct keys keep distinct fonts and the map only grows |
| PracticeFlyweight.EditorDemo | src/Practice/flyweight/TextEditorFlyWeight.java:45-52 | the two identical Arial requests share one font and the Times New Roman request gets another |
| PracticeFlyweight.CollidingArgumentsShare | src/Practice/flyweight/TextEditorFlyWeight.java:34-35 | colliding arguments share one font, which keeps the first caller's attributes |
| TreeFlyweight.TreeKey | src/DesignPatterns/Flyweight/TreeFactory.java:11 | the key is the three strings run together with no separator: its length is the sum of theirs, the name first and the other tree data last |
| TreeFlyweight.TreeKeyCollision | src/DesignPatterns/Flyweight/TreeFactory.java:11 | the key sees only the concatenation: ("Oak", "Red") and ("Oa", "kRed") give the same key |
| TreeFlyweight.TreeType.constructor | src/DesignPatterns/Flyweight/TreeType.java:13-19 | the type keeps all five arguments |
| TreeFlyweight.TreeFactory.constructor | src/DesignPatterns/Flyweight/TreeFactory.java:8 | the static map starts empty |
| TreeFlyweight.TreeFactory.GetTreeType | src/DesignPatterns/Flyweight/TreeFactory.java:10-20 | a hit returns the stored type and adds nothing; a miss creates a type from all five arguments and stores it under name + color + otherTreeData |
| TreeFlyweight.FruitDataIgnoredOnHit | src/DesignPatterns/Flyweight/TreeFactory.java:11-19 | a request differing only in isFruitTree and countOfFruits gets the type created first, with its fruit data |
| TreeFlyweight.BasicTreeType.constructor | src/DesignPatterns/Flyweight/BasicTreeType.java:8-10 | the type keeps its color |
| TreeFlyweight.TreeTypeFactory.constructor | src/DesignPatterns/Flyweight/TreeTypeFactory.java:9 | the static map starts empty |
| TreeFlyweight.TreeTypeFactory.GetTreeType | src/DesignPatterns/Flyweight/TreeTypeFactory.java:11-21 | a hit returns the stored type and adds nothing; a miss stores a new BasicTreeType built from the color alone |
| TreeFlyweight.RequestsOnlyGrow | src/DesignPatterns/Flyweight/TreeTypeFactory.java:9-17 | after any sequence of requests every earlier key still maps to the same object and every requested key is present |
| ServiceLocation.Service.constructor | src/DesignPatterns/ServiceLocator/source/EmailService.java:3-7 | a service of the given kind, whose getName is its kind's name |
| ServiceLocation.LookupIgnoresCase | src/DesignPatterns/ServiceLocator/source/InitialContext.java:5-8 | names equal ignoring case look up the same kind, and a known name is one of the two service names in some letter case |
| ServiceLocation.InitialContext.Lookup | src/DesignPatterns/ServiceLocator/source/InitialContext.java:4-13 | a new EmailService for "EmailService" in any letter case, else a new SmsService for "SmsService" in any letter case, else null |
| ServiceLocation.ServiceCache.constructor | src/DesignPatterns/ServiceLocator/source/ServiceCache.java:10-12 | the cache starts empty |
| ServiceLocation.ServiceCache.GetService | src/DesignPatterns/ServiceLocator/source/ServiceCache.java:14-16 | the service stored under the exact name, or null |
| ServiceLocation.ServiceCache.AddService | src/DesignPatterns/ServiceLocator/source/ServiceCache.java:18-20 | stores the service under the name, replacing any earlier one there; other names are unchanged |
| ServiceLocation.ServiceCache.ContainsService | src/DesignPatterns/ServiceLocator/source/ServiceCache.java:22-24 | true exactly when the name has an entry |
| ServiceLocation.NotificationServiceLocator.constructor | src/DesignPatterns/ServiceLocator/source/NotificationServiceLocator.java:5-6 | the static cache starts empty |
| ServiceLocation.NotificationServiceLocator.GetService | src/DesignPatterns/ServiceLocator/source/NotificationServiceLocator.java:8-25 | a cached service is returned and the cache kept; on a miss a looked-up NotificationService is cached under the exact name asked for and returned; anything else gives null and caches nothing |
| ServiceLocation.CacheKeyedByExactName | src/DesignPatterns/ServiceLocator/source/NotificationServiceLocator.java:9-18 | a cached name keeps giving the same object, while "emailservice" gets a second, distinct EmailService after "EmailService" was cached |
| ServiceLocation.Cache.constructor | src/DesignPatterns/ServiceLocator/source/ServiceLocator.java:10-12 | the static cache starts empty |
| ServiceLocation.Cache.GetService | src/DesignPatterns/ServiceLocator/source/ServiceLocator.java:15 | a cached service the name matches, or null when none does |
| ServiceLocation.Cache.AddService | src/DesignPatterns/ServiceLocator/source/ServiceLocator.java:24 | appends the service |
| ServiceLocation.ServiceLocator.constructor | src/DesignPatterns/ServiceLocator/source/ServiceLocator.java:8-12 | the locator's cache starts empty |
| ServiceLocation.ServiceLocator.GetService | src/DesignPatterns/ServiceLocator/source/ServiceLocator.java:14-28 | a cache hit is returned with no lookup; on a miss a fresh context's non-null result is cached and returned, and null is returned uncached |
| ServiceLocation.DeliveredIsPrefixed | src/DesignPatterns/ServiceLocator/source/NotificationDecorator.java:16-19 | the message reaching the plain service carries every decorator's prefix, the outermost decorator's nearest the message |
| ServiceLocation.NameIsInnermost | src/DesignPatterns/ServiceLocator/source/NotificationDecorator.java:11-14 | a decorator's getName is the name of the plain service it wraps |
| ServiceLocation.DecoratorOrder | src/DesignPatterns/ServiceLocator/source/EncryptionDecorator.java:9-17 | encryption is not idempotent, and a signature around an encryption delivers "Encrypted: Digitally Signed: m" |
| VehiclePrototype.Vehicle.constructor | src/Practice/Exam.java:21-96 | the vehicle keeps its brand, model, colour and its subtype's field (top speed or capacity) |
| VehiclePrototype.Vehicle.Clone | src/Practice/Exam.java:27-106 | a new object of the same subtype with every field copied |
| VehiclePrototype.CacheKeyParts | src/Practice/Exam.java:61 | the registry key is the brand, one space, then the model; for brands of equal length two vehicles share a key exactly when brand and model agree |
| VehiclePrototype.PutAllKeys | src/Practice/Exam.java:60-62 | putting a list adds exactly the "brand model" keys of its vehicles and leaves every other entry as it was |
| VehiclePrototype.PutAllLastWins | src/Practice/Exam.java:60-62 | the entry for a key is the last vehicle of the list with that key, stored itself rather than a copy |
| VehiclePrototype.VehicleCache.constructor | src/Practice/Exam.java:48-54 | the registry starts with "Bugatti Chiron" (a blue car, 261) and "Mercedes Setra" (a white bus, 48) |
| VehiclePrototype.VehicleCache.Get | src/Practice/Exam.java:56-58 | a new clone of the stored vehicle, never the stored object; an absent key dereferences null and throws NullPointerException |
| VehiclePrototype.VehicleCache.Put | src/Practice/Exam.java:60-62 | stores each vehicle of the list in order under its "brand model" key, replacing any entry there |
| VehiclePrototype.ExamDemo | src/Practice/Exam.java:114-130 | after putting the car and the bus, "car_brand car_model" gives a copy of the car (top speed 300), not the car itself |
| Zombies.Hit | src/Practice/Main.java:28 | health -= d on a Java int: exactly health - d whenever that stays in the int range |
| Zombies.Damage | src/Practice/Main.java:10-22 | a normal attack deals 1 and a special attack 5; 5 exactly for the special attack |
| Zombies.HealthAfter | src/Practice/Main.java:27-34 | n hits of a damage that is not negative lower the health by exactly n times the damage while that stays an int |
| Zombies.Zombie.constructor | src/Practice/Main.java:25-51 | a Type1 zombie starts with 200 health and a Type2 with 300, replacing the base 100; no deaths yet |
| Zombies.Zombie.TakeDamage | src/Practice/Main.java:27-34 | health drops by the damage with no floor, and die() runs exactly when the new health is at or below zero |
| Zombies.Player.constructor | src/Practice/Main.java:53-54 | a new player has no attack strategy |
| Zombies.Player.SetAttackStrategy | src/Practice/Main.java:56-58 | replaces the attack strategy |
| Zombies.Player.OnCollisionEnter | src/Practice/Main.java:10-64 | no zombie: nothing happens; no strategy: NullPointerException and the zombie unchanged; otherwise the zombie takes 1 (normal) or 5 (special) damage |
| Zombies.NormalHits | src/Practice/Main.java:13-34 | n normal hits lower health by exactly n, past zero, and die() runs on the hit that reaches zero and on every hit after it |
| Zombies.Type1Deaths | src/Practice/Main.java:42-44 | a Type1 zombie survives 199 normal hits, dies on the 200th and dies again on the 201st, at -1 health |
| Zombies.MainDemo | src/Practice/Main.java:68-85 | main leaves the zombies at 194 and 294 health, with no deaths |
| BookControl.BookModel.constructor | src/Controller/with/BookController.java:7 | a new model's name and author are null and its price 0.0 |
| BookControl.SetThenShow | src/Controller/with/BookController.java:10-26 | a name of at most 30 characters, 30 included, is stored and read back (as null when empty); a longer one leaves the stored value as it was |
| BookControl.SetPriceKeepsValid | src/Controller/with/BookController.java:46-53 | a positive price is stored, any other leaves the price as it was, so the price stays 0 or positive |
| BookControl.BookController.constructor | src/Controller/with/BookController.java:6-8 | a new controller owns a new model with null name and author and price 0.0 |
| BookControl.BookController.SetBookName | src/Controller/with/BookController.java:10-17 | stores the name when it has at most 30 characters, otherwise keeps the old one; nothing else changes |
| BookControl.BookController.GetBookName | src/Controller/with/BookController.java:19-26 | null for an empty name, the name otherwise; a null name throws NullPointerException |
| BookControl.BookController.SetBookAuthor | src/Controller/with/BookController.java:28-35 | stores the author when it has at most 30 characters, otherwise keeps the old one; nothing else changes |
| BookControl.BookController.GetBookAuthor | src/Controller/with/BookController.java:37-44 | null for an empty author, the author otherwise; a null author throws NullPointerException |
| BookControl.BookController.SetBookPrice | src/Controller/with/BookController.java:46-53 | stores the price when it is above 0, otherwise keeps the old one; nothing else changes |
| BookControl.BookController.GetBookPrice | src/Controller/with/BookController.java:55-62 | both branches give the stored price, which is 0 or positive |
| BookControl.NameLengthBoundary | src/Controller/with/BookController.java:12-21 | reading before any write throws; a 30-character name is accepted and read back and a 31-character one is rejected |
| ProxyPattern.RealImage.constructor | src/DesignPatterns/Proxy/VirtualProxyImage.java:15 | a real image for the file name, not yet displayed |
| ProxyPattern.RealImage.Display | src/DesignPatterns/Proxy/VirtualProxyImage.java:23 | each display is counted once |
| ProxyPattern.SupportedExamples | src/DesignPatterns/Proxy/VirtualProxyImage.java:14 | the suffix test is case-sensitive and needs the dot: "photo.jpg" and "icon.png" load, "photo.JPG", "photojpg" and "photo.gif" do not |
| ProxyPattern.VirtualProxyImage.constructor | src/DesignPatterns/Proxy/VirtualProxyImage.java:7-9 | the proxy keeps the file name and has no real image yet |
| ProxyPattern.VirtualProxyImage.Display | src/DesignPatterns/Proxy/VirtualProxyImage.java:12-25 | a name ending in ".jpg" or ".png" shows the real image, created on the first call and reused after; any other name shows the placeholder every time and never creates one |
| ProxyPattern.DisplayTwice | src/DesignPatterns/Proxy/VirtualProxyImage.java:13-23 | displaying twice loads the image once and displays it twice |
| ProxyPattern.AnswerEntryInjective | src/DesignPatterns/Proxy/RealExam.java:22 | different students leave different entries |
| ProxyPattern.RealExam.constructor | src/DesignPatterns/Proxy/RealExam.java:10-16 | the exam starts with the two question entries |
| ProxyPattern.RealExam.ShowResultsForStudent | src/DesignPatterns/Proxy/RealExam.java:19-26 | appends exactly the student's entry and shows the whole list |
| ProxyPattern.RealExam.ShowResultsForTeacher | src/DesignPatterns/Proxy/RealExam.java:29-33 | shows the list and changes nothing |
| ProxyPattern.RepeatedStudent | src/DesignPatterns/Proxy/RealExam.java:19-33 | the list is append-only: a student shown twice leaves two identical entries |
| BuilderPattern.RunSetsItsParts | src/Practice/Builder.java:47-59 | a run of build steps sets exactly the parts whose steps it contains and leaves the others as they were |
| BuilderPattern.ConstructCompletes | src/Practice/Builder.java:93-97 | the director's sequence completes any product, and the reverse order gives the same parts |
| BuilderPattern.Product.constructor | src/Practice/Builder.java:67-70 | a new product has all three parts null |
| BuilderPattern.ConcreteBuilder.constructor | src/Practice/Builder.java:42-44 | the builder owns a new, empty product |
| BuilderPattern.ConcreteBuilder.BuildPartA | src/Practice/Builder.java:47-49 | sets part A to "Part A" and nothing else |
| BuilderPattern.ConcreteBuilder.BuildPartB | src/Practice/Builder.java:52-54 | sets part B to "Part B" and nothing else |
| BuilderPattern.ConcreteBuilder.BuildPartC | src/Practice/Builder.java:57-59 | sets part C to "Part C" and nothing else |
| BuilderPattern.ConcreteBuilder.GetResult | src/Practice/Builder.java:62-64 | always the one product the builder owns |
| BuilderPattern.Construct | src/Practice/Builder.java:93-97 | runs steps A, B, C in order, which completes the product |
| BuilderPattern.BuilderClient | src/Practice/Builder.java:101-108 | the product taken from the builder after construct has all three parts |
| MessagingVisitor.Client.constructor | src/Practice/visitor/MessagingVisitorApp.java:28-33 | a new client has the given name, address and phone, its kind, and a loan of 0 |
| MessagingVisitor.Client.SetLoanAmount | src/Practice/visitor/MessagingVisitorApp.java:24-26 | the loan becomes the given amount |
| MessagingVisitor.SendInsuranceMessage | src/Practice/visitor/MessagingVisitorApp.java:93-98 | one insurance report per list entry, in list order, each naming the entry's kind and name; no client changes |
| MessagingVisitor.SendLoanMessage | src/Practice/visitor/MessagingVisitorApp.java:123-155 | one loan report per entry, in order, each with a draw in [0, 100000); every client ends with the amount of its last report |
| MessagingVisitor.LoansInRange | src/Practice/visitor/MessagingVisitorApp.java:131-132 | after a loan pass every listed client's loan is in [0, 100000) |
| MessagingVisitor.VisitorApp | src/Practice/visitor/MessagingVisitorApp.java:158-171 | the insurance pass then the loan pass over the four clients leaves every loan in range |
| TcpState.OpenResponse | src/Practice/state/TCPConnectionClient.java:37-88 | open answers "already established" exactly in the established state and "opening" in the other two |
| TcpState.CloseResponse | src/Practice/state/TCPConnectionClient.java:37-88 | close answers "closing" exactly in the established state and "already closed" in the other two |
| TcpState.AcknowledgeResponse | src/Practice/state/TCPConnectionClient.java:37-88 | acknowledge answers "acknowledging" exactly in the established state and "not established yet" in the other two |
| TcpState.ListenAndClosedAgree | src/Practice/state/TCPConnectionClient.java:37-88 | Listen and Closed give the same answer to every operation; Established differs from them on each operation and is the only state with its answers |
| TcpState.TCPConnection.constructor | src/Practice/state/TCPConnectionClient.java:8-10 | the connection starts in the given state |
| TcpState.TCPConnection.SetState | src/Practice/state/TCPConnectionClient.java:12-14 | the current state becomes the given one |
| TcpState.TCPConnection.Open | src/Practice/state/TCPConnectionClient.java:16-18 | the answer is the current state's open answer; nothing changes |
| TcpState.TCPConnection.Close | src/Practice/state/TCPConnectionClient.java:20-22 | the answer is the current state's close answer; nothing changes |
| TcpState.TCPConnection.Acknowledge | src/Practice/state/TCPConnectionClient.java:24-26 | the answer is the current state's acknowledge answer; nothing changes |
| TcpState.ConnectionClient | src/Practice/state/TCPConnectionClient.java:90-105 | the nine answers of the run through Closed, Listen and Established, in order |
| Interpreter.Interpret | src/DesignPatterns/interpreter/SonExpression.java:13-15 | an expression can only hold on a context at least as long as each of its two names |
| Interpreter.InterpretSpec | src/DesignPatterns/interpreter/SonExpression.java:13-15 | a son expression holds exactly when both names occur somewhere in the context; swapping the names or the kind of child changes nothing |
| Interpreter.EmptyNameMatches | src/DesignPatterns/interpreter/DaughterExpression.java:12-14 | an empty parent name matches every context, so only the child's name decides |
| Interpreter.ContainsTransitive | src/DesignPatterns/interpreter/SonExpression.java:14 | a context containing a phrase contains every name the phrase contains |
| Interpreter.SonExample | src/DesignPatterns/interpreter/InterpreterPatternDemo.java:20-38 | the demo's rule SonExpression("Robert", "Stuart") holds on "Stuart is a son of Robert" |
| Interpreter.DaughterExample | src/DesignPatterns/interpreter/InterpreterPatternDemo.java:25-39 | the demo's rule DaughterExpression("Julie", "Samantha") holds on "Samantha is a daughter of Julie" |
| Interpreter.SonExampleSwapped | src/DesignPatterns/interpreter/SonExpression.java:14 | the names may appear in either order in the context |
| Interpreter.SonExampleMissingParent | src/DesignPatterns/interpreter/SonExpression.java:14 | a context without the parent's name is rejected |
| GrammarChecks.HasSpaceSpec | src/DesignPatterns/Singleton/with/GrammarCheck.java:16-18 | check holds exactly when some character of the sentence is a space |
| GrammarChecks.GrammarCheck.Check | src/DesignPatterns/Singleton/with/GrammarCheck.java:16-18 | the answer is whether the sentence contains a space |
| GrammarChecks.GrammarCheckInstance.constructor | src/DesignPatterns/Singleton/with/GrammarCheck.java:4 | the static instance starts null |
| GrammarChecks.GrammarCheckInstance.GetInstance | src/DesignPatterns/Singleton/with/GrammarCheck.java:9-14 | the first call creates the instance; every later call returns that same object |
| GrammarChecks.RunFromBody | src/DesignPatterns/src/Singleton/with/GrammerCheck.java:16-18 | after the capital, the matcher accepts exactly a rest free of line terminators that ends in a period |
| GrammarChecks.RunFromDead | src/DesignPatterns/src/Singleton/with/GrammerCheck.java:16-18 | once the match has failed it stays failed |
| GrammarChecks.AcceptsIffMatches | src/DesignPatterns/src/Singleton/with/GrammerCheck.java:16-18 | the character-by-character matcher accepts exactly the texts matching ^[A-Z].*[.]$ |
| GrammarChecks.PatternExamples | src/DesignPatterns/src/Singleton/with/GrammerCheck.java:16-18 | "A." matches; "A", "a.", "Hello world" and a text with a line break do not |
| GrammarChecks.GrammerCheck.Check | src/DesignPatterns/src/Singleton/with/GrammerCheck.java:16-18 | the answer is whether the whole text matches the pattern |
| GrammarChecks.GrammerCheckInstance.constructor | src/DesignPatterns/src/Singleton/with/GrammerCheck.java:4 | the static instance starts null |
| GrammarChecks.GrammerCheckInstance.GetInstance | src/DesignPatterns/src/Singleton/with/GrammerCheck.java:9-14 | the first call creates the instance; every later call returns that same object |
| GrammarChecks.SingletonShared | src/DesignPatterns/src/Singleton/with/GrammerCheck.java:9-18 | two calls to getInstance give the same object, and it accepts "A." |
| MediaAdapterPattern.SelectPlayer | src/DesignPatterns/Adapter/adapterClasses/MediaAdapter.java:11-17 | the adapter holds a player exactly for "vlc" or "mp4" in any letter case, and the VLC player exactly for "vlc" |
| MediaAdapterPattern.AdapterPlay | src/DesignPatterns/Adapter/adapterClasses/MediaAdapter.java:20-27 | play always emits the header first; with a player it never throws; the only exception is a null pointer on a null player, with nothing emitted after the header |
| MediaAdapterPattern.MatchingAdapterPlays | src/DesignPatterns/Adapter/adapterClasses/MediaAdapter.java:11-27 | an adapter built for a supported type never throws on that type: vlc reaches the VLC player, mp4 the MP4 player, mp3 and wma only the header |
| MediaAdapterPattern.VlcIsNotMp4 | src/DesignPatterns/Adapter/adapterClasses/MediaAdapter.java:12-15 | no type is both vlc and mp4 ignoring case, so the constructor's choice is unambiguous |
| MediaAdapterPattern.MismatchedAdapterThrows | src/DesignPatterns/Adapter/adapterClasses/MediaAdapter.java:20-27 | an adapter built for mp3 dereferences its null player when asked to play vlc |
| MediaAdapterPattern.MediaAdapter.constructor | src/DesignPatterns/Adapter/adapterClasses/MediaAdapter.java:11-17 | holds a VLC player for vlc, an MP4 player for mp4 (any case) and none otherwise |
| MediaAdapterPattern.MediaAdapter.Play | src/DesignPatterns/Adapter/adapterClasses/MediaAdapter.java:20-27 | the header, then the held player's vlc or mp4 play, a null-pointer exception when there is no player, and only the header for other types |
| MediaAdapterPattern.AudioPlayer.constructor | src/DesignPatterns/Adapter/adapterClasses/AudioPlayer.java:5 | the adapter field starts null |
| MediaAdapterPattern.AudioPlayer.Play | src/DesignPatterns/Adapter/adapterClasses/AudioPlayer.java:7-29 | header first; a supported format stores a new adapter for the type and plays through it without throwing; any other type reports it is not supported and keeps the field |
| MediaAdapterPattern.PlayUpperCaseVlc | src/DesignPatterns/Adapter/adapterClasses/AudioPlayer.java:9-11 | upper-case "VLC" is played through the VLC player |
| AbstractFactories.Shape.constructor | src/DesignPatterns/abstractFactory/DoubleBorderFactory.java:7-9 | a new shape of the given double-bordered kind |
| AbstractFactories.DoubleBorderShapeForSpec | src/DesignPatterns/abstractFactory/DoubleBorderFactory.java:5-12 | a name gives the rectangle exactly when it is "DOUBLERECTANGLE" ignoring case, the triangle exactly when it is "DOUBLETRIANGLE", null when neither |
| AbstractFactories.DoubleBorderShapeNames | src/DesignPatterns/abstractFactory/DoubleBorderFactory.java:6-11 | mixed-case names are recognised; "RECTANGLE" gives null |
| AbstractFactories.ShapeFactoryObject.constructor | src/DesignPatterns/abstractFactory/FactoryProducer.java:6-14 | a new factory of the given kind |
| AbstractFactories.ShapeFactoryObject.GetShape | src/DesignPatterns/abstractFactory/DoubleBorderFactory.java:5-12 | null exactly for an unknown name; otherwise a new shape of the kind the name selects |
| AbstractFactories.GetFactory | src/DesignPatterns/abstractFactory/FactoryProducer.java:4-10 | a new rounded-shape factory when rounded, a new plain one otherwise |
| AbstractFactories.GetDoubleBorderFactory | src/DesignPatterns/abstractFactory/FactoryProducer.java:12-18 | a new double-border factory exactly when asked for one, null otherwise |
| AbstractFactories.Widget.constructor | src/Practice/abstractFactory/AbstractFactory.java:19-48 | a new widget of the given theme and kind |
| AbstractFactories.ThemeForSpec | src/Practice/abstractFactory/AbstractFactory.java:78-85 | a choice gives the light theme exactly when it is "LightTheme" ignoring case, the dark theme exactly when it is "DarkTheme", null when neither |
| AbstractFactories.ThemeChoices | src/Practice/abstractFactory/AbstractFactory.java:79-84 | the choice is read ignoring case; an unknown choice gives null |
| AbstractFactories.UIFactory.constructor | src/Practice/abstractFactory/AbstractFactory.java:51-74 | a new factory for the given theme |
| AbstractFactories.UIFactory.CreateButton | src/Practice/abstractFactory/AbstractFactory.java:53-55 | a new button of the factory's own theme |
| AbstractFactories.UIFactory.CreateCheckbox | src/Practice/abstractFactory/AbstractFactory.java:58-60 | a new checkbox of the factory's own theme |
| AbstractFactories.GetThemeFactory | src/Practice/abstractFactory/AbstractFactory.java:78-85 | null exactly for an unknown choice; otherwise a new factory of the chosen theme |
| AbstractFactories.ThemeClient | src/Practice/abstractFactory/AbstractFactory.java:90-104 | each factory's button and checkbox share its theme, and the two themes never mix |
| BookTax.PriceWithTax | src/DesignPrinciples/SingleResponsibility/without/Book.java:36-38 | whatever the overflow the price with tax lies within plus or minus 21474836; without overflow it is at least a price that is not negative |
| BookTax.TotalPrice | src/DesignPrinciples/SingleResponsibility/without/Book.java:27 | the total is the exact sum of price with tax and shipping when that fits in an int, and otherwise differs from it by a multiple of 2^32 |
| BookTax.TaxWithoutOverflow | src/DesignPrinciples/SingleResponsibility/without/Book.java:36-38 | for a price from 0 to 17895697 the price with tax is exactly price*120/100: at least the price, at most a fifth more plus one, and 6/5 of a multiple of 5 |
| BookTax.TaxOverflowBoundary | src/DesignPrinciples/SingleResponsibility/without/Book.java:37 | 17895697 is the last price whose product with 120 fits; 17895698 wraps to a negative price with tax |
| BookTax.TaxOfNegativePrice | src/DesignPrinciples/SingleResponsibility/without/Book.java:37 | negative results are cut toward zero: -1 gives -1 and -5 gives -6 |
| BookTax.TotalPriceWraps | src/DesignPrinciples/SingleResponsibility/without/Book.java:27 | the total is the exact int sum when it fits and otherwise equals it modulo 2^32; the order of the addends does not matter |
| MealDecorator.Description | src/Practice/DecoratorMealOrder.java:12-61 | every description starts with "Basic Meal", and is exactly that when no decorator adds an extra |
| MealDecorator.JoinedSnoc | src/Practice/DecoratorMealOrder.java:46 | one more extra appends ", " and its name to the joined extras |
| MealDecorator.DescriptionSpec | src/Practice/DecoratorMealOrder.java:12-61 | every description is "Basic Meal" followed by ", X" for each extra, innermost first; a plain forwarding decorator adds nothing |
| MealDecorator.DemoDescriptions | src/Practice/DecoratorMealOrder.java:71-87 | the four demo meals' descriptions |
| MealDecorator.OrderMatters | src/Practice/DecoratorMealOrder.java:86 | wrapping salad and dessert in the other order gives another description |

## Left out

- Console output: the exact text of `System.out.println` calls, `toString`, `printParts` and the print-only `main` methods. Lines that a property depends on are returned as values instead.
- Floating point: the shipping cost in `Book.java` (it enters the total only as the `int` it is cast to), and the meal prices in `DecoratorMealOrder.java`. The `BookController` price is stored and compared as a `real`, so NaN and the infinities are not modelled.
- `equalsIgnoreCase` folds ASCII letters only. Java's Unicode case folding is not modelled.
- String lengths count Dafny characters, not UTF-16 code units. The two agree for text without supplementary characters.
- The lab registry is a `HashMap` that the strategies only iterate. It is modelled as the sequence of its values in iteration order; that order itself is not derived.
- `null` arguments are modelled only where the code dereferences a field that can be null. A `null` passed as a parameter is not modelled.
- Types that are not part of this model are treated abstractly:
  - `Controller.with.BookModel` fields start at Java's defaults;
  - the service `Cache` is a list searched by a matching relation given at construction;
  - which services are a `NotificationService` is a set given to the locator;
  - `RealImage` counts its displays;
  - the exam's `Student` is its name;
  - the VLC and MP4 players record calls as events;
  - `RoundedShapeFactory` and `ShapeFactory` are kept only as their identity.
- `Random.nextInt(100000)` in the loan visitor is a nondeterministic choice in [0, 100000). No particular sequence of draws is modelled.
- `ZombieBase` is abstract in Java. Here one `Zombie` class carries the zombie type, which fixes its initial health.
- Composite boxes can be added to themselves, and `calculatePrice` then never returns. Prices are defined only for acyclic structures, through a ghost rank under which every child ranks below its parent.
- `synchronized` on `AdmissionSystem.getInstance` is not modelled; the singleton is a lazily filled holder object, as are the other static fields. The mutable static log-level ints are constants.
- The concrete observers in `ObserverPattern.java` and `DesignPatterns/Observer` are modelled by counted updates and by a `Console` parameter that records, in order, which observer's `update` wrote a line; the text of the line (the observer's name and the subject's state) is not modelled. `ComplaintTemplate.resolve` is never called by the program and only prints, so it is not modelled.
- The `main` method of `Exam.java` is modelled from `registry.put` onward (`ExamDemo`). Its earlier loop, which clones each vehicle only to print the copies, is not modelled.
- `Tea`, `ShippingCalculator`, the HighCohesion books, the print-only demos and the AWT tree drawing are outside this model.
- The demo in `AbstractFactoryPatternDemo.java` calls `getDoubleBorderFactory()` with no argument, which does not match `FactoryProducer.java:12`, so the demo is not modelled.

## Findings

| source | as written | input that shows it | evidently intended | confidence | as-written member | corrected member |
|---|---|---|---|---|---|---|
| src/DesignPatterns/Iterator/classes/NameRepository.java:44-49 | `previous()` returns `names[index--]`: the element at the cursor, then one step back | after `next()` returned `names[i]`, `previous()` returns `names[i+1]`; after four `next()` calls (index 4) `previous()` throws `ArrayIndexOutOfBoundsException` | `names[--index]`: step back, then return that element, so `previous()` undoes `next()` | not executed | NameRepository.NextThenPreviousAsWritten, NameRepository.PreviousAtEndThrows | NameRepository.NameIterator.PreviousCorrected, NameRepository.NextThenPreviousCorrected |
