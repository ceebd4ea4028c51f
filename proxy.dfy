/**
 * DesignPatterns/Proxy: a virtual proxy that creates the real image on the
 * first display of a supported file name and reuses it afterwards, and an
 * exam whose result list only grows. RealImage and the exam's Student are
 * not part of this model: a real image counts its displays, a student is
 * its name.
 */
module ProxyPattern {
  import opened JavaLang

  // ---------------------------------------------------------------------------
  // VirtualProxyImage.java

  class RealImage {
    const fileName: string
    /** How many times display() has been called on this image. */
    var displays: nat

    constructor (fileName: string)
      ensures this.fileName == fileName && displays == 0
    {
      this.fileName := fileName;
      displays := 0;
    }

    method Display()
      modifies this
      ensures displays == old(displays) + 1
    {
      displays := displays + 1;
    }
  }

  /** A name the proxy loads: ending in ".jpg" or ".png", letter case included. */
  predicate Supported(fileName: string)
  {
    EndsWith(fileName, ".jpg") || EndsWith(fileName, ".png")
  }

  /** The suffix test is case-sensitive and needs the dot. */
  lemma SupportedExamples()
    ensures Supported("photo.jpg") && Supported("icon.png")
    ensures !Supported("photo.JPG") && !Supported("photojpg") && !Supported("photo.gif")
  {
    assert "photo.jpg"[5..] == ".jpg";
    assert "icon.png"[4..] == ".png";
    assert "photo.JPG"[5..] != ".jpg";
    assert "photojpg"[4..] != ".jpg";
  }

  /** What one display shows. */
  datatype Shown = RealImageShown | Placeholder

  class VirtualProxyImage {
    const fileName: string
    var realImage: RealImage?

    /** A real image exists only for a supported name, and it is that name's image. */
    ghost predicate Valid()
      reads this
    {
      realImage != null ==> Supported(fileName) && realImage.fileName == fileName
    }

    constructor (fileName: string)
      ensures this.fileName == fileName && realImage == null && Valid()
    {
      this.fileName := fileName;
      realImage := null;
    }

    /**
     * display: a supported name shows the real image, created on the first
     * call and reused on every later one; any other name shows the
     * placeholder every time and never creates one.
     */
    method Display() returns (shown: Shown)
      requires Valid()
      modifies this, realImage
      ensures Valid()
      ensures shown == RealImageShown <==> Supported(fileName)
      ensures !Supported(fileName) ==> realImage == null
      ensures Supported(fileName) && old(realImage) != null ==>
        realImage == old(realImage) && realImage.displays == old(realImage.displays) + 1
      ensures Supported(fileName) && old(realImage) == null ==>
        fresh(realImage) && realImage != null && realImage.displays == 1
    {
      if realImage == null {
        if EndsWith(fileName, ".jpg") || EndsWith(fileName, ".png") {
          realImage := new RealImage(fileName);
        }
      }
      if realImage != null {
        realImage.Display();
        shown := RealImageShown;
      } else {
        shown := Placeholder;
      }
    }
  }

  /** Displaying twice loads the image once and shows it twice. */
  method DisplayTwice() returns (proxy: VirtualProxyImage, first: RealImage?)
    ensures first != null && proxy.realImage == first && first.displays == 2
  {
    proxy := new VirtualProxyImage("photo.jpg");
    SupportedExamples();
    var _ := proxy.Display();
    first := proxy.realImage;
    var _ := proxy.Display();
  }

  // ---------------------------------------------------------------------------
  // RealExam.java

  /** The entry a student's showResults appends. */
  function AnswerEntry(studentName: string): string
  {
    "Student " + studentName + "'s Answers: "
  }

  /** Different students leave different entries: the name can be read back from the entry. */
  lemma AnswerEntryInjective(a: string, b: string)
    requires AnswerEntry(a) == AnswerEntry(b)
    ensures a == b
  {
    var ea, eb := AnswerEntry(a), AnswerEntry(b);
    assert |a| == |b|;
    assert a == ea[8..8 + |a|];
    assert b == eb[8..8 + |b|];
  }

  class RealExam {
    var examResults: seq<string>

    /** The exam starts with the two question entries. */
    constructor ()
      ensures examResults == ["Question 1: ____", "Question 2: ____"]
    {
      examResults := ["Question 1: ____", "Question 2: ____"];
    }

    /** showResults(Student): append exactly the student's entry, then show the whole list. */
    method ShowResultsForStudent(studentName: string) returns (shown: seq<string>)
      modifies this
      ensures examResults == old(examResults) + [AnswerEntry(studentName)]
      ensures shown == examResults
    {
      examResults := examResults + [AnswerEntry(studentName)];
      shown := examResults;
    }

    /** showResults(Teacher): show the list, changing nothing. */
    method ShowResultsForTeacher() returns (shown: seq<string>)
      ensures shown == examResults
    {
      shown := examResults;
    }
  }

  /** The list is append-only: a student shown twice leaves two identical entries. */
  method RepeatedStudent() returns (exam: RealExam)
    ensures |exam.examResults| == 4
    ensures exam.examResults[2] == exam.examResults[3] == AnswerEntry("Alice")
  {
    exam := new RealExam();
    var _ := exam.ShowResultsForStudent("Alice");
    var _ := exam.ShowResultsForTeacher();
    var _ := exam.ShowResultsForStudent("Alice");
  }
}
