/** The payloads of the chain and how each stage computes its output from its input. */
module DataTypes {

  datatype FileEvent = FileEvent(fileName: string, fileSize: nat, sendTime: int)

  datatype AppEvent = AppEvent(appName: string, eventDescription: string, originalFile: FileEvent)

  datatype ProcessedData = ProcessedData(dataId: string, processingResult: int, originalAppEvent: AppEvent)

  datatype TransformedData = TransformedData(transformationType: string, value: real, originalData: ProcessedData)

  /** The message types a queue of the chain can hold; the source keeps them type-erased. */
  datatype Message =
    | File(file: FileEvent)
    | Direct(counter: nat)
    | Mirror(mirrorCounter: nat, text: string)
    | App(app: AppEvent)
    | Processed(processed: ProcessedData)
    | Transformed(transformed: TransformedData)

  datatype CommandType = StopObserving | StartObserving | StressMode | SetNormalMode

  datatype Command = Command(kind: CommandType, durationSec: int)

  function Decimal(n: nat): string {
    if n < 10 then [Digit(n)] else Decimal(n / 10) + [Digit(n % 10)]
  }

  function Digit(d: nat): char
    requires d < 10
  {
    "0123456789"[d]
  }

  /** The `count`-th event of one run of the observer. */
  function NthFile(count: nat, sendTime: int): FileEvent {
    FileEvent("file_" + Decimal(count) + ".txt", 1024 * count, sendTime)
  }

  function AppOf(f: FileEvent): AppEvent {
    AppEvent("App1", f.fileName, f)
  }

  function ProcessedOf(a: AppEvent): ProcessedData {
    ProcessedData("DATA-" + Decimal(a.originalFile.fileSize), 42, a)
  }

  function TransformedOf(p: ProcessedData): TransformedData {
    TransformedData("MathTransform", p.processingResult as real * 1.5, p)
  }

  // ---- What the names and identifiers say --------------------------------------------

  predicate IsDigit(c: char) {
    '0' <= c <= '9'
  }

  /** The number a string of digits denotes, read from the left. */
  function Value(s: string): nat
    requires forall i :: 0 <= i < |s| ==> IsDigit(s[i])
  {
    if s == [] then 0
    else
      var last := s[|s| - 1];
      assert IsDigit(last);
      10 * Value(s[..|s| - 1]) + (last as int - '0' as int)
  }

  lemma DigitValue(d: nat)
    requires d < 10
    ensures IsDigit(Digit(d)) && Digit(d) as int - '0' as int == d
  {
    var digits := "0123456789";
    assert digits[d] as int == '0' as int + d;
  }

  /** `Decimal` writes a number in decimal: reading it gives the number back, every character is a digit,
      and there is no leading zero but for zero itself. */
  lemma {:induction false} DecimalDenotes(n: nat)
    ensures forall i :: 0 <= i < |Decimal(n)| ==> IsDigit(Decimal(n)[i])
    ensures Value(Decimal(n)) == n
    ensures |Decimal(n)| > 0 && (Decimal(n)[0] == '0' ==> n == 0)
  {
    DigitValue(n % 10);
    if n < 10 {
      assert Decimal(n)[..0] == [];
    } else {
      DecimalDenotes(n / 10);
      assert Decimal(n)[..|Decimal(n)| - 1] == Decimal(n / 10);
    }
  }

  lemma DecimalInjective(m: nat, n: nat)
    requires Decimal(m) == Decimal(n)
    ensures m == n
  {
    DecimalDenotes(m);
    DecimalDenotes(n);
  }

  /** Distinct numbers give distinct file names, and files of distinct sizes distinct identifiers. */
  lemma NamesTellFilesApart(m: nat, n: nat, t: int, u: int)
    ensures NthFile(m, t).fileName == NthFile(n, u).fileName <==> m == n
    ensures ProcessedOf(AppOf(NthFile(m, t))).dataId == ProcessedOf(AppOf(NthFile(n, u))).dataId <==> m == n
  {
    if NthFile(m, t).fileName == NthFile(n, u).fileName {
      BetweenEquals("file_", Decimal(m), Decimal(n), ".txt");
      DecimalInjective(m, n);
    }
    if "DATA-" + Decimal(1024 * m) == "DATA-" + Decimal(1024 * n) {
      assert "DATA-" + Decimal(1024 * m) + "" == "DATA-" + Decimal(1024 * n) + "";
      BetweenEquals("DATA-", Decimal(1024 * m), Decimal(1024 * n), "");
      DecimalInjective(1024 * m, 1024 * n);
    }
  }

  lemma BetweenEquals(front: string, a: string, b: string, back: string)
    requires front + a + back == front + b + back
    ensures a == b
  {
    var s := front + a + back;
    assert |a| == |b|;
    assert a == s[|front|..|front| + |a|];
    assert b == s[|front|..|front| + |b|];
  }
}
