/** Enhanced status codes (section 2 of RFC 3463): parser and printer. */
module EnhancedStatus {
  import opened Options
  import opened Text

  datatype Status = Status(statusClass: int, subject: int, detail: int)

  predicate Valid(s: Status) {
    && (s.statusClass == 2 || s.statusClass == 4 || s.statusClass == 5)
    && 0 <= s.subject <= 999 && 0 <= s.detail <= 999
  }

  function ParseComponent(value: string): Option<int> {
    if value == "" || |value| > 3 || (|value| > 1 && value[0] == '0') then None
    else if !AllDigits(value) then None
    else Some(Value(value))
  }

  function Parse(value: string): Option<Status> {
    var parts := Split(value, '.');
    if |parts| != 3 || |parts[0]| != 1 then None else
      var class' := ParseComponent(parts[0]);
      if class'.None? || (class'.value != 2 && class'.value != 4 && class'.value != 5) then None else
        var subject := ParseComponent(parts[1]);
        if subject.None? then None else
          var detail := ParseComponent(parts[2]);
          if detail.None? then None else Some(Status(class'.value, subject.value, detail.value))
  }

  /** An invalid status prints as nothing. */
  function Print(s: Status): string {
    if !Valid(s) then "" else Decimal(s.statusClass) + "." + Decimal(s.subject) + "." + Decimal(s.detail)
  }

  /** The digit scan of parseStatusComponent. */
  method ScanComponent(value: string) returns (number: Option<int>)
    ensures number == ParseComponent(value)
  {
    if value == "" || |value| > 3 || (|value| > 1 && value[0] == '0') { return None; }
    for i := 0 to |value|
      invariant forall j :: 0 <= j < i ==> IsDigit(value[j])
    {
      if value[i] < '0' || value[i] > '9' { return None; }
    }
    number := Some(Value(value));
  }

  /** A component is accepted if and only if it is the decimal form of a number
      from 0 to 999. */
  lemma ComponentIs(value: string, n: int)
    ensures ParseComponent(value) == Some(n) <==> 0 <= n <= 999 && value == Decimal(n)
  {
    if ParseComponent(value) == Some(n) {
      ValuePrints(value);
      ThreeDigits(value);
    }
    if 0 <= n <= 999 && value == Decimal(n) {
      DecimalReads(n);
      ShortDecimal(n);
    }
  }

  lemma PrintedParts(s: Status)
    requires Valid(s)
    ensures Split(Print(s), '.') == [Decimal(s.statusClass), Decimal(s.subject), Decimal(s.detail)]
  {
    var parts := [Decimal(s.statusClass), Decimal(s.subject), Decimal(s.detail)];
    DecimalReads(s.statusClass);
    DecimalReads(s.subject);
    DecimalReads(s.detail);
    assert parts[1..] == [parts[1], parts[2]] && parts[1..][1..] == [parts[2]];
    assert Join(parts[1..], '.') == parts[1] + "." + parts[2];
    assert Join(parts, '.') == Print(s);
    JoinThenSplit(parts, '.');
  }

  /** Parser and printer are inverse: what is accepted is exactly what some valid
      status prints, byte for byte. */
  lemma ParseIsInverse(value: string, s: Status)
    ensures Parse(value) == Some(s) <==> Valid(s) && value == Print(s)
  {
    if Parse(value) == Some(s) {
      var parts := Split(value, '.');
      ComponentIs(parts[0], s.statusClass);
      ComponentIs(parts[1], s.subject);
      ComponentIs(parts[2], s.detail);
      SplitThenJoin(value, '.');
      assert parts[1..] == [parts[1], parts[2]] && parts[1..][1..] == [parts[2]];
      assert Join(parts[1..], '.') == parts[1] + ['.'] + parts[2];
    }
    if Valid(s) && value == Print(s) {
      PrintedParts(s);
      ComponentIs(Decimal(s.statusClass), s.statusClass);
      ComponentIs(Decimal(s.subject), s.subject);
      ComponentIs(Decimal(s.detail), s.detail);
    }
  }

  /** So nothing invalid is ever parsed, and no two values share a text. */
  lemma PrintIsInjective(s: Status, t: Status)
    requires Valid(s) && Print(s) == Print(t)
    ensures s == t
  {
    ParseIsInverse(Print(s), s);
    assert Print(s) != "";
    ParseIsInverse(Print(t), t);
  }

  /** The texts that are accepted, and what each stands for. */
  lemma AcceptedWhen(value: string, n: int, subject: int, detail: int)
    ensures Parse(value) == Some(Status(n, subject, detail)) <==>
      && n in {2, 4, 5} && 0 <= subject < 1000 && 0 <= detail < 1000
      && value == Decimal(n) + "." + Decimal(subject) + "." + Decimal(detail)
  {
    ParseIsInverse(value, Status(n, subject, detail));
  }
}
