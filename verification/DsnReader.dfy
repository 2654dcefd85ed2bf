/** A reader of message/delivery-status bodies (section 2.1 of RFC 3464): CRLF
    lines, folded lines joined, groups separated by blank lines, fields split at
    the first colon; and the proof that it recovers what the writer was given. */
module DsnReader {
  import opened Options
  import opened Text
  import opened Dsn
  import EnhancedStatus

  // The reader.

  function ReadLines(text: string, cur: string): seq<string>
    decreases |text|
  {
    if text == "" then (if cur == "" then [] else [cur])
    else if |text| >= 2 && text[..2] == CRLF then [cur] + ReadLines(text[2..], "")
    else ReadLines(text[1..], cur + [text[0]])
  }

  predicate Continues(line: string) {
    line != "" && (line[0] == ' ' || line[0] == '\t')
  }

  /** A line that begins with white space belongs to the one before it. */
  function Unfold(lines: seq<string>): seq<string>
    decreases |lines|
  {
    if lines == [] then []
    else
      var rest := Unfold(lines[1..]);
      if |lines| > 1 && Continues(lines[1]) && rest != [] then [lines[0] + rest[0]] + rest[1..] else [lines[0]] + rest
  }

  function ReadField(line: string): Field {
    var parts := Split(line, ':');
    if |parts| == 1 then Field(line, "") else Field(parts[0], TrimSpace(Join(parts[1..], ':')))
  }

  function ReadFields(lines: seq<string>): (fs: seq<Field>)
    ensures |fs| == |lines| && forall i :: 0 <= i < |lines| ==> fs[i] == ReadField(lines[i])
  {
    seq(|lines|, i requires 0 <= i < |lines| => ReadField(lines[i]))
  }

  function ReadGroups(text: string): (gs: seq<seq<Field>>)
    ensures |gs| >= 1
  {
    var groups := Split(Unfold(ReadLines(text, "")), "");
    seq(|groups|, i requires 0 <= i < |groups| => ReadFields(groups[i]))
  }

  function Lookup(fs: seq<Field>, name: string): Option<string>
    decreases |fs|
  {
    if fs == [] then None else if fs[0].name == name then Some(fs[0].body) else Lookup(fs[1..], name)
  }

  /** `type; value`. */
  datatype Typed = Typed(kind: string, value: string)

  function ReadTyped(body: string): Typed {
    var parts := Split(body, ';');
    if |parts| == 1 then Typed("", body) else Typed(TrimSpace(parts[0]), TrimSpace(Join(parts[1..], ';')))
  }

  function Map(o: Option<string>): Option<Typed> {
    match o case None => None case Some(s) => Some(ReadTyped(s))
  }

  datatype MessageInfo = MessageInfo(mta: Option<Typed>, arrivalDate: Option<string>)

  datatype RecipientInfo = RecipientInfo(
    final: Option<Typed>, action: Option<string>, status: Option<EnhancedStatus.Status>, diagnostic: Option<Typed>)

  function ReadMessage(fs: seq<Field>): MessageInfo {
    MessageInfo(Map(Lookup(fs, "Reporting-MTA")), Lookup(fs, "Arrival-Date"))
  }

  function ReadRecipient(fs: seq<Field>): RecipientInfo {
    var status := Lookup(fs, "Status");
    RecipientInfo(
      Map(Lookup(fs, "Final-Recipient")), Lookup(fs, "Action"),
      if status.Some? then EnhancedStatus.Parse(status.value) else None,
      Map(Lookup(fs, "Diagnostic-Code")))
  }

  datatype DsnInfo = DsnInfo(message: MessageInfo, recipients: seq<RecipientInfo>)

  function Read(text: string): DsnInfo {
    var gs := ReadGroups(text);
    DsnInfo(ReadMessage(gs[0]), seq(|gs| - 1, i requires 0 <= i < |gs| - 1 => ReadRecipient(gs[i + 1])))
  }

  // What it must find.

  function MessageGiven(d: Report): MessageInfo {
    MessageInfo(Some(Typed("dns", Sanitize(d.reportingMta))), d.arrivalDate)
  }

  function RecipientGiven(r: Recipient): RecipientInfo {
    RecipientInfo(
      Some(Typed("rfc822", Sanitize(StripAngleBrackets(r.final)))),
      Some(match r.action case Unknown => "unknown" case Failed => "failed" case Delivered => "delivered"),
      if r.status.Some? && EnhancedStatus.Valid(r.status.value) then r.status else None,
      if r.diagnostic == "" then None
      else if r.smtpCode == 0 then Some(Typed("x-mailx", Sanitize(r.diagnostic)))
      else Some(Typed("smtp", Sanitize(Integer(r.smtpCode) + " " + r.diagnostic))))
  }

  // Lines.

  predicate LineSafe(s: string) {
    forall i :: 0 <= i < |s| ==> s[i] != '\r' && s[i] != '\n'
  }

  lemma {:induction false} OneLineRead(line: string, rest: string, cur: string)
    requires LineSafe(line)
    ensures ReadLines(line + CRLF + rest, cur) == [cur + line] + ReadLines(rest, "")
    decreases |line|
  {
    var text := line + CRLF + rest;
    if line == "" {
      assert text[..2] == CRLF && text[2..] == rest;
      assert cur + line == cur;
    } else {
      assert text[0] == line[0] && text[..2][0] == line[0];
      assert text[1..] == line[1..] + CRLF + rest;
      OneLineRead(line[1..], rest, cur + [line[0]]);
      assert cur + [line[0]] + line[1..] == cur + line;
    }
  }

  lemma {:induction false} LinesRead(lines: seq<string>)
    requires forall l :: l in lines ==> LineSafe(l)
    ensures ReadLines(Render(lines), "") == lines
    decreases |lines|
  {
    if lines != [] {
      assert lines[0] in lines;
      OneLineRead(lines[0], Render(lines[1..]), "");
      assert "" + lines[0] == lines[0];
      assert forall l :: l in lines[1..] ==> l in lines;
      LinesRead(lines[1..]);
    }
  }

  lemma {:induction false} NothingFolded(lines: seq<string>)
    requires forall l :: l in lines ==> !Continues(l)
    ensures Unfold(lines) == lines
    decreases |lines|
  {
    if lines != [] {
      assert forall l :: l in lines[1..] ==> l in lines;
      NothingFolded(lines[1..]);
      if |lines| > 1 { assert lines[1] in lines; }
    }
  }

  // Fields.

  predicate GoodField(f: Field) {
    && f.name != "" && f.name[0] != ' ' && f.name[0] != '\t'
    && Free(f.name, ':') && LineSafe(f.name) && LineSafe(f.body)
  }

  lemma FieldRead(f: Field)
    requires GoodField(f)
    ensures ReadField(Line(f)) == Field(f.name, TrimSpace(f.body))
    ensures Line(f) != "" && LineSafe(Line(f)) && !Continues(Line(f))
  {
    var tail := " " + f.body;
    assert Line(f) == f.name + [':'] + tail;
    SplitFirst(f.name, tail, ':');
    SplitThenJoin(tail, ':');
    assert ([f.name] + Split(tail, ':'))[1..] == Split(tail, ':');
    assert tail[1..] == f.body;
    assert TrimLeft(tail) == TrimLeft(f.body);
  }

  function TrimAll(fs: seq<Field>): (r: seq<Field>)
    ensures |r| == |fs| && forall i :: 0 <= i < |fs| ==> r[i] == Field(fs[i].name, TrimSpace(fs[i].body))
  {
    seq(|fs|, i requires 0 <= i < |fs| => Field(fs[i].name, TrimSpace(fs[i].body)))
  }

  lemma FieldsRead(fs: seq<Field>)
    requires forall f :: f in fs ==> GoodField(f)
    ensures ReadFields(Lines(fs)) == TrimAll(fs)
    ensures forall l :: l in Lines(fs) ==> l != "" && LineSafe(l) && !Continues(l)
  {
    forall i | 0 <= i < |fs| ensures ReadField(Line(fs[i])) == Field(fs[i].name, TrimSpace(fs[i].body))
      && Line(fs[i]) != "" && LineSafe(Line(fs[i])) && !Continues(Line(fs[i]))
    {
      assert fs[i] in fs;
      FieldRead(fs[i]);
    }
  }

  predicate GoodLine(l: string) {
    LineSafe(l) && !Continues(l)
  }

  lemma {:induction false} JoinedLines(groups: seq<seq<string>>)
    requires |groups| >= 1 && forall g :: g in groups ==> forall l :: l in g ==> GoodLine(l)
    ensures forall l :: l in Join(groups, "") ==> GoodLine(l)
    decreases |groups|
  {
    assert groups[0] in groups;
    if |groups| > 1 {
      assert forall g :: g in groups[1..] ==> g in groups;
      JoinedLines(groups[1..]);
      forall l | l in Join(groups, "") ensures GoodLine(l) {
        assert l in groups[0] || l == "" || l in Join(groups[1..], "");
      }
    }
  }

  /** Groups of good lines, none blank, come back as they were. */
  lemma GroupsRead(groups: seq<seq<string>>)
    requires |groups| >= 1 && forall g :: g in groups ==> forall l :: l in g ==> l != "" && GoodLine(l)
    ensures Split(Unfold(ReadLines(Render(Join(groups, "")), "")), "") == groups
  {
    JoinedLines(groups);
    LinesRead(Join(groups, ""));
    NothingFolded(Join(groups, ""));
    forall g | g in groups ensures Free(g, "") {
      assert forall i :: 0 <= i < |g| ==> g[i] in g;
    }
    JoinThenSplit(groups, "");
  }

  // The writer's fields are good.

  predicate PlainDate(s: string) {
    LineSafe(s) && Trimmed(s)
  }

  lemma StatusTextIsSafe(s: EnhancedStatus.Status)
    requires EnhancedStatus.Valid(s)
    ensures LineSafe(EnhancedStatus.Print(s)) && Trimmed(EnhancedStatus.Print(s))
  {
    DecimalReads(s.statusClass);
    DecimalReads(s.subject);
    DecimalReads(s.detail);
    var t := EnhancedStatus.Print(s);
    assert t[0] == Decimal(s.statusClass)[0] && t[|t| - 1] == Decimal(s.detail)[|Decimal(s.detail)| - 1];
  }

  lemma MtaGood(x: string)
    requires LineSafe(x)
    ensures GoodField(Field("Reporting-MTA", "dns;" + x))
  {
    SafeConcat("dns;", x);
  }

  lemma DateGood(date: string)
    requires PlainDate(date)
    ensures GoodField(Field("Arrival-Date", date))
  {
  }

  lemma MessageFieldsGood(d: Report)
    requires d.arrivalDate.Some? ==> PlainDate(d.arrivalDate.value)
    ensures forall f :: f in MessageFields(d) ==> GoodField(f)
  {
    hide Sanitize, PlainDate;
    SanitizeIs(d.reportingMta);
    MtaGood(Sanitize(d.reportingMta));
    if d.arrivalDate.Some? { DateGood(d.arrivalDate.value); }
    hide GoodField;
  }

  lemma SafeConcat(a: string, b: string)
    requires LineSafe(a) && LineSafe(b)
    ensures LineSafe(a + b)
  {
  }

  lemma FinalGood(x: string, action: string)
    requires LineSafe(x) && LineSafe(action)
    ensures GoodField(Field("Final-Recipient", "rfc822;" + x)) && GoodField(Field("Action", action))
  {
    SafeConcat("rfc822;", x);
  }

  lemma StatusGood(r: Recipient)
    ensures forall f :: f in StatusFields(r) ==> GoodField(f)
  {
    if r.status.Some? && EnhancedStatus.Valid(r.status.value) { StatusTextIsSafe(r.status.value); }
    hide EnhancedStatus.Print;
  }

  lemma DiagnosticGood(r: Recipient)
    ensures forall f :: f in DiagnosticFields(r) ==> GoodField(f)
  {
    SanitizeIs(DiagnosticText(r));
    SafeConcat(DiagnosticType(r), "; ");
    SafeConcat(DiagnosticType(r) + "; ", Sanitize(DiagnosticText(r)));
    hide Sanitize, DiagnosticText;
  }

  lemma RecipientFieldsGood(r: Recipient)
    ensures forall f :: f in RecipientFields(r) ==> GoodField(f)
  {
    SanitizeIs(StripAngleBrackets(r.final));
    FinalGood(Sanitize(StripAngleBrackets(r.final)), ActionText(r.action));
    StatusGood(r);
    DiagnosticGood(r);
    hide Sanitize, StatusFields, DiagnosticFields, StripAngleBrackets, GoodField, ActionText;
  }

  // Typed values.

  lemma TypedEmpty(kind: string)
    requires kind != "" && Trimmed(kind) && Free(kind, ';')
    ensures ReadTyped(TrimSpace(kind + "; ")) == Typed(kind, "")
  {
    var short := kind + ";";
    var body := kind + "; ";
    TrimIs(kind);
    TrimIs("");
    assert body[..|body| - 1] == short;
    assert TrimLeft(body) == body && TrimRight(body) == TrimRight(short) == short;
    SplitTyped(kind, "");
    assert kind + ";" + "" == short;
  }

  lemma TypedFilled(kind: string, pad: string, x: string)
    requires kind != "" && Trimmed(kind) && Free(kind, ';') && (pad == "" || (pad == " " && x != "")) && Trimmed(x)
    ensures ReadTyped(TrimSpace(kind + ";" + (pad + x))) == Typed(kind, x)
  {
    TypedIsTrimmed(kind, pad + x);
    hide Trimmed, Free;
    TrimIs(kind + ";" + (pad + x));
    TrimIs(kind);
    hide TrimSpace, ReadTyped;
    SplitTyped(kind, pad + x);
    PadIsTrimmed(pad, x);
  }

  lemma TypedIsTrimmed(kind: string, tail: string)
    requires kind != "" && Trimmed(kind) && (tail != "" ==> !IsSpace(tail[|tail| - 1]))
    ensures Trimmed(kind + ";" + tail)
  {
  }

  lemma TypedRead(kind: string, pad: string, x: string)
    requires kind != "" && Trimmed(kind) && Free(kind, ';') && (pad == "" || pad == " ") && Trimmed(x)
    ensures ReadTyped(TrimSpace(kind + ";" + (pad + x))) == Typed(kind, x)
  {
    hide TrimSpace, ReadTyped;
    if x == "" && pad == " " {
      TypedEmpty(kind);
      assert kind + ";" + (pad + x) == kind + "; ";
    } else {
      TypedFilled(kind, pad, x);
    }
  }

  lemma PadIsTrimmed(pad: string, x: string)
    requires (pad == "" || pad == " ") && Trimmed(x)
    ensures TrimSpace(pad + x) == x
  {
    TrimIs(x);
    if pad == " " {
      assert (pad + x)[1..] == x;
      assert TrimLeft(pad + x) == TrimLeft(x);
    } else {
      assert pad + x == x;
    }
  }

  lemma SplitTyped(kind: string, tail: string)
    requires Free(kind, ';')
    ensures ReadTyped(kind + ";" + tail) == Typed(TrimSpace(kind), TrimSpace(tail))
  {
    SplitFirst(kind, tail, ';');
    SplitThenJoin(tail, ';');
    assert kind + ";" + tail == kind + [';'] + tail;
    assert ([kind] + Split(tail, ';'))[1..] == Split(tail, ';');
  }

  // The theorem.

  lemma LookupHead(f: Field, fs: seq<Field>, name: string)
    ensures Lookup([f] + fs, name) == if f.name == name then Some(f.body) else Lookup(fs, name)
    ensures Lookup([], name) == None
  {
  }

  lemma TrimAllConcat(p: seq<Field>, q: seq<Field>)
    ensures TrimAll(p + q) == TrimAll(p) + TrimAll(q)
  {
  }

  lemma LookupTrimmed(f: Field, rest: seq<Field>, name: string)
    ensures Lookup(TrimAll([f] + rest), name) == if f.name == name then Some(TrimSpace(f.body)) else Lookup(TrimAll(rest), name)
  {
    TrimAllConcat([f], rest);
    LookupHead(Field(f.name, TrimSpace(f.body)), TrimAll(rest), name);
    assert TrimAll([f]) == [Field(f.name, TrimSpace(f.body))];
  }

  lemma MtaRead(x: string)
    requires Trimmed(x)
    ensures ReadTyped(TrimSpace("dns;" + x)) == Typed("dns", x)
  {
    TypedRead("dns", "", x);
    hide TrimSpace, ReadTyped;
    assert "dns" + ";" + ("" + x) == "dns;" + x;
  }

  lemma MessageRead(d: Report)
    requires d.arrivalDate.Some? ==> PlainDate(d.arrivalDate.value)
    ensures ReadMessage(TrimAll(MessageFields(d))) == MessageGiven(d)
  {
    var mta := Field("Reporting-MTA", "dns;" + Sanitize(d.reportingMta));
    var rest := if d.arrivalDate.Some? then [Field("Arrival-Date", d.arrivalDate.value)] else [];
    SanitizeIs(d.reportingMta);
    MtaRead(Sanitize(d.reportingMta));
    assert MessageFields(d) == [mta] + rest;
    LookupTrimmed(mta, rest, "Reporting-MTA");
    LookupTrimmed(mta, rest, "Arrival-Date");
    if d.arrivalDate.Some? {
      TrimIs(d.arrivalDate.value);
      LookupTrimmed(rest[0], [], "Arrival-Date");
      assert rest == [rest[0]] + [];
    } else {
      assert TrimAll(rest) == [];
    }
    hide Sanitize, TrimSpace, ReadTyped, TrimAll;
  }

  lemma RestLookups(r: Recipient, name: string)
    ensures var rest := StatusFields(r) + DiagnosticFields(r);
      Lookup(TrimAll(rest), name) ==
        if name == "Status" && StatusFields(r) != [] then Some(TrimSpace(StatusFields(r)[0].body))
        else if name == "Diagnostic-Code" && DiagnosticFields(r) != [] then Some(TrimSpace(DiagnosticFields(r)[0].body))
        else None
  {
    var st, di := StatusFields(r), DiagnosticFields(r);
    hide TrimSpace, Sanitize, EnhancedStatus.Print, DiagnosticText, DiagnosticType;
    assert TrimAll([]) == [];
    if di != [] { LookupTrimmed(di[0], [], name); assert di == [di[0]] + []; }
    if st != [] { LookupTrimmed(st[0], di, name); assert st + di == [st[0]] + di; } else { assert st + di == di; }
  }

  lemma RecipientLookups(r: Recipient, name: string)
    ensures var fs := TrimAll(RecipientFields(r));
      Lookup(fs, name) ==
        if name == "Final-Recipient" then Some(TrimSpace("rfc822;" + Sanitize(StripAngleBrackets(r.final))))
        else if name == "Action" then Some(TrimSpace(ActionText(r.action)))
        else Lookup(TrimAll(StatusFields(r) + DiagnosticFields(r)), name)
  {
    var final := Field("Final-Recipient", "rfc822;" + Sanitize(StripAngleBrackets(r.final)));
    var action := Field("Action", ActionText(r.action));
    var rest := StatusFields(r) + DiagnosticFields(r);
    assert RecipientFields(r) == [final] + ([action] + rest);
    hide TrimSpace, Sanitize, StripAngleBrackets, ActionText, StatusFields, DiagnosticFields, RecipientFields, TrimAll, Lookup;
    LookupTrimmed(final, [action] + rest, name);
    LookupTrimmed(action, rest, name);
  }

  lemma StatusRead(r: Recipient)
    ensures ReadRecipient(TrimAll(RecipientFields(r))).status == RecipientGiven(r).status
  {
    RecipientLookups(r, "Status");
    RestLookups(r, "Status");
    if r.status.Some? && EnhancedStatus.Valid(r.status.value) {
      StatusTextIsSafe(r.status.value);
      TrimIs(EnhancedStatus.Print(r.status.value));
      EnhancedStatus.ParseIsInverse(EnhancedStatus.Print(r.status.value), r.status.value);
    }
    hide TrimSpace, Sanitize, StripAngleBrackets, TrimAll, RecipientFields, Lookup, EnhancedStatus.Print, EnhancedStatus.Parse;
  }

  lemma DiagnosticBody(kind: string, x: string)
    requires kind in {"smtp", "x-mailx"} && Trimmed(x)
    ensures ReadTyped(TrimSpace(kind + "; " + x)) == Typed(kind, x)
  {
    TypedRead(kind, " ", x);
    hide TrimSpace, ReadTyped;
    assert kind + ";" + (" " + x) == kind + "; " + x;
  }

  lemma DiagnosticRead(r: Recipient)
    ensures ReadRecipient(TrimAll(RecipientFields(r))).diagnostic == RecipientGiven(r).diagnostic
  {
    RecipientLookups(r, "Diagnostic-Code");
    RestLookups(r, "Diagnostic-Code");
    SanitizeIs(DiagnosticText(r));
    DiagnosticBody(DiagnosticType(r), Sanitize(DiagnosticText(r)));
    hide TrimSpace, Sanitize, StripAngleBrackets, TrimAll, RecipientFields, Lookup, ReadTyped, DiagnosticText, DiagnosticType;
  }

  lemma FinalRead(x: string)
    requires Trimmed(x)
    ensures ReadTyped(TrimSpace("rfc822;" + x)) == Typed("rfc822", x)
  {
    TypedRead("rfc822", "", x);
    hide TrimSpace, ReadTyped;
    assert "rfc822" + ";" + ("" + x) == "rfc822;" + x;
  }

  lemma AddressRead(r: Recipient)
    ensures ReadRecipient(TrimAll(RecipientFields(r))).final == RecipientGiven(r).final
  {
    RecipientLookups(r, "Final-Recipient");
    SanitizeIs(StripAngleBrackets(r.final));
    FinalRead(Sanitize(StripAngleBrackets(r.final)));
    hide TrimSpace, Sanitize, StripAngleBrackets, TrimAll, RecipientFields, Lookup, ReadTyped, ActionText;
  }

  lemma ActionRead(r: Recipient)
    ensures ReadRecipient(TrimAll(RecipientFields(r))).action == RecipientGiven(r).action
  {
    RecipientLookups(r, "Action");
    TrimIs(ActionText(r.action));
    hide TrimSpace, Sanitize, StripAngleBrackets, TrimAll, RecipientFields, Lookup, ReadTyped;
  }

  lemma RecipientRead(r: Recipient)
    ensures ReadRecipient(TrimAll(RecipientFields(r))) == RecipientGiven(r)
  {
    hide ReadRecipient, RecipientGiven;
    AddressRead(r);
    ActionRead(r);
    StatusRead(r);
    DiagnosticRead(r);
  }

  function AllGroups(d: Report): seq<seq<string>> {
    [Lines(MessageFields(d))] + GroupLines(d.recipients)
  }

  lemma GroupsAreGood(d: Report)
    requires d.arrivalDate.Some? ==> PlainDate(d.arrivalDate.value)
    ensures forall g :: g in AllGroups(d) ==> forall l :: l in g ==> l != "" && GoodLine(l)
    ensures ReadFields(Lines(MessageFields(d))) == TrimAll(MessageFields(d))
    ensures forall r :: r in d.recipients ==> ReadFields(Lines(RecipientFields(r))) == TrimAll(RecipientFields(r))
  {
    hide MessageFields, RecipientFields, Lines, GoodField;
    MessageFieldsGood(d);
    FieldsRead(MessageFields(d));
    forall r: Recipient
      ensures ReadFields(Lines(RecipientFields(r))) == TrimAll(RecipientFields(r))
      ensures forall l :: l in Lines(RecipientFields(r)) ==> l != "" && GoodLine(l)
    {
      RecipientFieldsGood(r);
      FieldsRead(RecipientFields(r));
    }
  }

  /** Whatever the recipients and however hostile the diagnostics: a reader finds
      the message's group and then exactly one group per recipient, in order,
      each with the sanitised address, the action, the status if it is valid and
      the diagnostic if there is one. */
  lemma ReaderRecoversReport(d: Report)
    requires d.arrivalDate.Some? ==> PlainDate(d.arrivalDate.value)
    ensures Read(Render(AllLines(d))).message == MessageGiven(d)
    ensures |Read(Render(AllLines(d))).recipients| == |d.recipients|
    ensures forall i :: 0 <= i < |d.recipients| ==>
      Read(Render(AllLines(d))).recipients[i] == RecipientGiven(d.recipients[i])
  {
    hide Render, AllLines, Read, MessageGiven, RecipientGiven, PlainDate;
    MessageIsRead(d);
    forall i | 0 <= i < |d.recipients|
      ensures Read(Render(AllLines(d))).recipients[i] == RecipientGiven(d.recipients[i])
    {
      RecipientIsRead(d, i);
    }
  }

  lemma MessageIsRead(d: Report)
    requires d.arrivalDate.Some? ==> PlainDate(d.arrivalDate.value)
    ensures var read := Read(Render(AllLines(d)));
      read.message == MessageGiven(d) && |read.recipients| == |d.recipients|
  {
    hide Render, AllLines, ReadGroups, MessageFields, RecipientFields, ReadRecipient, ReadMessage, MessageGiven, TrimAll, PlainDate;
    GroupsFound(d);
    MessageRead(d);
  }

  lemma RecipientIsRead(d: Report, i: nat)
    requires d.arrivalDate.Some? ==> PlainDate(d.arrivalDate.value)
    requires i < |d.recipients|
    ensures var read := Read(Render(AllLines(d)));
      i < |read.recipients| && read.recipients[i] == RecipientGiven(d.recipients[i])
  {
    hide Render, AllLines, ReadGroups, MessageFields, RecipientFields, ReadRecipient, ReadMessage, RecipientGiven, TrimAll, PlainDate;
    GroupsFound(d);
    RecipientRead(d.recipients[i]);
  }

  /** The groups of the text are the groups of fields it was made of. */
  lemma GroupsFound(d: Report)
    requires d.arrivalDate.Some? ==> PlainDate(d.arrivalDate.value)
    ensures var gs := ReadGroups(Render(AllLines(d)));
      && |gs| == |d.recipients| + 1 && gs[0] == TrimAll(MessageFields(d))
      && forall i :: 0 <= i < |d.recipients| ==> gs[i + 1] == TrimAll(RecipientFields(d.recipients[i]))
  {
    GroupsAreGood(d);
    GroupsRead(AllGroups(d));
    assert AllLines(d) == Join(AllGroups(d), "");
    hide Render, Join, Split, Unfold, ReadLines, MessageFields, RecipientFields;
    hide TrimAll, Lines, ReadFields, GoodLine, PlainDate, Free;
    forall i | 0 <= i < |d.recipients|
      ensures ReadGroups(Render(AllLines(d)))[i + 1] == TrimAll(RecipientFields(d.recipients[i]))
    {
      assert AllGroups(d)[i + 1] == Lines(RecipientFields(d.recipients[i]));
      assert d.recipients[i] in d.recipients;
    }
  }

  /** The report of a failed delivery names every envelope recipient once, in
      order, and shows the remote's status and words only for the recipient they
      were about. */
  lemma FailureIsReported(f: Failure, mta: string, envelope: seq<string>, statuses: seq<Recipient>, i: nat)
    requires |statuses| == |envelope| && forall j :: 0 <= j < |envelope| ==> statuses[j] == StatusFor(f, envelope[j])
    requires i < |envelope|
    ensures var d := Read(Render(AllLines(Report(mta, None, statuses))));
      && |d.recipients| == |envelope|
      && d.recipients[i].final == Some(Typed("rfc822", Sanitize(StripAngleBrackets(envelope[i]))))
      && d.recipients[i].action == Some("failed")
      && (f.recipient == "" || f.recipient == envelope[i] ==>
            && d.recipients[i].status == (if f.status.Some? && EnhancedStatus.Valid(f.status.value) then f.status else None)
            && d.recipients[i].diagnostic ==
                 if f.message == "" then None
                 else if f.smtpCode == 0 then Some(Typed("x-mailx", Sanitize(f.message)))
                 else Some(Typed("smtp", Sanitize(Integer(f.smtpCode) + " " + f.message))))
      && (f.recipient != "" && f.recipient != envelope[i] ==>
            d.recipients[i].status == None && d.recipients[i].diagnostic == Some(Typed("x-mailx",
              Sanitize("transaction aborted before this recipient's RCPT TO could be confirmed or refused"))))
  {
    ReaderRecoversReport(Report(mta, None, statuses));
    assert statuses[i] == StatusFor(f, envelope[i]);
    hide Read, Render, AllLines, Sanitize, StripAngleBrackets;
  }

  // normalizeCRLF.

  /** ReplaceAll(s, "\r\n", "\n"). */
  function Collapse(s: string): string
    decreases |s|
  {
    if s == "" then ""
    else if |s| >= 2 && s[0] == '\r' && s[1] == '\n' then "\n" + Collapse(s[2..])
    else [s[0]] + Collapse(s[1..])
  }

  /** ReplaceAll(s, "\n", "\r\n"). */
  function Expand(s: string): string
    decreases |s|
  {
    if s == "" then "" else (if s[0] == '\n' then CRLF else [s[0]]) + Expand(s[1..])
  }

  function NormalizeCRLF(s: string): string {
    Expand(Collapse(s))
  }

  lemma {:induction false} CollapseUndoesExpand(s: string)
    ensures Collapse(Expand(s)) == s
    decreases |s|
  {
    if s != "" {
      var rest := Expand(s[1..]);
      CollapseUndoesExpand(s[1..]);
      if s[0] == '\n' {
        assert Expand(s) == CRLF + rest && (CRLF + rest)[2..] == rest;
        assert s == "\n" + s[1..];
      } else {
        assert Expand(s) == [s[0]] + rest && ([s[0]] + rest)[1..] == rest;
        ExpandStarts(s[1..]);
        assert s == [s[0]] + s[1..];
      }
    }
  }

  lemma ExpandStarts(s: string)
    ensures Expand(s) != "" ==> Expand(s)[0] != '\n'
  {
  }

  lemma {:induction false} ExpandLeavesNoBareLf(s: string)
    ensures forall i :: 0 <= i < |Expand(s)| && Expand(s)[i] == '\n' ==> i > 0 && Expand(s)[i - 1] == '\r'
    decreases |s|
  {
    if s != "" {
      var rest := Expand(s[1..]);
      ExpandLeavesNoBareLf(s[1..]);
      var head := if s[0] == '\n' then CRLF else [s[0]];
      forall i | 0 <= i < |Expand(s)| && Expand(s)[i] == '\n' ensures i > 0 && Expand(s)[i - 1] == '\r' {
        if i >= |head| { assert rest[i - |head|] == '\n' && rest[i - |head| - 1] == '\r'; }
      }
    }
  }

  /** Normalising twice is normalising once, and no line feed is left bare. */
  lemma NormalizeIsIdempotent(s: string)
    ensures NormalizeCRLF(NormalizeCRLF(s)) == NormalizeCRLF(s)
    ensures var t := NormalizeCRLF(s);
      forall i :: 0 <= i < |t| && t[i] == '\n' ==> i > 0 && t[i - 1] == '\r'
  {
    CollapseUndoesExpand(Collapse(s));
    ExpandLeavesNoBareLf(Collapse(s));
  }

  /** A line without the carriage return it may end in. */
  function Bare(line: string): string {
    if line != "" && line[|line| - 1] == '\r' then line[..|line| - 1] else line
  }

  function NormalLines(lines: seq<string>): (r: seq<string>)
    ensures |r| == |lines|
    ensures forall i :: 0 <= i < |r| ==> r[i] == if i == |lines| - 1 then lines[i] else Bare(lines[i]) + "\r"
  {
    seq(|lines|, i requires 0 <= i < |lines| => if i == |lines| - 1 then lines[i] else Bare(lines[i]) + "\r")
  }

  lemma NormalizedFrom(s: string)
    requires s != ""
    ensures NormalizeCRLF(s) ==
      if |s| >= 2 && s[0] == '\r' && s[1] == '\n' then CRLF + NormalizeCRLF(s[2..])
      else if s[0] == '\n' then CRLF + NormalizeCRLF(s[1..])
      else [s[0]] + NormalizeCRLF(s[1..])
  {
    var head := if s[0] == '\r' && |s| >= 2 && s[1] == '\n' then "\n" else [s[0]];
    var rest := if s[0] == '\r' && |s| >= 2 && s[1] == '\n' then s[2..] else s[1..];
    assert Collapse(s) == head + Collapse(rest);
    assert (head + Collapse(rest))[1..] == Collapse(rest);
  }

  lemma SplitAfterBreak(t: string)
    ensures Split(CRLF + t, '\n') == ["\r"] + Split(t, '\n')
    ensures Split("\n" + t, '\n') == [""] + Split(t, '\n')
  {
    assert ("\n" + t)[1..] == t;
    assert Split("\n" + t, '\n') == [""] + Split(t, '\n');
    assert (CRLF + t)[0] == '\r' && (CRLF + t)[1..] == "\n" + t;
    assert ['\r'] + "" == "\r" && ([""] + Split(t, '\n'))[1..] == Split(t, '\n');
  }

  lemma SplitAfterOther(c: char, t: string)
    requires c != '\n'
    ensures Split([c] + t, '\n') == [[c] + Split(t, '\n')[0]] + Split(t, '\n')[1..]
    ensures |Split(t, '\n')| > 1 && Split(t, '\n')[0] == "" ==> t != "" && t[0] == '\n'
  {
    assert ([c] + t)[1..] == t;
  }

  lemma BareOfCons(c: char, line: string)
    ensures line != "" || c != '\r' ==> Bare([c] + line) == [c] + Bare(line)
    ensures Bare("\r") == "" && Bare("") == ""
  {
    if line != "" { assert ([c] + line)[..|line|] == [c] + line[..|line| - 1]; }
  }

  lemma NormalFirst(line: string, rest: seq<string>)
    requires rest != []
    ensures NormalLines([line] + rest) == [Bare(line) + "\r"] + NormalLines(rest)
  {
    hide Bare;
  }

  lemma NormalGrows(c: char, lines: seq<string>)
    requires lines != [] && (|lines| > 1 && lines[0] == "" ==> c != '\r')
    ensures NormalLines([[c] + lines[0]] + lines[1..]) == [[c] + NormalLines(lines)[0]] + NormalLines(lines)[1..]
  {
    BareOfCons(c, lines[0]);
    hide Bare;
    var grown := [[c] + lines[0]] + lines[1..];
    if |lines| > 1 { assert ([c] + Bare(lines[0])) + "\r" == [c] + (Bare(lines[0]) + "\r"); }
    assert forall i :: 0 < i < |lines| ==> grown[i] == lines[i];
  }

  ghost predicate EndsNormalized(s: string) {
    Split(NormalizeCRLF(s), '\n') == NormalLines(Split(s, '\n'))
  }

  lemma BreakNormalizes(s: string, t: string, line: string)
    requires EndsNormalized(t) && line in {"", "\r"} && s == line + "\n" + t && NormalizeCRLF(s) == CRLF + NormalizeCRLF(t)
    ensures EndsNormalized(s)
  {
    hide NormalizeCRLF, Split, NormalLines, Bare;
    SplitAfterBreak(NormalizeCRLF(t));
    SplitAfterBreak(t);
    NormalFirst(line, Split(t, '\n'));
    BareOfCons('a', "");
    assert "" + "\n" + t == "\n" + t && "\r" + "\n" + t == CRLF + t;
    assert "" + "\r" == "\r";
  }

  lemma OtherNormalizes(s: string, c: char, t: string)
    requires EndsNormalized(t) && c != '\n' && s == [c] + t && NormalizeCRLF(s) == [c] + NormalizeCRLF(t)
    requires c == '\r' ==> t == "" || t[0] != '\n'
    ensures EndsNormalized(s)
  {
    hide NormalizeCRLF, Split, NormalLines;
    SplitAfterOther(c, NormalizeCRLF(t));
    SplitAfterOther(c, t);
    NormalGrows(c, Split(t, '\n'));
  }

  lemma NothingNormalizes()
    ensures EndsNormalized("")
  {
    assert NormalizeCRLF("") == "";
  }

  lemma {:induction false} AllNormalizes(s: string)
    ensures EndsNormalized(s)
    decreases |s|
  {
    hide NormalizeCRLF, EndsNormalized;
    if s == "" {
      NothingNormalizes();
    } else {
      NormalizedFrom(s);
      if |s| >= 2 && s[0] == '\r' && s[1] == '\n' {
        AllNormalizes(s[2..]);
        assert s == "\r" + "\n" + s[2..];
        BreakNormalizes(s, s[2..], "\r");
      } else if s[0] == '\n' {
        AllNormalizes(s[1..]);
        assert s == "" + "\n" + s[1..];
        BreakNormalizes(s, s[1..], "");
      } else {
        AllNormalizes(s[1..]);
        assert s == [s[0]] + s[1..];
        OtherNormalizes(s, s[0], s[1..]);
      }
    }
  }

  /** The lines stay what they are, and every line end becomes CRLF. */
  lemma NormalizesLineEnds(s: string)
    ensures Split(NormalizeCRLF(s), '\n') == NormalLines(Split(s, '\n'))
  {
    AllNormalizes(s);
  }
}
