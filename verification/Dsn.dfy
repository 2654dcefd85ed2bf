/** The delivery-status part of a bounce: the writer, and a reader that follows
    section 2.1 of RFC 3464. */
module Dsn {
  import opened Options
  import opened Text
  import EnhancedStatus

  // Sanitising.

  /** unicode.IsSpace. */
  predicate IsSpace(c: char) {
    c in {'\t', '\n', '\U{0B}', '\U{0C}', '\r', ' ', '\U{85}', '\U{A0}', '\U{1680}', '\U{2028}', '\U{2029}', '\U{202F}', '\U{205F}', '\U{3000}'}
    || '\U{2000}' <= c <= '\U{200A}'
  }

  function TrimLeft(s: string): string
    decreases |s|
  {
    if s != "" && IsSpace(s[0]) then TrimLeft(s[1..]) else s
  }

  function TrimRight(s: string): string
    decreases |s|
  {
    if s != "" && IsSpace(s[|s| - 1]) then TrimRight(s[..|s| - 1]) else s
  }

  function TrimSpace(s: string): string {
    TrimRight(TrimLeft(s))
  }

  predicate Trimmed(s: string) {
    s != "" ==> !IsSpace(s[0]) && !IsSpace(s[|s| - 1])
  }

  predicate Unsafe(c: char) {
    c == '\r' || c == '\n' || c == '\U{0}'
  }

  predicate Safe(s: string) {
    forall i :: 0 <= i < |s| ==> !Unsafe(s[i])
  }

  function Blanked(s: string): (r: string)
    ensures |r| == |s| && Safe(r)
  {
    seq(|s|, i requires 0 <= i < |s| => if Unsafe(s[i]) then ' ' else s[i])
  }

  function Sanitize(s: string): string {
    TrimSpace(Blanked(s))
  }

  /** The buffer sanitizeText builds. */
  method SanitizeText(s: string) returns (r: string)
    ensures r == Sanitize(s)
  {
    var b: string := "";
    for i := 0 to |s|
      invariant b == Blanked(s)[..i]
    {
      if s[i] == '\r' || s[i] == '\n' || s[i] == '\U{0}' { b := b + " "; }
      else { b := b + [s[i]]; }
    }
    assert b == Blanked(s);
    r := TrimSpace(b);
  }

  lemma {:induction false} TrimLeftIs(s: string)
    ensures var r := TrimLeft(s);
      && |r| <= |s| && r == s[|s| - |r|..]
      && (r != "" ==> !IsSpace(r[0])) && (forall i :: 0 <= i < |s| - |r| ==> IsSpace(s[i]))
    decreases |s|
  {
    if s != "" && IsSpace(s[0]) { TrimLeftIs(s[1..]); }
  }

  lemma {:induction false} TrimRightIs(s: string)
    ensures var r := TrimRight(s);
      && |r| <= |s| && r == s[..|r|]
      && (r != "" ==> !IsSpace(r[|r| - 1])) && (forall i :: |r| <= i < |s| ==> IsSpace(s[i]))
    decreases |s|
  {
    if s != "" && IsSpace(s[|s| - 1]) { TrimRightIs(s[..|s| - 1]); }
  }

  lemma TrimIs(s: string)
    ensures Trimmed(TrimSpace(s)) && (Safe(s) ==> Safe(TrimSpace(s)))
    ensures Trimmed(s) ==> TrimSpace(s) == s
  {
    TrimLeftIs(s);
    TrimRightIs(TrimLeft(s));
  }

  /** Untrusted text loses its line breaks and NULs and outer space; clean text is
      left as it is. */
  lemma SanitizeIs(s: string)
    ensures Safe(Sanitize(s)) && Trimmed(Sanitize(s))
    ensures Safe(s) && Trimmed(s) ==> Sanitize(s) == s
  {
    TrimIs(Blanked(s));
    assert Safe(s) ==> Blanked(s) == s;
  }

  /** r is the middle of s from i on, and what was cut off is space. */
  ghost predicate TrimsTo(s: string, i: nat, r: string) {
    && i + |r| <= |s| && r == s[i..i + |r|]
    && (forall k :: 0 <= k < i ==> IsSpace(s[k])) && (forall k :: i + |r| <= k < |s| ==> IsSpace(s[k]))
  }

  lemma TrimsFrom(s: string)
    ensures |TrimLeft(s)| <= |s| && TrimsTo(s, |s| - |TrimLeft(s)|, TrimSpace(s))
  {
    TrimLeftIs(s);
    TrimRightIs(TrimLeft(s));
    hide TrimLeft, TrimRight, IsSpace;
  }

  /** The characters with Unicode's White_Space property. */
  predicate WhiteSpace(c: char) {
    var n := c as int;
    9 <= n <= 13 || 0x2000 <= n <= 0x200A
    || n in {0x20, 0x85, 0xA0, 0x1680, 0x2028, 0x2029, 0x202F, 0x205F, 0x3000}
  }

  lemma SpaceIs(c: char)
    ensures IsSpace(c) <==> WhiteSpace(c)
  {
  }

  /** A line break, a NUL or space. */
  predicate Blank(c: char) {
    c == '\r' || c == '\n' || c == '\0' || WhiteSpace(c)
  }

  /** What sanitising leaves of s: its middle, each line break and NUL as one space;
      cut off is what would be space. */
  ghost predicate Middle(s: string, i: nat, r: string) {
    && i + |r| <= |s|
    && (forall k :: 0 <= k < |r| ==>
          r[k] == if s[i + k] == '\r' || s[i + k] == '\n' || s[i + k] == '\0' then ' ' else s[i + k])
    && (forall k :: 0 <= k < i ==> Blank(s[k])) && (forall k :: i + |r| <= k < |s| ==> Blank(s[k]))
    && (r != "" ==> !Blank(s[i]) && !Blank(s[i + |r| - 1]))
  }

  lemma SanitizeKeeps(s: string)
    ensures exists i :: Middle(s, i, Sanitize(s))
  {
    var b := Blanked(s);
    TrimsFrom(b);
    var i := |b| - |TrimLeft(b)|;
    hide TrimSpace, TrimLeft, IsSpace;
    var r := Sanitize(s);
    assert r == b[i..i + |r|];
    assert forall k :: 0 <= k < |r| ==> r[k] == b[i + k];
    assert forall k :: (0 <= k < i || i + |r| <= k < |s|) ==> IsSpace(b[k]);
    assert forall k :: 0 <= k < |s| ==> b[k] == if Unsafe(s[k]) then ' ' else s[k];
    forall k | 0 <= k < |s| ensures IsSpace(b[k]) <==> Blank(s[k]) {
      SpaceIs(s[k]);
      SpaceIs(b[k]);
    }
    SanitizeIs(s);
    assert Middle(s, i, r);
  }

  function StripAngleBrackets(addr: string): string {
    var a := TrimSpace(addr);
    if |a| >= 2 && a[0] == '<' && a[|a| - 1] == '>' then a[1..|a| - 1] else a
  }

  /** Brackets are taken off an address they enclose, */
  lemma StripsEnclosing(x: string)
    ensures StripAngleBrackets("<" + x + ">") == x
  {
    TrimIs("<" + x + ">");
  }

  /** and nothing is taken off any other. */
  lemma StripsNothingElse(a: string)
    requires Trimmed(a) && !(|a| >= 2 && a[0] == '<' && a[|a| - 1] == '>')
    ensures StripAngleBrackets(a) == a
  {
    TrimIs(a);
  }

  lemma {:induction false} LeftSpace(p: string, t: string)
    requires forall i :: 0 <= i < |p| ==> IsSpace(p[i])
    ensures TrimLeft(p + t) == TrimLeft(t)
    decreases |p|
  {
    if p == "" {
      assert p + t == t;
    } else {
      assert (p + t)[0] == p[0] && (p + t)[1..] == p[1..] + t;
      LeftSpace(p[1..], t);
    }
  }

  lemma {:induction false} RightSpace(t: string, q: string)
    requires forall i :: 0 <= i < |q| ==> IsSpace(q[i])
    ensures TrimRight(t + q) == TrimRight(t)
    decreases |q|
  {
    if q == "" {
      assert t + q == t;
    } else {
      assert (t + q)[|t + q| - 1] == q[|q| - 1] && (t + q)[..|t + q| - 1] == t + q[..|q| - 1];
      RightSpace(t, q[..|q| - 1]);
    }
  }

  lemma OuterSpaceGoes(p: string, a: string, q: string)
    requires forall i :: 0 <= i < |p| ==> IsSpace(p[i])
    requires forall i :: 0 <= i < |q| ==> IsSpace(q[i])
    requires Trimmed(a)
    ensures TrimSpace(p + a + q) == a
  {
    assert p + a + q == p + (a + q);
    LeftSpace(p, a + q);
    RightSpace(a, q);
    TrimIs(a);
    if a == "" {
      assert a + q == q + "" && q + "" == q;
      LeftSpace(q, "");
    } else {
      assert (a + q)[0] == a[0];
    }
    hide IsSpace;
  }

  /** Space around an address is no part of it. */
  lemma StripsOuterSpace(p: string, a: string, q: string)
    requires forall i :: 0 <= i < |p| ==> IsSpace(p[i])
    requires forall i :: 0 <= i < |q| ==> IsSpace(q[i])
    requires Trimmed(a)
    ensures StripAngleBrackets(p + a + q) == StripAngleBrackets(a)
  {
    OuterSpaceGoes(p, a, q);
    TrimIs(a);
    hide IsSpace, TrimSpace, Trimmed;
  }

  // Recipients.

  datatype Action = Unknown | Failed | Delivered

  function ActionText(a: Action): string {
    match a case Unknown => "unknown" case Failed => "failed" case Delivered => "delivered"
  }

  datatype Recipient = Recipient(
    final: string,
    action: Action,
    status: Option<EnhancedStatus.Status>,
    smtpCode: int,
    diagnostic: string)

  datatype Failure = Failure(recipient: string, status: Option<EnhancedStatus.Status>, smtpCode: int, message: string)

  const ABORTED := "transaction aborted before this recipient's RCPT TO could be confirmed or refused"

  function StatusFor(f: Failure, recipient: string): Recipient {
    if f.recipient != "" && f.recipient == recipient then Recipient(recipient, Failed, f.status, f.smtpCode, f.message)
    else if f.recipient != "" then Recipient(recipient, Failed, None, 0, ABORTED)
    else Recipient(recipient, Failed, f.status, f.smtpCode, f.message)
  }

  /** One status a recipient, in order; what the remote said about one recipient
      is never reported for another. */
  method RecipientStatuses(f: Failure, envelope: seq<string>) returns (statuses: seq<Recipient>)
    ensures |statuses| == |envelope|
    ensures forall i :: 0 <= i < |envelope| ==> statuses[i] == StatusFor(f, envelope[i])
    ensures forall i :: 0 <= i < |envelope| ==> statuses[i].final == envelope[i] && statuses[i].action == Failed
    ensures f.recipient != "" ==> forall i :: 0 <= i < |envelope| && envelope[i] != f.recipient ==>
      statuses[i].status == None && statuses[i].smtpCode == 0 &&
        statuses[i].diagnostic == "transaction aborted before this recipient's RCPT TO could be confirmed or refused"
    ensures forall i :: 0 <= i < |envelope| && (f.recipient == "" || envelope[i] == f.recipient) ==>
      statuses[i].status == f.status && statuses[i].smtpCode == f.smtpCode && statuses[i].diagnostic == f.message
  {
    statuses := [];
    for i := 0 to |envelope|
      invariant |statuses| == i
      invariant forall j :: 0 <= j < i ==> statuses[j] == StatusFor(f, envelope[j])
    {
      statuses := statuses + [StatusFor(f, envelope[i])];
    }
  }

  // The writer.

  datatype Report = Report(reportingMta: string, arrivalDate: Option<string>, recipients: seq<Recipient>)

  const CRLF := "\r\n"

  datatype Field = Field(name: string, body: string)

  function MessageFields(d: Report): seq<Field> {
    [Field("Reporting-MTA", "dns;" + Sanitize(d.reportingMta))]
    + (if d.arrivalDate.Some? then [Field("Arrival-Date", d.arrivalDate.value)] else [])
  }

  function StatusFields(r: Recipient): seq<Field> {
    if r.status.Some? && EnhancedStatus.Valid(r.status.value)
    then [Field("Status", EnhancedStatus.Print(r.status.value))] else []
  }

  function DiagnosticType(r: Recipient): string {
    if r.smtpCode == 0 then "x-mailx" else "smtp"
  }

  function DiagnosticText(r: Recipient): string {
    if r.smtpCode != 0 then Integer(r.smtpCode) + " " + r.diagnostic else r.diagnostic
  }

  function DiagnosticFields(r: Recipient): seq<Field> {
    if r.diagnostic != "" then [Field("Diagnostic-Code", DiagnosticType(r) + "; " + Sanitize(DiagnosticText(r)))] else []
  }

  function RecipientFields(r: Recipient): seq<Field> {
    [Field("Final-Recipient", "rfc822;" + Sanitize(StripAngleBrackets(r.final))), Field("Action", ActionText(r.action))]
    + StatusFields(r) + DiagnosticFields(r)
  }

  function Names(fs: seq<Field>): (names: seq<string>)
    ensures |names| == |fs| && forall i :: 0 <= i < |fs| ==> names[i] == fs[i].name
  {
    seq(|fs|, i requires 0 <= i < |fs| => fs[i].name)
  }

  /** A status is written exactly when it is one, a diagnostic when there is any. */
  lemma FieldsOf(r: Recipient)
    ensures var hasStatus := r.status.Some? && r.status.value.statusClass in {2, 4, 5}
        && 0 <= r.status.value.subject < 1000 && 0 <= r.status.value.detail < 1000;
      Names(RecipientFields(r)) == ["Final-Recipient", "Action"]
        + (if hasStatus then ["Status"] else []) + (if r.diagnostic != "" then ["Diagnostic-Code"] else [])
  {
    hide Sanitize, StripAngleBrackets, DiagnosticType, DiagnosticText, ActionText, EnhancedStatus.Print;
  }

  function Line(f: Field): string {
    f.name + ": " + f.body
  }

  function Lines(fs: seq<Field>): (ls: seq<string>)
    ensures |ls| == |fs| && forall i :: 0 <= i < |fs| ==> ls[i] == Line(fs[i])
  {
    seq(|fs|, i requires 0 <= i < |fs| => Line(fs[i]))
  }

  function GroupLines(rs: seq<Recipient>): (gs: seq<seq<string>>)
    ensures |gs| == |rs| && forall i :: 0 <= i < |rs| ==> gs[i] == Lines(RecipientFields(rs[i]))
  {
    seq(|rs|, i requires 0 <= i < |rs| => Lines(RecipientFields(rs[i])))
  }

  /** Every line ends in CRLF. */
  function Render(lines: seq<string>): string
    decreases |lines|
  {
    if lines == [] then "" else lines[0] + CRLF + Render(lines[1..])
  }

  /** The message's fields and each recipient's, separated by blank lines. */
  function AllLines(d: Report): seq<string> {
    Join([Lines(MessageFields(d))] + GroupLines(d.recipients), "")
  }

  lemma {:induction false} RenderConcat(p: seq<string>, q: seq<string>)
    ensures Render(p + q) == Render(p) + Render(q)
    decreases |p|
  {
    if p == [] {
      assert p + q == q;
    } else {
      assert (p + q)[0] == p[0] && (p + q)[1..] == p[1..] + q;
      RenderConcat(p[1..], q);
    }
  }

  lemma RenderOne(line: string)
    ensures Render([line]) == line + CRLF
  {
  }

  method WriteField(b: string, ghost lines: seq<string>, f: Field) returns (r: string)
    requires b == Render(lines)
    ensures r == Render(lines + [Line(f)])
  {
    RenderOne(Line(f));
    RenderConcat(lines, [Line(f)]);
    hide Render;
    r := b + (f.name + ": " + f.body + CRLF);
  }

  method WriteMessageFields(d: Report) returns (b: string)
    ensures b == Render(Lines(MessageFields(d)))
  {
    hide Render, Sanitize, Line;
    var mta := SanitizeText(d.reportingMta);
    var f := Field("Reporting-MTA", "dns;" + mta);
    assert Render([]) == "" by { NothingRendered(); }
    b := WriteField("", [], f);
    assert [] + [Line(f)] == [Line(f)];
    if d.arrivalDate.Some? {
      var g := Field("Arrival-Date", d.arrivalDate.value);
      b := WriteField(b, [Line(f)], g);
      assert Lines(MessageFields(d)) == [Line(f)] + [Line(g)];
    } else {
      assert Lines(MessageFields(d)) == [Line(f)];
    }
  }

  lemma NothingRendered()
    ensures Render([]) == ""
  {
  }

  method WriteRecipient(r: Recipient) returns (b: string)
    ensures b == Render(Lines(RecipientFields(r)))
  {
    hide Render, Sanitize, Line, StripAngleBrackets, DiagnosticType, ActionText;
    var final := SanitizeText(StripAngleBrackets(r.final));
    ghost var fs := [Field("Final-Recipient", "rfc822;" + final)];
    NothingRendered();
    b := WriteField("", [], Field("Final-Recipient", "rfc822;" + final));
    assert [] + [Line(fs[0])] == Lines(fs);
    b := WriteMore(b, fs, Field("Action", ActionText(r.action)));
    fs := fs + [Field("Action", ActionText(r.action))];
    if r.status.Some? && EnhancedStatus.Valid(r.status.value) {
      b := WriteMore(b, fs, Field("Status", EnhancedStatus.Print(r.status.value)));
      fs := fs + StatusFields(r);
    }
    if r.diagnostic != "" {
      var code := r.diagnostic;
      if r.smtpCode != 0 { code := Integer(r.smtpCode) + " " + r.diagnostic; }
      var text := SanitizeText(code);
      b := WriteMore(b, fs, Field("Diagnostic-Code", DiagnosticType(r) + "; " + text));
      fs := fs + DiagnosticFields(r);
    }
    assert fs == RecipientFields(r);
  }

  method WriteMore(b: string, ghost fs: seq<Field>, f: Field) returns (r: string)
    requires b == Render(Lines(fs))
    ensures r == Render(Lines(fs + [f]))
  {
    hide Render, Line;
    r := WriteField(b, Lines(fs), f);
    assert Lines(fs) + [Line(f)] == Lines(fs + [f]);
  }

  /** writeDeliveryStatusPart, behind Generate's check for an empty report. One
      blank line after the message's fields, one before every recipient but the
      first. */
  method WriteDeliveryStatus(d: Report) returns (text: Option<string>)
    ensures text.None? <==> d.recipients == []
    ensures text.Some? ==> text.value == Render(AllLines(d))
  {
    hide Render, Join, Lines, RecipientFields, MessageFields;
    if d.recipients == [] { return None; }
    ghost var head := [Lines(MessageFields(d))];
    ghost var gs := GroupLines(d.recipients);
    var b := WriteMessageFields(d);
    assert Join(head, "") == Lines(MessageFields(d)) by { JoinOne(Lines(MessageFields(d))); }
    b := b + CRLF;
    var i := 0;
    assert head + gs[..0] == head;
    while i < |d.recipients|
      invariant 0 <= i <= |d.recipients|
      invariant b == Render(Join(head + gs[..i], "")) + (if i == 0 then CRLF else "")
    {
      if i > 0 { b := b + CRLF; }
      var group := WriteRecipient(d.recipients[i]);
      b := b + group;
      GroupRendered(head + gs[..i], gs[i]);
      assert head + gs[..i + 1] == head + gs[..i] + [gs[i]];
      i := i + 1;
    }
    assert gs[..i] == gs;
    text := Some(b);
  }

  lemma JoinOne(p: seq<string>)
    ensures Join([p], "") == p
  {
  }

  lemma GroupRendered(groups: seq<seq<string>>, group: seq<string>)
    requires groups != []
    ensures Render(Join(groups + [group], "")) == Render(Join(groups, "")) + CRLF + Render(group)
  {
    JoinExtends(groups, group, "");
    var before := Join(groups, "");
    RenderOne("");
    RenderConcat(before, [""]);
    RenderConcat(before + [""], group);
  }
}
