/** Two text formats that stand for identities: API credentials and renewal
    payment references. */
module Tokens {
  import opened Options
  import opened Text

  // API credentials: mx_<key id>_<secret>.

  const KEY_PREFIX := "mx"
  const KEY_ID_HEX_LEN: nat := 32
  const SECRET_HEX_LEN: nat := 64
  const MAX_RAW_KEY_LEN: nat := 104

  datatype Credential = Credential(keyId: string, secret: string)

  predicate IsHexChar(c: char) {
    '0' <= c <= '9' || 'a' <= c <= 'f'
  }

  predicate IsHex(s: string) {
    forall i :: 0 <= i < |s| ==> IsHexChar(s[i])
  }

  /** What Generate draws. */
  predicate WellFormed(c: Credential) {
    |c.keyId| == KEY_ID_HEX_LEN && |c.secret| == SECRET_HEX_LEN && IsHex(c.keyId) && IsHex(c.secret)
  }

  function Raw(c: Credential): string {
    KEY_PREFIX + "_" + c.keyId + "_" + c.secret
  }

  /** A text longer in UTF-8 bytes than in characters has a character that is not
      hexadecimal, so counting characters refuses the same texts. */
  function Parse(raw: string): Option<Credential> {
    if |raw| == 0 || |raw| > MAX_RAW_KEY_LEN then None else
      var parts := Split(raw, '_');
      if |parts| != 3 || parts[0] != KEY_PREFIX then None
      else if |parts[1]| != KEY_ID_HEX_LEN || |parts[2]| != SECRET_HEX_LEN then None
      else if !IsHex(parts[1]) || !IsHex(parts[2]) then None
      else Some(Credential(parts[1], parts[2]))
  }

  lemma HexHasNoUnderscore(s: string)
    requires IsHex(s)
    ensures Free(s, '_')
  {
  }

  lemma RawParts(c: Credential)
    requires WellFormed(c)
    ensures Split(Raw(c), '_') == [KEY_PREFIX, c.keyId, c.secret]
  {
    var parts := [KEY_PREFIX, c.keyId, c.secret];
    HexHasNoUnderscore(c.keyId);
    HexHasNoUnderscore(c.secret);
    assert parts[1..] == [c.keyId, c.secret] && parts[1..][1..] == [c.secret];
    assert Join(parts[1..], '_') == c.keyId + "_" + c.secret;
    assert Join(parts, '_') == Raw(c);
    JoinThenSplit(parts, '_');
  }

  /** Parse inverts the format Generate prints, and accepts nothing else. */
  lemma ParseIsInverse(raw: string, c: Credential)
    ensures Parse(raw) == Some(c) <==> WellFormed(c) && raw == Raw(c)
  {
    if WellFormed(c) && raw == Raw(c) { RawParts(c); }
    if Parse(raw) == Some(c) {
      var parts := Split(raw, '_');
      SplitThenJoin(raw, '_');
      assert parts[1..] == [c.keyId, c.secret] && parts[1..][1..] == [c.secret];
      assert Join(parts[1..], '_') == c.keyId + ['_'] + c.secret;
    }
  }

  /** A lower-case hexadecimal digit. */
  predicate HexAt(raw: string, i: nat) {
    i < |raw| && raw[i] in "0123456789abcdef"
  }

  /** The hundred characters of a credential: mx, an underscore, the key id at
      3 to 34, an underscore, the secret from 36. */
  predicate Shape(raw: string) {
    && |raw| == 100 && raw[0] == 'm' && raw[1] == 'x' && raw[2] == '_' && raw[35] == '_'
    && (forall i :: 3 <= i < 35 ==> HexAt(raw, i)) && (forall i :: 36 <= i < 100 ==> HexAt(raw, i))
  }

  lemma HexDigits(c: char)
    ensures IsHexChar(c) <==> c in "0123456789abcdef"
  {
    var digits := "0123456789abcdef";
    if '0' <= c <= '9' { assert digits[(c - '0') as int] == c; }
    if 'a' <= c <= 'f' { assert digits[10 + (c - 'a') as int] == c; }
  }

  /** Which texts are credentials, character by character. */
  lemma AcceptedWhen(raw: string)
    ensures Parse(raw).Some? <==> Shape(raw)
    ensures Parse(raw).Some? ==> Parse(raw) == Some(Credential(raw[3..35], raw[36..]))
  {
    if Parse(raw).Some? {
      var c := Parse(raw).value;
      ParseIsInverse(raw, c);
      ShapeOf(c);
    }
    if Shape(raw) {
      var c := Credential(raw[3..35], raw[36..]);
      forall i | 0 <= i < 32 ensures IsHexChar(c.keyId[i]) { assert HexAt(raw, i + 3); HexDigits(raw[i + 3]); }
      forall i | 0 <= i < 64 ensures IsHexChar(c.secret[i]) { assert HexAt(raw, i + 36); HexDigits(raw[i + 36]); }
      assert raw == raw[..3] + raw[3..35] + raw[35..36] + raw[36..];
      assert raw[..3] == "mx_" && raw[35..36] == "_";
      ParseIsInverse(raw, c);
    }
  }

  lemma ShapeOf(c: Credential)
    requires WellFormed(c)
    ensures Shape(Raw(c)) && Raw(c)[3..35] == c.keyId && Raw(c)[36..] == c.secret
  {
    var raw := Raw(c);
    assert raw == "mx_" + c.keyId + "_" + c.secret;
    forall i | 3 <= i < 35 ensures HexAt(raw, i) { assert raw[i] == c.keyId[i - 3]; HexDigits(raw[i]); }
    forall i | 36 <= i < 100 ensures HexAt(raw, i) { assert raw[i] == c.secret[i - 36]; HexDigits(raw[i]); }
  }

  // Renewal references: mailx-renew-<tenant>-<period end>-<attempt>.

  function RenewalReference(tenant: string, periodEnd: int, attempt: int): string {
    "mailx-renew-" + tenant + "-" + Integer(periodEnd) + "-" + Integer(attempt)
  }

  function Sign(n: int): string {
    if n < 0 then "-" else ""
  }

  function Abs(n: int): nat {
    if n < 0 then -n else n
  }

  lemma DecimalHasNoDash(n: nat)
    ensures Canonical(Decimal(n)) && Free(Decimal(n), '-') && Value(Decimal(n)) == n
  {
    DecimalReads(n);
  }

  /** The last dash splits a text in one way only. */
  lemma LastDash(u: string, d: string, v: string, e: string)
    requires Free(d, '-') && Free(e, '-') && u + "-" + d == v + "-" + e
    ensures u == v && d == e
  {
    var s, t := u + "-" + d, v + "-" + e;
    assert s[|u|] == '-' && t[|v|] == '-';
    assert forall i :: |u| < i < |s| ==> s[i] == d[i - |u| - 1];
    assert forall i :: |v| < i < |t| ==> t[i] == e[i - |v| - 1];
    assert |u| == |v|;
    assert u == s[..|u|] && v == t[..|v|] && d == s[|u| + 1..] && e == t[|v| + 1..];
  }

  lemma NumberAfterDash(u: string, p: int)
    ensures u + "-" + Integer(p) == (u + Sign(p)) + "-" + Decimal(Abs(p))
  {
  }

  /** Texts that end in a dash and a number. */
  lemma DashNumber(u: string, p: int, v: string, q: int)
    ensures u + "-" + Integer(p) == v + "-" + Integer(q) <==> u + Sign(p) == v + Sign(q) && Abs(p) == Abs(q)
  {
    NumberAfterDash(u, p);
    NumberAfterDash(v, q);
    DecimalHasNoDash(Abs(p));
    DecimalHasNoDash(Abs(q));
    if u + "-" + Integer(p) == v + "-" + Integer(q) {
      LastDash(u + Sign(p), Decimal(Abs(p)), v + Sign(q), Decimal(Abs(q)));
    }
  }

  lemma SamePrefix(x: string, s: string, t: string)
    ensures x + s == x + t <==> s == t
  {
    if x + s == x + t {
      assert s == (x + s)[|x|..] && t == (x + t)[|x|..];
    }
  }

  /** Exactly when two references of claimed attempts coincide. */
  lemma ReferencesCoincideWhen(t: string, p: int, a: nat, t': string, p': int, a': nat)
    ensures RenewalReference(t, p, a) == RenewalReference(t', p', a') <==>
      a == a' && Abs(p) == Abs(p') && t + Sign(p) == t' + Sign(p')
  {
    var u, u' := "mailx-renew-" + t + "-" + Integer(p), "mailx-renew-" + t' + "-" + Integer(p');
    DashNumber(u, a, u', a');
    assert u + "" == u && u' + "" == u';
    DashNumber("mailx-renew-" + t, p, "mailx-renew-" + t', p');
    SamePrefix("mailx-renew-", t + Sign(p), t' + Sign(p'));
    assert "mailx-renew-" + t + Sign(p) == "mailx-renew-" + (t + Sign(p));
    assert "mailx-renew-" + t' + Sign(p') == "mailx-renew-" + (t' + Sign(p'));
  }

  /** For period ends since 1970 the reference separates tenants, periods and
      attempts, whatever characters the tenant id has. */
  lemma ReferencesAreDistinct(t: string, p: nat, a: nat, t': string, p': nat, a': nat)
    requires RenewalReference(t, p, a) == RenewalReference(t', p', a')
    ensures t == t' && p == p' && a == a'
  {
    ReferencesCoincideWhen(t, p, a, t', p', a');
    assert t + "" == t && t' + "" == t';
  }

  /** Before 1970 it does not: a dash can belong to the tenant or to the number. */
  lemma NegativePeriodsCollide(t: string, p: int, a: nat)
    requires p > 0
    ensures RenewalReference(t, -p, a) == RenewalReference(t + "-", p, a)
  {
  }
}
